/**
  What every transaction of the crawl queue keeps: counters and budgets that equal the sums over
  task rows, one lease per origin, no stranded parked task, bounded one-use tokens.
 */
module QueueTotals {
  import opened QueueModel

  datatype Meter = ReservedBytes | ReservedArtifacts | TerminalTasks | SucceededTasks | FailedTasks | AllTasks

  /** What one task row contributes to a job's cached counter. */
  function Weight(m: Meter, jid: JobId, t: Task): nat {
    if t.job != jid then 0
    else match m
      case ReservedBytes => t.bytes
      case ReservedArtifacts => t.artifacts
      case TerminalTasks => if IsTerminal(t.state) then 1 else 0
      case SucceededTasks => if t.state.Succeeded? then 1 else 0
      case FailedTasks => if t.state.PermanentFailed? then 1 else 0
      case AllTasks => 1
  }

  function Counter(m: Meter, j: Job): nat {
    match m
    case ReservedBytes => j.reserved
    case ReservedArtifacts => j.reservedArtifacts
    case TerminalTasks => j.terminal
    case SucceededTasks => j.succeeded
    case FailedTasks => j.failed
    case AllTasks => j.discovered
  }

  ghost function Total(m: Meter, jid: JobId, tasks: map<TaskId, Task>): nat
    decreases tasks.Keys
  {
    if tasks == map[] then 0
    else
      var k :| k in tasks;
      Weight(m, jid, tasks[k]) + Total(m, jid, tasks - {k})
  }

  lemma {:induction false} TotalRemove(m: Meter, jid: JobId, tasks: map<TaskId, Task>, k: TaskId)
    requires k in tasks
    ensures Total(m, jid, tasks) == Weight(m, jid, tasks[k]) + Total(m, jid, tasks - {k})
    decreases tasks.Keys
  {
    var x :| x in tasks && Total(m, jid, tasks) == Weight(m, jid, tasks[x]) + Total(m, jid, tasks - {x});
    if x != k {
      TotalRemove(m, jid, tasks - {x}, k);
      TotalRemove(m, jid, tasks - {k}, x);
      assert tasks - {x} - {k} == tasks - {k} - {x};
    }
  }

  lemma {:induction false} TotalPut(m: Meter, jid: JobId, tasks: map<TaskId, Task>, k: TaskId, t: Task)
    ensures k in tasks ==>
      Total(m, jid, tasks[k := t]) + Weight(m, jid, tasks[k]) == Total(m, jid, tasks) + Weight(m, jid, t)
    ensures k !in tasks ==> Total(m, jid, tasks[k := t]) == Total(m, jid, tasks) + Weight(m, jid, t)
  {
    TotalRemove(m, jid, tasks[k := t], k);
    assert tasks[k := t] - {k} == tasks - {k};
    if k in tasks {
      TotalRemove(m, jid, tasks, k);
    } else {
      assert tasks - {k} == tasks;
    }
  }

  /** A job without tasks weighs nothing. */
  lemma {:induction false} TotalOfStranger(m: Meter, jid: JobId, tasks: map<TaskId, Task>)
    requires forall t :: t in tasks ==> tasks[t].job != jid
    ensures Total(m, jid, tasks) == 0
    decreases tasks.Keys
  {
    if tasks != map[] {
      var k :| k in tasks;
      TotalRemove(m, jid, tasks, k);
      TotalOfStranger(m, jid, tasks - {k});
    }
  }

  /** A bulk UPDATE of queued rows of one job moves each of them from weight 0 to its new weight. */
  lemma {:induction false} TotalBulk(m: Meter, jid: JobId, tasks: map<TaskId, Task>, ids: set<TaskId>,
                                     owner: JobId, s: TaskState, clear: bool)
    requires ids <= tasks.Keys && (s.PermanentFailed? || s.Cancelled?)
    requires forall t :: t in ids ==> tasks[t].job == owner && IsQueued(tasks[t].state)
                                      && tasks[t].bytes == 0 && tasks[t].artifacts == 0
    ensures Total(m, jid, Bulk(tasks, ids, s, clear)) ==
            Total(m, jid, tasks)
            + if jid == owner && (m.TerminalTasks? || (m.FailedTasks? && s.PermanentFailed?)) then |ids| else 0
    decreases ids
  {
    if ids == {} {
      assert Bulk(tasks, ids, s, clear) == tasks;
    } else {
      var k :| k in ids;
      var rest := Bulk(tasks, ids - {k}, s, clear);
      TotalBulk(m, jid, tasks, ids - {k}, owner, s, clear);
      var t := if clear then Unleased(tasks[k], s) else tasks[k].(state := s);
      assert Bulk(tasks, ids, s, clear) == rest[k := t];
      TotalPut(m, jid, rest, k, t);
    }
  }
}

module QueueInvariant {
  import opened QueueModel
  import opened QueueTotals

  /** Lease columns are set exactly while leased, and only a leased row holds a reservation. */
  predicate TaskOk(t: Task) {
    && (t.state.Leased? <==> t.lease.Some?) && (t.state.Leased? <==> t.owner.Some?)
    && (!t.state.Leased? ==> t.bytes == 0 && t.artifacts == 0)
  }

  predicate TasksOk(db: Db) {
    forall t :: t in db.tasks ==> TaskOk(db.tasks[t])
  }

  /** Every cached counter of every job equals the sum over its task rows. */
  ghost predicate CountersOk(db: Db) {
    forall j, m :: j in db.jobs ==> Counter(m, db.jobs[j]) == Total(m, j, db.tasks)
  }

  /** Nothing is overspent, reservations included. */
  predicate JobOk(j: Job) {
    && j.downloaded + j.reserved <= j.maxBytes
    && j.artifacts + j.reservedArtifacts <= j.maxArtifacts
    && j.discovered <= j.maxPages
  }

  predicate JobsOk(db: Db) {
    forall j :: j in db.jobs ==> JobOk(db.jobs[j])
  }

  /** A finished job has only terminal tasks; a cancelled one has nothing left in the queue. */
  predicate SettledOk(j: Job, t: Task) {
    && (IsFinished(j.state) ==> IsTerminal(t.state))
    && (j.cancelRequested ==> !IsQueued(t.state))
  }

  predicate AllSettled(db: Db)
    requires Refs(db)
  {
    forall t :: t in db.tasks ==> SettledOk(db.jobs[db.tasks[t].job], db.tasks[t])
  }

  /** Origin leases are exactly the leases of leased tasks, at most one to an origin. */
  predicate LeasesOk(db: Db) {
    && (forall t :: t in db.leases ==>
          && t in db.tasks && db.tasks[t].state.Leased?
          && db.leases[t].origin == db.tasks[t].origin && Some(db.leases[t].token) == db.tasks[t].lease
          && db.leases[t].token in db.issued)
    && (forall t :: t in db.tasks && db.tasks[t].state.Leased? ==> t in db.leases)
    && (forall t, u :: t in db.leases && u in db.leases && t != u ==>
          db.leases[t].origin != db.leases[u].origin && db.leases[t].token != db.leases[u].token)
  }

  predicate HasOpenSession(db: Db, tid: TaskId) {
    exists s :: s in db.sessions && db.sessions[s].task == tid && IsOpen(db.sessions[s].state)
  }

  predicate OneSessionPerTask(db: Db) {
    forall s, r :: s in db.sessions && r in db.sessions && db.sessions[s].task == db.sessions[r].task ==> s == r
  }

  predicate WithinDeadline(db: Db)
    requires Refs(db)
  {
    forall s :: s in db.sessions ==> db.sessions[s].expires <= db.jobs[db.tasks[db.sessions[s].task].job].deadline
  }

  predicate NoneStranded(db: Db) {
    forall t :: t in db.tasks && db.tasks[t].state.WaitingInput? ==> HasOpenSession(db, t)
  }

  /** One session row per task, within the job's deadline, and open as long as the task is parked. */
  predicate SessionsOk(db: Db)
    requires Refs(db)
  {
    OneSessionPerTask(db) && WithinDeadline(db) && NoneStranded(db)
  }

  /** Tokens outlive neither their session nor, once consumed, their own expiry. */
  predicate TokensOk(db: Db)
    requires Refs(db)
  {
    forall h :: h in db.tokens ==>
      && db.tokens[h].expires <= db.sessions[db.tokens[h].session].expires
      && (db.tokens[h].consumed.Some? ==> db.tokens[h].consumed.value < db.tokens[h].expires)
  }

  ghost predicate Core(db: Db) {
    Refs(db) && TasksOk(db) && CountersOk(db) && JobsOk(db) && AllSettled(db)
  }

  ghost predicate Inv(db: Db) {
    Core(db) && LeasesOk(db) && SessionsOk(db) && TokensOk(db)
  }

  // ---- building blocks ------------------------------------------------------------------

  /** The GREATEST(0, ...) clamps never bite: a job holds at least what each of its tasks holds. */
  lemma {:induction false} ClampNeverBites(db: Db, tid: TaskId)
    requires Core(db) && tid in db.tasks
    ensures var t := db.tasks[tid];
            t.bytes <= db.jobs[t.job].reserved && t.artifacts <= db.jobs[t.job].reservedArtifacts
  {
    var jid := db.tasks[tid].job;
    TotalRemove(ReservedBytes, jid, db.tasks, tid);
    TotalRemove(ReservedArtifacts, jid, db.tasks, tid);
    assert Counter(ReservedBytes, db.jobs[jid]) == Total(ReservedBytes, jid, db.tasks);
    assert Counter(ReservedArtifacts, db.jobs[jid]) == Total(ReservedArtifacts, jid, db.tasks);
  }

  /** Replacing one row keeps the core when the job's counters move by that row's weights. */
  lemma {:induction false} PutKeepsCore(db: Db, tid: TaskId, t: Task, j: Job)
    requires Core(db) && tid in db.tasks && t.job == db.tasks[tid].job && TaskOk(t) && JobOk(j) && SettledOk(j, t)
    requires forall m :: Counter(m, j) + Weight(m, t.job, db.tasks[tid])
                         == Counter(m, db.jobs[t.job]) + Weight(m, t.job, t)
    requires j.cancelRequested == db.jobs[t.job].cancelRequested
    requires IsFinished(j.state) ==>
               forall u :: u in db.tasks && u != tid && db.tasks[u].job == t.job ==> IsTerminal(db.tasks[u].state)
    ensures Refs(PutTask(db, tid, t, j)) && Core(PutTask(db, tid, t, j))
  {
    var db' := PutTask(db, tid, t, j);
    forall jid, m | jid in db'.jobs
      ensures Counter(m, db'.jobs[jid]) == Total(m, jid, db'.tasks)
    {
      TotalPut(m, jid, db.tasks, tid, t);
      assert Counter(m, db.jobs[jid]) == Total(m, jid, db.tasks);
    }
  }

  lemma {:induction false} InsertKeepsCore(db: Db, tid: TaskId, t: Task, j: Job)
    requires Core(db) && tid !in db.tasks && t.job in db.jobs && TaskOk(t) && JobOk(j)
    requires forall m :: Counter(m, j) == Counter(m, db.jobs[t.job]) + Weight(m, t.job, t)
    requires !j.cancelRequested && !IsFinished(j.state)
    ensures Refs(PutTask(db, tid, t, j)) && Core(PutTask(db, tid, t, j))
  {
    var db' := PutTask(db, tid, t, j);
    forall jid, m | jid in db'.jobs
      ensures Counter(m, db'.jobs[jid]) == Total(m, jid, db'.tasks)
    {
      TotalPut(m, jid, db.tasks, tid, t);
      assert Counter(m, db.jobs[jid]) == Total(m, jid, db.tasks);
    }
  }

  /** A sweep of queued rows of one job moves its terminal and failed counters by the row count. */
  lemma {:induction false} SweepKeepsCounters(db: Db, jid: JobId, ids: set<TaskId>, s: TaskState, clear: bool, j: Job)
    requires Core(db) && jid in db.jobs && (s.PermanentFailed? || s.Cancelled?)
    requires ids <= QueuedIds(db.tasks, jid)
    requires j == db.jobs[jid].(terminal := db.jobs[jid].terminal + |ids|, state := j.state,
                                failed := db.jobs[jid].failed + if s.PermanentFailed? then |ids| else 0,
                                cancelRequested := j.cancelRequested)
    ensures CountersOk(db.(tasks := Bulk(db.tasks, ids, s, clear), jobs := db.jobs[jid := j]))
  {
    forall k, m | k in db.jobs
      ensures Counter(m, db.jobs[jid := j][k]) == Total(m, k, Bulk(db.tasks, ids, s, clear))
    {
      TotalBulk(m, k, db.tasks, ids, jid, s, clear);
      hide Bulk;
      hide Total;
      assert Counter(m, db.jobs[k]) == Total(m, k, db.tasks);
    }
  }

  lemma {:induction false} SweepKeepsCore(db: Db, jid: JobId, ids: set<TaskId>, s: TaskState, clear: bool, j: Job)
    requires Core(db) && jid in db.jobs && (s.PermanentFailed? || s.Cancelled?)
    requires ids <= QueuedIds(db.tasks, jid)
    requires j == db.jobs[jid].(terminal := db.jobs[jid].terminal + |ids|, state := j.state,
                                failed := db.jobs[jid].failed + if s.PermanentFailed? then |ids| else 0,
                                cancelRequested := j.cancelRequested)
    requires forall t :: t in db.tasks && db.tasks[t].job == jid ==>
               SettledOk(j, Bulk(db.tasks, ids, s, clear)[t])
    ensures Core(db.(tasks := Bulk(db.tasks, ids, s, clear), jobs := db.jobs[jid := j]))
  {
    SweepKeepsCounters(db, jid, ids, s, clear, j);
    hide CountersOk;
  }

  /** No task is newly parked, and no session of a parked task is closed. */
  predicate Quiet(db: Db, db': Db)
    requires Refs(db) && Refs(db')
  {
    && db'.tokens == db.tokens && db'.sessions.Keys == db.sessions.Keys
    && (forall s :: s in db.sessions ==>
          && db'.sessions[s].task == db.sessions[s].task && db'.sessions[s].expires == db.sessions[s].expires
          && (IsOpen(db.sessions[s].state) && db'.tasks[db.sessions[s].task].state.WaitingInput? ==>
                IsOpen(db'.sessions[s].state)))
    && (forall t :: t in db.tasks ==> t in db'.tasks && db'.tasks[t].job == db.tasks[t].job)
    && (forall j :: j in db.jobs ==> j in db'.jobs && db'.jobs[j].deadline == db.jobs[j].deadline)
    && (forall t :: t in db'.tasks && db'.tasks[t].state.WaitingInput? ==>
          t in db.tasks && db.tasks[t].state.WaitingInput?)
  }

  lemma QuietKeepsSessions(db: Db, db': Db)
    requires Refs(db) && Refs(db') && Quiet(db, db') && SessionsOk(db) && TokensOk(db)
    ensures SessionsOk(db') && TokensOk(db')
  {
    hide OneSessionPerTask;
    hide NoneStranded;
    QuietKeepsOpen(db, db');
  }

  lemma QuietKeepsOpen(db: Db, db': Db)
    requires Refs(db) && Refs(db') && Quiet(db, db') && OneSessionPerTask(db) && NoneStranded(db)
    ensures OneSessionPerTask(db') && NoneStranded(db')
  {
    forall t | t in db'.tasks && db'.tasks[t].state.WaitingInput?
      ensures HasOpenSession(db', t)
    {
      assert HasOpenSession(db, t);
      var s :| s in db.sessions && db.sessions[s].task == t && IsOpen(db.sessions[s].state);
      assert s in db'.sessions && IsOpen(db'.sessions[s].state);
    }
  }

  /** The core speaks of task and job rows only. */
  lemma CoreIgnoresRest(db: Db, db': Db)
    requires Core(db) && Refs(db') && db'.tasks == db.tasks && db'.jobs == db.jobs
    ensures Core(db')
  {
    forall j, m | j in db'.jobs
      ensures Counter(m, db'.jobs[j]) == Total(m, j, db'.tasks)
    {
      assert Counter(m, db.jobs[j]) == Total(m, j, db.tasks);
    }
  }

  /** The row tid gives up its lease; the other rows keep theirs. */
  lemma UnleaseKeeps(db: Db, tid: TaskId, t: Task, j: Job)
    requires LeasesOk(db) && tid in db.tasks && !t.state.Leased?
    ensures LeasesOk(PutTask(db, tid, t, j).(leases := db.leases - {tid}))
  {
  }

  lemma DropIsRemove(db: Db, tid: TaskId)
    requires LeasesOk(db) && tid in db.tasks
    ensures DropLease(db.leases, tid, db.tasks[tid].lease) == db.leases - {tid}
  {
    if tid !in db.leases {
      assert db.leases - {tid} == db.leases;
    }
  }

  lemma Assemble(db: Db, db': Db)
    requires Inv(db) && Core(db') && LeasesOk(db') && Refs(db) && Refs(db') && Quiet(db, db')
    ensures Inv(db')
  {
    hide CountersOk;
    hide LeasesOk;
    QuietKeepsSessions(db, db');
  }

  lemma InvParts(db: Db)
    requires Inv(db)
    ensures Refs(db) && Core(db) && LeasesOk(db)
  {
    hide CountersOk;
    hide LeasesOk;
  }

  /** What the invariant says about one row and its job. */
  lemma RowFacts(db: Db, tid: TaskId)
    requires Inv(db) && tid in db.tasks
    ensures Refs(db)
    ensures var t := db.tasks[tid];
            var j := db.jobs[t.job];
            && TaskOk(t) && SettledOk(j, t) && JobOk(j)
            && t.bytes <= j.reserved && t.artifacts <= j.reservedArtifacts
            && (!t.state.Leased? ==> db.leases - {tid} == db.leases)
            && DropLease(db.leases, tid, t.lease) == db.leases - {tid}
  {
    hide CountersOk;
    ClampNeverBites(db, tid);
    DropIsRemove(db, tid);
  }

  lemma JobFacts(db: Db)
    requires Inv(db)
    ensures Refs(db)
    ensures forall j :: j in db.jobs ==> JobOk(db.jobs[j])
    ensures forall t :: t in db.tasks ==> SettledOk(db.jobs[db.tasks[t].job], db.tasks[t])
  {
    hide CountersOk;
    hide LeasesOk;
  }

  lemma QuietPut(db: Db, tid: TaskId, t: Task, j: Job, leases: map<TaskId, OriginLease>, issued: set<LeaseToken>)
    requires Refs(db) && t.job in db.jobs && j.deadline == db.jobs[t.job].deadline
    requires tid in db.tasks ==> t.job == db.tasks[tid].job
    requires t.state.WaitingInput? ==> tid in db.tasks && db.tasks[tid].state.WaitingInput?
    ensures var db' := PutTask(db, tid, t, j).(leases := leases, issued := issued);
            Refs(db') && Quiet(db, db')
  {
  }

  /** One row, leased or parked, moves to a state that is neither; its lease is gone. */
  lemma {:induction false} RowKeeps(db: Db, tid: TaskId, t: Task, j: Job)
    requires Inv(db) && tid in db.tasks && Refs(db) && t.job == db.tasks[tid].job
    requires TaskOk(t) && JobOk(j) && SettledOk(j, t) && !t.state.Leased? && !t.state.WaitingInput?
    requires forall m :: Counter(m, j) + Weight(m, t.job, db.tasks[tid])
                         == Counter(m, db.jobs[t.job]) + Weight(m, t.job, t)
    requires j.cancelRequested == db.jobs[t.job].cancelRequested && j.deadline == db.jobs[t.job].deadline
    requires IsFinished(j.state) ==>
               forall u :: u in db.tasks && u != tid && db.tasks[u].job == t.job ==> IsTerminal(db.tasks[u].state)
    ensures Inv(PutTask(db, tid, t, j).(leases := db.leases - {tid}))
  {
    hide Inv;
    hide Core;
    hide LeasesOk;
    hide Quiet;
    InvParts(db);
    var db' := PutTask(db, tid, t, j).(leases := db.leases - {tid});
    PutKeepsCore(db, tid, t, j);
    QuietPut(db, tid, t, j, db.leases - {tid}, db.issued);
    CoreIgnoresRest(PutTask(db, tid, t, j), db');
    UnleaseKeeps(db, tid, t, j);
    Assemble(db, db');
  }

  lemma QuietSweep(db: Db, ids: set<TaskId>, s: TaskState, clear: bool, jobs: map<JobId, Job>,
                   sessions: map<SessionId, Session>)
    requires Refs(db) && !s.WaitingInput? && !s.Leased? && ids <= db.tasks.Keys
    requires jobs.Keys == db.jobs.Keys && forall j :: j in jobs ==> jobs[j].deadline == db.jobs[j].deadline
    requires sessions.Keys == db.sessions.Keys
    requires forall r :: r in sessions ==>
               sessions[r] == db.sessions[r]
               || (db.sessions[r].task in ids && sessions[r] == db.sessions[r].(state := sessions[r].state))
    ensures var db' := db.(tasks := Bulk(db.tasks, ids, s, clear), jobs := jobs, sessions := sessions);
            Refs(db') && Quiet(db, db')
  {
    hide Bulk;
    BulkRows(db.tasks, ids, s, clear);
  }

  lemma BulkRows(tasks: map<TaskId, Task>, ids: set<TaskId>, s: TaskState, clear: bool)
    ensures Bulk(tasks, ids, s, clear).Keys == tasks.Keys
    ensures forall t :: t in tasks ==>
              && Bulk(tasks, ids, s, clear)[t].job == tasks[t].job
              && Bulk(tasks, ids, s, clear)[t].state == if t in ids then s else tasks[t].state
  {
  }

  lemma SweepKeepsLeases(db: Db, ids: set<TaskId>, s: TaskState, clear: bool, jobs: map<JobId, Job>,
                         sessions: map<SessionId, Session>)
    requires LeasesOk(db) && !s.Leased?
    requires forall t :: t in ids ==> t in db.tasks && !db.tasks[t].state.Leased?
    ensures LeasesOk(db.(tasks := Bulk(db.tasks, ids, s, clear), jobs := jobs, sessions := sessions))
  {
  }

  /** A sweep of queued rows, together with the sessions it closes. */
  lemma {:induction false} SweepKeeps(db: Db, jid: JobId, ids: set<TaskId>, s: TaskState, clear: bool, j: Job,
                                      sessions: map<SessionId, Session>)
    requires Inv(db) && jid in db.jobs && (s.PermanentFailed? || s.Cancelled?)
    requires ids <= QueuedIds(db.tasks, jid)
    requires j == db.jobs[jid].(terminal := db.jobs[jid].terminal + |ids|, state := j.state,
                                failed := db.jobs[jid].failed + if s.PermanentFailed? then |ids| else 0,
                                cancelRequested := j.cancelRequested)
    requires forall t :: t in db.tasks && db.tasks[t].job == jid ==>
               SettledOk(j, Bulk(db.tasks, ids, s, clear)[t])
    requires sessions.Keys == db.sessions.Keys
    requires forall r :: r in sessions ==>
               sessions[r] == db.sessions[r]
               || (db.sessions[r].task in ids && sessions[r] == db.sessions[r].(state := sessions[r].state))
    ensures Inv(db.(tasks := Bulk(db.tasks, ids, s, clear), jobs := db.jobs[jid := j], sessions := sessions))
  {
    hide Inv;
    hide Core;
    hide LeasesOk;
    hide Quiet;
    hide Refs;
    InvParts(db);
    var mid := db.(tasks := Bulk(db.tasks, ids, s, clear), jobs := db.jobs[jid := j]);
    SweepKeepsCore(db, jid, ids, s, clear, j);
    QuietSweep(db, ids, s, clear, mid.jobs, sessions);
    CoreIgnoresRest(mid, mid.(sessions := sessions));
    SweepKeepsLeases(db, ids, s, clear, mid.jobs, sessions);
    Assemble(db, mid.(sessions := sessions));
  }

  lemma InsertKeepsLeases(db: Db, tid: TaskId, t: Task, j: Job)
    requires LeasesOk(db) && tid !in db.tasks && !t.state.Leased?
    ensures LeasesOk(PutTask(db, tid, t, j))
  {
  }

  /** A new pending row in a live job. */
  lemma {:induction false} InsertKeeps(db: Db, tid: TaskId, t: Task, j: Job)
    requires Inv(db) && tid !in db.tasks && t.job in db.jobs && TaskOk(t) && t.state.Pending? && JobOk(j)
    requires forall m :: Counter(m, j) == Counter(m, db.jobs[t.job]) + Weight(m, t.job, t)
    requires !j.cancelRequested && !IsFinished(j.state) && j.deadline == db.jobs[t.job].deadline
    ensures Inv(PutTask(db, tid, t, j))
  {
    hide Inv;
    hide Core;
    hide LeasesOk;
    hide Quiet;
    InvParts(db);
    InsertKeepsCore(db, tid, t, j);
    InsertKeepsLeases(db, tid, t, j);
    QuietPut(db, tid, t, j, db.leases, db.issued);
    Assemble(db, PutTask(db, tid, t, j));
  }

  /** Job columns that no counter, deadline or flag depends on. */
  lemma JobColumnsKeep(db: Db, jid: JobId, j: Job)
    requires Inv(db) && jid in db.jobs && JobOk(j)
    requires j == db.jobs[jid].(downloaded := j.downloaded, artifacts := j.artifacts)
    ensures Inv(db.(jobs := db.jobs[jid := j]))
  {
    hide Inv;
    hide LeasesOk;
    hide CountersOk;
    hide Quiet;
    InvParts(db);
    var db' := db.(jobs := db.jobs[jid := j]);
    JobColumnsKeepCounters(db, jid, j);
    JobColumnsKeepLeases(db, db');
    QuietJobs(db, db');
    Assemble(db, db');
  }

  lemma JobColumnsKeepCounters(db: Db, jid: JobId, j: Job)
    requires CountersOk(db)
    requires if jid in db.jobs then j == db.jobs[jid].(downloaded := j.downloaded, artifacts := j.artifacts)
             else (forall t :: t in db.tasks ==> db.tasks[t].job != jid) && forall m :: Counter(m, j) == 0
    ensures CountersOk(db.(jobs := db.jobs[jid := j]))
  {
    var db' := db.(jobs := db.jobs[jid := j]);
    forall k, m | k in db'.jobs
      ensures Counter(m, db'.jobs[k]) == Total(m, k, db'.tasks)
    {
      if k in db.jobs {
        assert Counter(m, db.jobs[k]) == Total(m, k, db.tasks);
      } else {
        TotalOfStranger(m, k, db.tasks);
      }
    }
  }

  lemma QuietJobs(db: Db, db': Db)
    requires Refs(db) && Refs(db') && db' == db.(jobs := db'.jobs)
    requires forall j :: j in db.jobs ==> j in db'.jobs && db'.jobs[j].deadline == db.jobs[j].deadline
    ensures Quiet(db, db')
  {
  }

  lemma JobColumnsKeepLeases(db: Db, db': Db)
    requires LeasesOk(db) && db'.tasks == db.tasks && db'.leases == db.leases && db'.issued == db.issued
    ensures LeasesOk(db')
  {
  }

  // ---- transactions ---------------------------------------------------------------------

  lemma {:induction false} DrainKeeps(db: Db, jid: JobId)
    requires Inv(db) && jid in db.jobs
    ensures Inv(Drain(db, jid))
    ensures var j, j' := db.jobs[jid], Drain(db, jid).jobs[jid];
            j' == j.(terminal := j'.terminal, failed := j'.failed)
    ensures Drain(db, jid).jobs.Keys == db.jobs.Keys
  {
    hide Inv;
    JobFacts(db);
    var ids := QueuedIds(db.tasks, jid);
    SweepKeeps(db, jid, ids, PermanentFailed, true, Drain(db, jid).jobs[jid], db.sessions);
  }

  lemma {:induction false} TerminalizeKeeps(db: Db, tid: TaskId, s: TaskState)
    requires Inv(db) && tid in db.tasks && db.tasks[tid].state.Leased?
    requires s.BlockedRobots? || s.PermanentFailed? || s.Cancelled?
    ensures Inv(Terminalize(db, tid, s)) && db.tasks[tid].job in Terminalize(db, tid, s).jobs
    ensures var jid := db.tasks[tid].job;
            var j, j' := db.jobs[jid], Terminalize(db, tid, s).jobs[jid];
            j'.downloaded == j.downloaded && j'.maxBytes == j.maxBytes && j'.reserved + db.tasks[tid].bytes == j.reserved
  {
    hide Inv;
    hide Drain;
    RowFacts(db, tid);
    OthersSettled(db, tid, Unleased(db.tasks[tid], s));
    var t := db.tasks[tid];
    var t' := Unleased(t, s);
    var j := Release(db.jobs[t.job], t);
    var j' := j.(terminal := j.terminal + 1,
                 failed := j.failed + if s.PermanentFailed? then 1 else 0,
                 state := if j.cancelRequested && !HasLeased(db.tasks[tid := t'], t.job) then JobCancelled else j.state);
    RowKeeps(db, tid, t', j');
    if s.PermanentFailed? && j'.failed >= j'.maxFailures {
      DrainKeeps(PutTask(db, tid, t', j').(leases := db.leases - {tid}), t.job);
    }
  }

  /** When a job is finished, or cancelled with its last lease gone, its other tasks are terminal. */
  lemma OthersSettled(db: Db, tid: TaskId, t: Task)
    requires Inv(db) && tid in db.tasks && Refs(db) && t.job == db.tasks[tid].job && !t.state.Leased?
    ensures (db.jobs[t.job].cancelRequested && !HasLeased(db.tasks[tid := t], t.job)) || IsFinished(db.jobs[t.job].state)
            ==> forall u :: u in db.tasks && u != tid && db.tasks[u].job == t.job ==> IsTerminal(db.tasks[u].state)
  {
    hide Inv;
    JobFacts(db);
    forall u | u in db.tasks && u != tid && db.tasks[u].job == t.job
      ensures SettledOk(db.jobs[t.job], db.tasks[u])
      ensures db.tasks[u].state.Leased? ==> HasLeased(db.tasks[tid := t], t.job)
    {
      assert db.tasks[tid := t][u] == db.tasks[u];
    }
  }

  lemma {:induction false} ChargeKeeps(db: Db, jid: JobId, downloaded: nat)
    requires Inv(db) && jid in db.jobs
    requires db.jobs[jid].downloaded + db.jobs[jid].reserved + downloaded <= db.jobs[jid].maxBytes
    ensures Inv(Charge(db, jid, downloaded))
  {
    hide Inv;
    JobFacts(db);
    JobColumnsKeep(db, jid, Charge(db, jid, downloaded).jobs[jid]);
  }

  /** The failure branch: terminalise, then charge what was really downloaded. */
  lemma {:induction false} FailureKeeps(db: Db, tid: TaskId, reported: int)
    requires Inv(db) && tid in db.tasks && db.tasks[tid].state.Leased?
    ensures db.tasks[tid].job in Terminalize(db, tid, PermanentFailed).jobs
    ensures Inv(Charge(Terminalize(db, tid, PermanentFailed), db.tasks[tid].job, ActualBytes(db.tasks[tid], reported)))
  {
    hide Inv;
    hide Terminalize;
    RowFacts(db, tid);
    TerminalizeKeeps(db, tid, PermanentFailed);
    ChargeKeeps(Terminalize(db, tid, PermanentFailed), db.tasks[tid].job, ActualBytes(db.tasks[tid], reported));
  }

  lemma {:induction false} RequeueKeeps(db: Db, tid: TaskId, at: int, downloaded: nat)
    requires Inv(db) && tid in db.tasks && db.tasks[tid].state.Leased? && downloaded <= db.tasks[tid].bytes
    requires !db.jobs[db.tasks[tid].job].cancelRequested
    ensures Inv(Requeue(db, tid, at, downloaded))
  {
    hide Inv;
    RowFacts(db, tid);
    var t := db.tasks[tid];
    var j := Release(db.jobs[t.job], t);
    RowKeeps(db, tid, Unleased(t, RetryWait).(availableAt := at), j.(downloaded := j.downloaded + downloaded));
  }

  lemma {:induction false} SucceedKeeps(db: Db, tid: TaskId, downloaded: nat, artifactBytes: nat)
    requires Inv(db) && tid in db.tasks && db.tasks[tid].state.Leased?
    requires downloaded <= db.tasks[tid].bytes && artifactBytes <= db.tasks[tid].artifacts
    ensures Inv(Succeed(db, tid, downloaded, artifactBytes))
  {
    hide Inv;
    RowFacts(db, tid);
    var t := db.tasks[tid];
    RowKeeps(db, tid, Unleased(t, Succeeded), Succeed(db, tid, downloaded, artifactBytes).jobs[t.job]);
  }

  lemma {:induction false} InsertFoundKeeps(db: Db, parent: Task, found: seq<Found>)
    requires Inv(db) && parent.job in db.jobs
    requires !db.jobs[parent.job].cancelRequested && !IsFinished(db.jobs[parent.job].state)
    ensures Inv(InsertFound(db, parent, found))
    decreases |found|
  {
    hide Inv;
    JobFacts(db);
    var j := db.jobs[parent.job];
    if found != [] && j.discovered < j.maxPages {
      if found[0].id in db.tasks {
        InsertFoundKeeps(db, parent, found[1..]);
      } else {
        var t := NewTask(parent.job, parent.origin, found[0].responseCap, db.now, parent.maxAttempts);
        InsertKeeps(db, found[0].id, t, j.(discovered := j.discovered + 1));
        InsertFoundKeeps(PutTask(db, found[0].id, t, j.(discovered := j.discovered + 1)), parent, found[1..]);
      }
    }
  }

  /** A job row without tasks. */
  lemma {:induction false} EmptyJobKeeps(db: Db, jid: JobId, j: Job)
    requires Inv(db) && jid !in db.jobs && JobOk(j) && forall m :: Counter(m, j) == 0
    ensures Inv(db.(jobs := db.jobs[jid := j]))
  {
    hide Inv;
    hide LeasesOk;
    hide CountersOk;
    hide Quiet;
    InvParts(db);
    var db' := db.(jobs := db.jobs[jid := j]);
    JobColumnsKeepCounters(db, jid, j);
    JobColumnsKeepLeases(db, db');
    QuietJobs(db, db');
    Assemble(db, db');
  }

  lemma {:induction false} SubmitKeeps(db: Db, jid: JobId, tid: TaskId, s: Submission)
    requires Inv(db)
    ensures Inv(Submit(db, jid, tid, s))
  {
    hide Inv;
    if jid !in db.jobs && tid !in db.tasks && s.maxPages > 0 {
      var j := Job(JobPending, s.deadline, false, s.maxPages, s.maxBytes, s.maxArtifacts,
                   s.maxFailures, 0, 0, 0, 0, 0, 0, 0, 0);
      EmptyJobKeeps(db, jid, j);
      var mid, t := db.(jobs := db.jobs[jid := j]), NewTask(jid, s.origin, s.responseCap, db.now, s.maxAttempts);
      InsertKeeps(mid, tid, t, j.(discovered := 1));
      assert PutTask(mid, tid, t, j.(discovered := 1)) == Submit(db, jid, tid, s);
    }
  }

  lemma {:induction false} GrantKeeps(db: Db, tid: TaskId, worker: Worker, token: LeaseToken, attempts: nat)
    requires Inv(db) && tid in db.tasks && IsQueued(db.tasks[tid].state) && token !in db.issued
    requires !db.jobs[db.tasks[tid].job].cancelRequested && !OriginBusy(db, db.tasks[tid].origin)
    requires ByteAllowance(db.jobs[db.tasks[tid].job], db.tasks[tid]) > 0
    requires ArtifactAllowance(db.jobs[db.tasks[tid].job]) > 0
    ensures Inv(Grant(db, tid, worker, token, attempts))
  {
    hide Inv;
    hide Core;
    hide LeasesOk;
    hide Quiet;
    RowFacts(db, tid);
    InvParts(db);
    var t, db' := db.tasks[tid], Grant(db, tid, worker, token, attempts);
    PutKeepsCore(db, tid, db'.tasks[tid], db'.jobs[t.job]);
    CoreIgnoresRest(PutTask(db, tid, db'.tasks[tid], db'.jobs[t.job]), db');
    GrantKeepsLeases(db, tid, db'.tasks[tid], db'.jobs[t.job], token);
    QuietPut(db, tid, db'.tasks[tid], db'.jobs[t.job], db'.leases, db'.issued);
    Assemble(db, db');
  }

  lemma GrantKeepsLeases(db: Db, tid: TaskId, t: Task, j: Job, token: LeaseToken)
    requires LeasesOk(db) && tid in db.tasks && !db.tasks[tid].state.Leased? && token !in db.issued
    requires t.state.Leased? && t.origin == db.tasks[tid].origin && t.lease == Some(token)
    requires !OriginBusy(db, t.origin)
    ensures LeasesOk(PutTask(db, tid, t, j).(leases := db.leases[tid := OriginLease(t.origin, token)],
                                             issued := db.issued + {token}))
  {
  }

  lemma {:induction false} RequestCancelKeeps(db: Db, jid: JobId)
    requires Inv(db)
    ensures Inv(RequestCancel(db, jid))
  {
    hide Inv;
    JobFacts(db);
    var db' := RequestCancel(db, jid);
    if jid in db.jobs && !IsFinished(db.jobs[jid].state) {
      SweepKeeps(db, jid, QueuedIds(db.tasks, jid), Cancelled, false, db'.jobs[jid], db'.sessions);
    }
  }

  lemma {:induction false} FinalizeKeeps(db: Db, jid: JobId)
    requires Inv(db)
    ensures Inv(Finalize(db, jid))
  {
    hide Inv;
    hide Verdict;
    JobFacts(db);
    if jid in db.jobs && !IsFinished(db.jobs[jid].state) {
      var db' := Finalize(db, jid);
      var ids := if db.jobs[jid].deadline <= db.now then QueuedIds(db.tasks, jid) else {};
      assert db'.tasks == Bulk(db.tasks, ids, Cancelled, false);
      forall t | t in db.tasks && db.tasks[t].job == jid
        ensures SettledOk(db'.jobs[jid], db'.tasks[t])
      {
        assert !IsTerminal(db'.tasks[t].state) ==> HasNonterminal(db'.tasks, jid);
      }
      SweepKeeps(db, jid, ids, Cancelled, false, db'.jobs[jid], db.sessions);
      assert db' == db.(tasks := db'.tasks, jobs := db.jobs[jid := db'.jobs[jid]], sessions := db.sessions);
    }
  }

  /** Forced terminalisation, shared by every fenced transaction. */
  lemma ForcedKeeps(db: Db, tid: TaskId)
    requires Inv(db) && tid in db.tasks && db.tasks[tid].state.Leased?
    ensures InactiveState(db, tid) != None ==> Inv(Terminalize(db, tid, InactiveState(db, tid).value))
  {
    hide Inv;
    hide Terminalize;
    RowFacts(db, tid);
    if InactiveState(db, tid) != None {
      TerminalizeKeeps(db, tid, InactiveState(db, tid).value);
    }
  }

  lemma {:induction false} HeartbeatKeeps(db: Db, tid: TaskId, token: LeaseToken)
    requires Inv(db)
    ensures Inv(Heartbeat(db, tid, token).0)
  {
    hide Inv;
    hide Core;
    hide LeasesOk;
    hide Quiet;
    hide Terminalize;
    if Fenced(db, tid, token) {
      ForcedKeeps(db, tid);
      RowFacts(db, tid);
      InvParts(db);
      if InactiveState(db, tid) == None {
        var t := db.tasks[tid];
        var t' := t.(leaseExpires := db.now + LEASE_SECONDS);
        PutKeepsCore(db, tid, t', db.jobs[t.job]);
        HeartbeatKeepsLeases(db, tid, t', db.jobs[t.job]);
        QuietPut(db, tid, t', db.jobs[t.job], db.leases, db.issued);
        Assemble(db, PutTask(db, tid, t', db.jobs[t.job]));
      }
    }
  }

  lemma HeartbeatKeepsLeases(db: Db, tid: TaskId, t: Task, j: Job)
    requires LeasesOk(db) && tid in db.tasks && t == db.tasks[tid].(leaseExpires := t.leaseExpires)
    ensures LeasesOk(PutTask(db, tid, t, j))
  {
  }

  lemma {:induction false} CompleteKeeps(db: Db, tid: TaskId, token: LeaseToken, reported: int, artifactBytes: nat, found: seq<Found>)
    requires Inv(db)
    ensures Inv(Complete(db, tid, token, reported, artifactBytes, found).0)
  {
    hide Inv;
    hide Terminalize;
    hide InsertFound;
    hide Drain;
    if Fenced(db, tid, token) {
      ForcedKeeps(db, tid);
      RowFacts(db, tid);
      var t := db.tasks[tid];
      if InactiveState(db, tid) == None {
        if Clamp(reported) > t.bytes || artifactBytes > t.artifacts {
          FailureKeeps(db, tid, reported);
          var failed := Charge(Terminalize(db, tid, PermanentFailed), t.job, ActualBytes(t, reported));
          DrainKeeps(failed, t.job);
        } else {
          SucceedKeeps(db, tid, ActualBytes(t, reported), artifactBytes);
          InsertFoundKeeps(Succeed(db, tid, ActualBytes(t, reported), artifactBytes), t, found);
        }
      }
    }
  }

  lemma {:induction false} RetryKeeps(db: Db, tid: TaskId, token: LeaseToken, at: int, reported: int)
    requires Inv(db)
    ensures Inv(Retry(db, tid, token, at, reported).0) && Inv(Fail(db, tid, token, reported).0)
    ensures Inv(BlockRobots(db, tid, token).0)
  {
    hide Inv;
    hide Terminalize;
    hide Charge;
    hide Requeue;
    if Fenced(db, tid, token) {
      ForcedKeeps(db, tid);
      RowFacts(db, tid);
      if InactiveState(db, tid) == None {
        FailureKeeps(db, tid, reported);
        TerminalizeKeeps(db, tid, BlockedRobots);
        RequeueKeeps(db, tid, at, ActualBytes(db.tasks[tid], reported));
      }
    }
  }

  lemma {:induction false} ReapKeeps(db: Db, tid: TaskId)
    requires Inv(db)
    ensures Inv(Reap(db, tid))
  {
    hide Inv;
    hide Terminalize;
    hide Requeue;
    if tid in db.tasks && db.tasks[tid].state.Leased? && db.tasks[tid].leaseExpires <= db.now {
      ForcedKeeps(db, tid);
      RowFacts(db, tid);
      if InactiveState(db, tid) == None {
        TerminalizeKeeps(db, tid, PermanentFailed);
        RequeueKeeps(db, tid, db.now, 0);
      }
    }
  }

  lemma {:induction false} ClaimKeeps(db: Db, tid: TaskId, worker: Worker, token: LeaseToken)
    requires Inv(db)
    ensures Inv(Claim(db, tid, worker, token))
  {
    hide Inv;
    hide Drain;
    hide Grant;
    if tid in db.tasks && token !in db.issued {
      RowFacts(db, tid);
      var t := db.tasks[tid];
      var j := db.jobs[t.job];
      if ByteAllowance(j, t) <= 0 || ArtifactAllowance(j) <= 0 {
        DrainKeeps(db, t.job);
      } else if (t.state.Pending? || t.state.RetryWait?) && !j.cancelRequested && !OriginBusy(db, t.origin) {
        GrantKeeps(db, tid, worker, token, t.attempts + 1);
      }
    }
  }

  lemma {:induction false} ResumeClaimKeeps(db: Db, sid: SessionId, worker: Worker, token: LeaseToken)
    requires Inv(db)
    ensures Inv(ResumeClaim(db, sid, worker, token))
  {
    hide Inv;
    hide Grant;
    if sid in db.sessions {
      InvParts(db);
      RowFacts(db, db.sessions[sid].task);
      if ResumeClaim(db, sid, worker, token) != db {
        var tid := db.sessions[sid].task;
        GrantKeeps(db, tid, worker, token, db.tasks[tid].attempts);
      }
    }
  }

  // ---- live sessions --------------------------------------------------------------------

  lemma {:induction false} WaitForInputKeeps(db: Db, tid: TaskId, token: LeaseToken, worker: Worker, sid: SessionId, ttl: int)
    requires Inv(db)
    ensures Inv(WaitForInput(db, tid, token, worker, sid, ttl).0)
  {
    hide Inv;
    hide Core;
    hide LeasesOk;
    hide SessionsOk;
    hide TokensOk;
    InvParts(db);
    if WaitForInput(db, tid, token, worker, sid, ttl).1 {
      var db' := WaitForInput(db, tid, token, worker, sid, ttl).0;
      RowFacts(db, tid);
      InvParts(db);
      SessionParts(db);
      var t := db.tasks[tid];
      var t', j' := Unleased(t, WaitingInput), Release(db.jobs[t.job], t);
      PutKeepsCore(db, tid, t', j');
      CoreIgnoresRest(PutTask(db, tid, t', j'), db');
      UnleaseKeeps(db, tid, t', j');
      JobColumnsKeepLeases(PutTask(db, tid, t', j').(leases := db.leases - {tid}), db');
      ParkedKeepsSessions(db, db', tid, sid);
      FromParts(db');
    }
  }

  lemma SessionParts(db: Db)
    requires Inv(db)
    ensures Refs(db) && SessionsOk(db) && TokensOk(db)
  {
    hide CountersOk;
    hide LeasesOk;
  }

  lemma FromParts(db: Db)
    requires Core(db) && LeasesOk(db) && Refs(db) && SessionsOk(db) && TokensOk(db)
    ensures Inv(db)
  {
  }

  lemma {:induction false} ParkedKeepsSessions(db: Db, db': Db, tid: TaskId, sid: SessionId)
    requires Refs(db) && Refs(db') && SessionsOk(db) && TokensOk(db) && tid in db.tasks
    requires sid !in db.sessions && sid in db'.sessions && (forall s :: s in db.sessions ==> db.sessions[s].task != tid)
    requires db'.sessions == db.sessions[sid := db'.sessions[sid]] && db'.tokens == db.tokens
    requires db'.sessions[sid].task == tid && IsOpen(db'.sessions[sid].state)
    requires db'.sessions[sid].expires <= db.jobs[db.tasks[tid].job].deadline
    requires db'.tasks == db.tasks[tid := db'.tasks[tid]] && db'.tasks[tid].job == db.tasks[tid].job
    requires forall j :: j in db.jobs ==> j in db'.jobs && db'.jobs[j].deadline == db.jobs[j].deadline
    ensures SessionsOk(db') && TokensOk(db')
  {
    hide OneSessionPerTask;
    hide NoneStranded;
    ParkedHasSession(db, db', tid, sid);
  }

  lemma ParkedHasSession(db: Db, db': Db, tid: TaskId, sid: SessionId)
    requires OneSessionPerTask(db) && NoneStranded(db)
    requires sid !in db.sessions && sid in db'.sessions && (forall s :: s in db.sessions ==> db.sessions[s].task != tid)
    requires db'.sessions == db.sessions[sid := db'.sessions[sid]] && tid in db.tasks
    requires db'.sessions[sid].task == tid && IsOpen(db'.sessions[sid].state)
    requires tid in db'.tasks && db'.tasks == db.tasks[tid := db'.tasks[tid]]
    ensures OneSessionPerTask(db') && NoneStranded(db')
  {
    forall u | u in db'.tasks && db'.tasks[u].state.WaitingInput?
      ensures HasOpenSession(db', u)
    {
      if u != tid {
        assert HasOpenSession(db, u);
        var s :| s in db.sessions && db.sessions[s].task == u && IsOpen(db.sessions[s].state);
        assert s in db'.sessions && db'.sessions[s] == db.sessions[s];
      }
    }
  }

  lemma {:induction false} TokensKeep(db: Db, sid: SessionId, scope: Scope, ttl: int, hash: TokenHash)
    requires Inv(db)
    ensures Inv(IssueToken(db, sid, scope, ttl, hash).0) && Inv(ConsumeToken(db, sid, scope, hash).0)
  {
    hide Core;
    hide LeasesOk;
    hide SessionsOk;
    InvParts(db);
    TokenRowsKeep(db, IssueToken(db, sid, scope, ttl, hash).0);
    TokenRowsKeep(db, ConsumeToken(db, sid, scope, hash).0);
  }

  lemma TokenRowsKeep(db: Db, db': Db)
    requires Inv(db) && Refs(db') && TokensOk(db')
    requires db' == db.(tokens := db'.tokens)
    ensures Inv(db')
  {
    hide Core;
    hide LeasesOk;
    hide TokensOk;
    CoreIgnoresRest(db, db');
    JobColumnsKeepLeases(db, db');
    forall t | t in db'.tasks && db'.tasks[t].state.WaitingInput?
      ensures HasOpenSession(db', t)
    {
      assert HasOpenSession(db, t);
    }
  }

  /** A session may be closed exactly when its task is not parked. */
  lemma {:induction false} SetSessionKeeps(db: Db, sid: SessionId, state: SessionState)
    requires Inv(db) && sid in db.sessions
    ensures Inv(SetSession(db, sid, state))
            <==> (IsOpen(db.sessions[sid].state) && db.tasks[db.sessions[sid].task].state.WaitingInput? ==> IsOpen(state))
  {
    hide CountersOk;
    hide LeasesOk;
    hide WithinDeadline;
    hide TokensOk;
    var db' := SetSession(db, sid, state);
    CoreIgnoresRest(db, db');
    JobColumnsKeepLeases(db, db');
    var tid := db.sessions[sid].task;
    if IsOpen(db.sessions[sid].state) && db.tasks[tid].state.WaitingInput? && !IsOpen(state) {
      assert !HasOpenSession(db', tid);
    } else {
      QuietSetSession(db, sid, state);
      QuietKeepsSessions(db, db');
    }
  }

  lemma QuietSetSession(db: Db, sid: SessionId, state: SessionState)
    requires Refs(db) && sid in db.sessions
    requires IsOpen(db.sessions[sid].state) && db.tasks[db.sessions[sid].task].state.WaitingInput? ==> IsOpen(state)
    ensures Refs(SetSession(db, sid, state)) && Quiet(db, SetSession(db, sid, state))
  {
  }

  lemma {:induction false} CloseTaskKeeps(db: Db, tid: TaskId, reason: Reason)
    requires Inv(db) && tid in db.tasks && (db.tasks[tid].state.WaitingInput? || db.tasks[tid].state.Leased?)
    ensures Inv(CloseTask(db, tid, reason))
  {
    hide Inv;
    RowFacts(db, tid);
    var db' := CloseTask(db, tid, reason);
    RowKeeps(db, tid, db'.tasks[tid], db'.jobs[db.tasks[tid].job]);
  }

  lemma {:induction false} CloseKeeps(db: Db, sid: SessionId, reason: Reason, worker: Option<Worker>)
    requires Inv(db)
    ensures Inv(Close(db, sid, reason, worker).0)
  {
    hide Inv;
    if sid in db.sessions && IsOpen(db.sessions[sid].state) {
      InvParts(db);
      var tid := db.sessions[sid].task;
      RowFacts(db, tid);
      if db.tasks[tid].state.Succeeded? {
        SetSessionKeeps(db, sid, Closed);
      } else {
        var db' := if CloseTerminalizes(db.tasks[tid], reason, worker) then CloseTask(db, tid, reason) else db;
        if CloseTerminalizes(db.tasks[tid], reason, worker) {
          CloseTaskKeeps(db, tid, reason);
        }
        SetSessionKeeps(db', sid, if reason.ByCancel? then SessionCancelled else Expired);
      }
    }
  }

  lemma {:induction false} AttachKeeps(db: Db, sid: SessionId)
    requires Inv(db)
    ensures Inv(Touch(db, sid).0) && Inv(RequestResume(db, sid).0)
  {
    hide Inv;
    if Attachable(db, sid) {
      SetSessionKeeps(db, sid, Connected);
      SetSessionKeeps(db, sid, Resuming);
    }
  }

  /**
    close_completed checks only the session.  It keeps the queue consistent exactly when the task
    of a resuming session is no longer parked, which is what its caller establishes by completing
    the task first.
   */
  lemma {:induction false} CloseCompletedKeepsIff(db: Db, sid: SessionId)
    requires Inv(db)
    ensures Inv(CloseCompleted(db, sid).0)
            <==> !(sid in db.sessions && db.sessions[sid].state.Resuming?
                   && db.tasks[db.sessions[sid].task].state.WaitingInput?)
  {
    hide Inv;
    if sid in db.sessions && db.sessions[sid].state.Resuming? {
      SetSessionKeeps(db, sid, Closed);
    }
  }

  lemma {:induction false} ExpireOneKeeps(db: Db, sid: SessionId)
    requires Inv(db)
    ensures Inv(ExpireOne(db, sid))
  {
    hide Inv;
    InvParts(db);
    if Due(db, sid) {
      var tid, db' := db.sessions[sid].task, ExpireOne(db, sid);
      RowFacts(db, tid);
      if db.tasks[tid].state.WaitingInput? {
        var j := db.jobs[db.tasks[tid].job];
        RowKeeps(db, tid, db'.tasks[tid], db'.jobs[db.tasks[tid].job]);
        var mid := PutTask(db, tid, db'.tasks[tid], db'.jobs[db.tasks[tid].job]).(leases := db.leases - {tid});
        SetSessionKeeps(mid, sid, Expired);
        assert SetSession(mid, sid, Expired) == db';
      } else {
        SetSessionKeeps(db, sid, Expired);
      }
    }
  }

  lemma {:induction false} ExpireDueKeeps(db: Db, rows: seq<SessionId>)
    requires Inv(db)
    ensures Inv(ExpireDue(db, rows))
    decreases |rows|
  {
    hide Inv;
    hide ExpireOne;
    InvParts(db);
    if rows != [] {
      ExpireOneKeeps(db, rows[0]);
      InvParts(ExpireOne(db, rows[0]));
      ExpireDueKeeps(ExpireOne(db, rows[0]), rows[1..]);
    }
  }
}
