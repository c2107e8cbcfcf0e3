/**
  Whole runs of the crawl queue: any sequence of transactions, in any interleaving of workers,
  reapers, people and the clock.
 */
module QueueRuns {
  import opened QueueModel
  import opened QueueTotals
  import opened QueueInvariant

  datatype Step =
    | DoSubmit(jid: JobId, tid: TaskId, sub: Submission)
    | DoClaim(tid: TaskId, worker: Worker, token: LeaseToken)
    | DoComplete(tid: TaskId, token: LeaseToken, reported: int, artifactBytes: nat, found: seq<Found>)
    | DoRetry(tid: TaskId, token: LeaseToken, at: int, reported: int)
    | DoFail(tid: TaskId, token: LeaseToken, reported: int)
    | DoBlockRobots(tid: TaskId, token: LeaseToken)
    | DoHeartbeat(tid: TaskId, token: LeaseToken)
    | DoReap(tid: TaskId)
    | DoRequestCancel(jid: JobId)
    | DoFinalize(jid: JobId)
    | DoWaitForInput(tid: TaskId, token: LeaseToken, worker: Worker, sid: SessionId, ttl: int)
    | DoIssueToken(sid: SessionId, scope: Scope, ttl: int, hash: TokenHash)
    | DoConsumeToken(sid: SessionId, scope: Scope, hash: TokenHash)
    | DoTouch(sid: SessionId)
    | DoRequestResume(sid: SessionId)
    | DoResumeClaim(sid: SessionId, worker: Worker, token: LeaseToken)
    | DoClose(sid: SessionId, reason: Reason, closer: Option<Worker>)
    | DoCloseCompleted(sid: SessionId)
    | DoExpireDue(rows: seq<SessionId>)
    | Tick(seconds: nat)

  function Apply(db: Db, step: Step): Db
    requires Refs(db)
  {
    match step
    case DoSubmit(jid, tid, sub) => Submit(db, jid, tid, sub)
    case DoClaim(tid, worker, token) => Claim(db, tid, worker, token)
    case DoComplete(tid, token, reported, artifactBytes, found) => Complete(db, tid, token, reported, artifactBytes, found).0
    case DoRetry(tid, token, at, reported) => Retry(db, tid, token, at, reported).0
    case DoFail(tid, token, reported) => Fail(db, tid, token, reported).0
    case DoBlockRobots(tid, token) => BlockRobots(db, tid, token).0
    case DoHeartbeat(tid, token) => Heartbeat(db, tid, token).0
    case DoReap(tid) => Reap(db, tid)
    case DoRequestCancel(jid) => RequestCancel(db, jid)
    case DoFinalize(jid) => Finalize(db, jid)
    case DoWaitForInput(tid, token, worker, sid, ttl) => WaitForInput(db, tid, token, worker, sid, ttl).0
    case DoIssueToken(sid, scope, ttl, hash) => IssueToken(db, sid, scope, ttl, hash).0
    case DoConsumeToken(sid, scope, hash) => ConsumeToken(db, sid, scope, hash).0
    case DoTouch(sid) => Touch(db, sid).0
    case DoRequestResume(sid) => RequestResume(db, sid).0
    case DoResumeClaim(sid, worker, token) => ResumeClaim(db, sid, worker, token)
    case DoClose(sid, reason, closer) => Close(db, sid, reason, closer).0
    case DoCloseCompleted(sid) => CloseCompleted(db, sid).0
    case DoExpireDue(rows) => ExpireDue(db, rows)
    case Tick(seconds) => db.(now := db.now + seconds)
  }

  /** The runner calls close_completed only after complete_task succeeded for the session's task. */
  predicate Legal(db: Db, step: Step)
    requires Refs(db)
  {
    step.DoCloseCompleted? && step.sid in db.sessions ==> db.tasks[db.sessions[step.sid].task].state.Succeeded?
  }

  /** Every transaction keeps the invariant. */
  lemma {:induction false} StepKeeps(db: Db, step: Step)
    requires Inv(db) && Legal(db, step)
    ensures Inv(Apply(db, step))
  {
    hide Inv;
    InvParts(db);
    match step
    case DoSubmit(jid, tid, sub) => SubmitKeeps(db, jid, tid, sub);
    case DoClaim(tid, worker, token) => ClaimKeeps(db, tid, worker, token);
    case DoComplete(tid, token, reported, artifactBytes, found) =>
      CompleteKeeps(db, tid, token, reported, artifactBytes, found);
    case DoRetry(tid, token, at, reported) => RetryKeeps(db, tid, token, at, reported);
    case DoFail(tid, token, reported) => RetryKeeps(db, tid, token, 0, reported);
    case DoBlockRobots(tid, token) => RetryKeeps(db, tid, token, 0, 0);
    case DoHeartbeat(tid, token) => HeartbeatKeeps(db, tid, token);
    case DoReap(tid) => ReapKeeps(db, tid);
    case DoRequestCancel(jid) => RequestCancelKeeps(db, jid);
    case DoFinalize(jid) => FinalizeKeeps(db, jid);
    case DoWaitForInput(tid, token, worker, sid, ttl) => WaitForInputKeeps(db, tid, token, worker, sid, ttl);
    case DoIssueToken(sid, scope, ttl, hash) => TokensKeep(db, sid, scope, ttl, hash);
    case DoConsumeToken(sid, scope, hash) => TokensKeep(db, sid, scope, 0, hash);
    case DoTouch(sid) => AttachKeeps(db, sid);
    case DoRequestResume(sid) => AttachKeeps(db, sid);
    case DoResumeClaim(sid, worker, token) => ResumeClaimKeeps(db, sid, worker, token);
    case DoClose(sid, reason, closer) => CloseKeeps(db, sid, reason, closer);
    case DoCloseCompleted(sid) => CloseCompletedKeepsIff(db, sid);
    case DoExpireDue(rows) => ExpireDueKeeps(db, rows);
    case Tick(seconds) => TickKeeps(db, seconds);
  }

  lemma TickKeeps(db: Db, seconds: nat)
    requires Inv(db)
    ensures Inv(db.(now := db.now + seconds))
  {
    hide Inv;
    hide Core;
    hide LeasesOk;
    hide SessionsOk;
    hide TokensOk;
    var db' := db.(now := db.now + seconds);
    InvParts(db);
    SessionParts(db);
    CoreIgnoresRest(db, db');
    JobColumnsKeepLeases(db, db');
    assert Quiet(db, db');
    Assemble(db, db');
  }

  /** A new database: no jobs, tasks, sessions, tokens or leases. */
  ghost function EmptyDb(now: int): (db: Db)
    ensures Inv(db)
  {
    Db(now, map[], map[], map[], map[], map[], {})
  }

  /** One transaction; the runner's one illegal call simply does not happen. */
  ghost function Next(db: Db, step: Step): (db': Db)
    requires Inv(db)
    ensures Inv(db')
  {
    InvParts(db);
    if Legal(db, step) then StepKeeps(db, step); Apply(db, step) else db
  }

  /** The state after any sequence of transactions: the invariant holds at every point of every run. */
  ghost function Run(db: Db, steps: seq<Step>): (db': Db)
    requires Inv(db)
    ensures Inv(db')
    decreases |steps|
  {
    if steps == [] then db else Run(Next(db, steps[0]), steps[1..])
  }

  // ---- what never goes back -------------------------------------------------------------

  function Rank(s: SessionState): nat {
    match s
    case Starting => 0
    case Waiting => 1
    case Connected => 2
    case Resuming => 3
    case Closed => 4
    case Expired => 4
    case SessionCancelled => 4
  }

  predicate Holds(tasks: map<TaskId, Task>, tid: TaskId, token: LeaseToken) {
    tid in tasks && tasks[tid].lease == Some(token)
  }

  /** Terminal rows stay as they are, and an old lease token never comes back. */
  ghost predicate TasksEvolve(db: Db, db': Db) {
    && (forall t :: t in db.tasks ==>
          t in db'.tasks && (IsTerminal(db.tasks[t].state) ==> db'.tasks[t].state == db.tasks[t].state))
    && db.issued <= db'.issued
    && (forall t, x :: x in db.issued && Holds(db'.tasks, t, x) ==> Holds(db.tasks, t, x))
  }

  /** Sessions keep their task and expiry and only move forward; consumed tokens stay consumed. */
  ghost predicate SessionsEvolve(db: Db, db': Db) {
    && (forall s :: s in db.sessions ==>
          && s in db'.sessions && db'.sessions[s].task == db.sessions[s].task
          && db'.sessions[s].expires == db.sessions[s].expires
          && Rank(db.sessions[s].state) <= Rank(db'.sessions[s].state)
          && (!IsOpen(db.sessions[s].state) ==> db'.sessions[s].state == db.sessions[s].state))
    && (forall h :: h in db.tokens ==>
          && h in db'.tokens && db'.tokens[h].expires == db.tokens[h].expires
          && db'.tokens[h].session == db.tokens[h].session
          && (db.tokens[h].consumed.Some? ==> db'.tokens[h] == db.tokens[h]))
  }

  ghost predicate Evolves(db: Db, db': Db) {
    db.now <= db'.now && TasksEvolve(db, db') && SessionsEvolve(db, db')
  }

  lemma EvolvesTrans(a: Db, b: Db, c: Db)
    requires Evolves(a, b) && Evolves(b, c)
    ensures Evolves(a, c)
  {
  }

  /** Anything that writes one non-terminal row, any job and any lease, but grants no old token. */
  lemma EvolvesPut(db: Db, tid: TaskId, t: Task, j: Job, leases: map<TaskId, OriginLease>)
    requires tid in db.tasks ==> !IsTerminal(db.tasks[tid].state)
    requires t.lease == None || (tid in db.tasks && t.lease == db.tasks[tid].lease)
    ensures Evolves(db, PutTask(db, tid, t, j).(leases := leases))
  {
  }

  lemma EvolvesSweep(db: Db, ids: set<TaskId>, s: TaskState, clear: bool, jobs: map<JobId, Job>)
    requires forall t :: t in ids && t in db.tasks ==> IsQueued(db.tasks[t].state)
    ensures Evolves(db, db.(tasks := Bulk(db.tasks, ids, s, clear), jobs := jobs))
  {
  }

  lemma EvolvesJobs(db: Db, jobs: map<JobId, Job>)
    ensures Evolves(db, db.(jobs := jobs))
  {
  }

  lemma EvolvesDrain(db: Db, jid: JobId)
    requires jid in db.jobs
    ensures Evolves(db, Drain(db, jid))
  {
    EvolvesSweep(db, QueuedIds(db.tasks, jid), PermanentFailed, true, Drain(db, jid).jobs);
  }

  lemma EvolvesTerminalize(db: Db, tid: TaskId, s: TaskState)
    requires Refs(db) && tid in db.tasks && db.tasks[tid].state.Leased?
    ensures Evolves(db, Terminalize(db, tid, s))
  {
    hide Evolves;
    hide Drain;
    var t := db.tasks[tid];
    var t' := Unleased(t, s);
    var j := Release(db.jobs[t.job], t);
    var j' := j.(terminal := j.terminal + 1,
                 failed := j.failed + if s.PermanentFailed? then 1 else 0,
                 state := if j.cancelRequested && !HasLeased(db.tasks[tid := t'], t.job) then JobCancelled else j.state);
    var mid := PutTask(db, tid, t', j').(leases := DropLease(db.leases, tid, t.lease));
    EvolvesPut(db, tid, t', j', mid.leases);
    if s.PermanentFailed? && j'.failed >= j'.maxFailures {
      EvolvesDrain(mid, t.job);
      EvolvesTrans(db, mid, Drain(mid, t.job));
    }
  }

  /** The shared failure path of complete, retry and fail. */
  lemma EvolvesFailure(db: Db, tid: TaskId, downloaded: nat)
    requires Refs(db) && tid in db.tasks && db.tasks[tid].state.Leased?
    ensures var mid := Terminalize(db, tid, PermanentFailed);
            && db.tasks[tid].job in mid.jobs
            && Evolves(db, Charge(mid, db.tasks[tid].job, downloaded))
            && Evolves(db, Drain(Charge(mid, db.tasks[tid].job, downloaded), db.tasks[tid].job))
  {
    hide Evolves;
    var jid, mid := db.tasks[tid].job, Terminalize(db, tid, PermanentFailed);
    TerminalizeKeepsJobs(db, tid, PermanentFailed);
    hide Terminalize;
    EvolvesTerminalize(db, tid, PermanentFailed);
    var charged := Charge(mid, jid, downloaded);
    EvolvesJobs(mid, charged.jobs);
    EvolvesTrans(db, mid, charged);
    EvolvesDrain(charged, jid);
    EvolvesTrans(db, charged, Drain(charged, jid));
  }

  lemma TerminalizeKeepsJobs(db: Db, tid: TaskId, s: TaskState)
    requires Refs(db) && tid in db.tasks
    ensures db.tasks[tid].job in Terminalize(db, tid, s).jobs
  {
  }

  lemma {:induction false} EvolvesInsert(db: Db, parent: Task, found: seq<Found>)
    requires parent.job in db.jobs
    ensures Evolves(db, InsertFound(db, parent, found))
    decreases |found|
  {
    hide Evolves;
    EvolvesJobs(db, db.jobs);
    var j := db.jobs[parent.job];
    if found != [] && j.discovered < j.maxPages {
      if found[0].id in db.tasks {
        EvolvesInsert(db, parent, found[1..]);
      } else {
        var t := NewTask(parent.job, parent.origin, found[0].responseCap, db.now, parent.maxAttempts);
        var mid := PutTask(db, found[0].id, t, j.(discovered := j.discovered + 1));
        EvolvesPut(db, found[0].id, t, j.(discovered := j.discovered + 1), db.leases);
        EvolvesInsert(mid, parent, found[1..]);
        EvolvesTrans(db, mid, InsertFound(mid, parent, found[1..]));
      }
    }
  }

  lemma EvolvesGrant(db: Db, tid: TaskId, worker: Worker, token: LeaseToken, attempts: nat)
    requires Refs(db) && tid in db.tasks && IsQueued(db.tasks[tid].state) && token !in db.issued
    requires ByteAllowance(db.jobs[db.tasks[tid].job], db.tasks[tid]) > 0
    requires ArtifactAllowance(db.jobs[db.tasks[tid].job]) > 0
    ensures Evolves(db, Grant(db, tid, worker, token, attempts))
  {
  }

  lemma {:induction false} EvolvesSetSession(db: Db, sid: SessionId, state: SessionState)
    requires sid in db.sessions && IsOpen(db.sessions[sid].state) && Rank(db.sessions[sid].state) <= Rank(state)
    ensures Evolves(db, SetSession(db, sid, state))
  {
  }

  lemma {:induction false} EvolvesExpire(db: Db, rows: seq<SessionId>)
    requires Inv(db)
    ensures Evolves(db, ExpireDue(db, rows))
    decreases |rows|
  {
    hide Evolves;
    hide Inv;
    InvParts(db);
    EvolvesJobs(db, db.jobs);
    if rows != [] {
      var sid, mid := rows[0], ExpireOne(db, rows[0]);
      if Due(db, sid) {
        EvolvesSetSession(db, sid, Expired);
        var first := SetSession(db, sid, Expired);
        var tid := db.sessions[sid].task;
        if db.tasks[tid].state.WaitingInput? {
          EvolvesPut(first, tid, mid.tasks[tid], mid.jobs[db.tasks[tid].job], first.leases);
          EvolvesTrans(db, first, mid);
        }
      }
      ExpireOneKeeps(db, sid);
      InvParts(mid);
      EvolvesExpire(mid, rows[1..]);
      EvolvesTrans(db, mid, ExpireDue(mid, rows[1..]));
    }
  }

  lemma EvolvesFenced(db: Db, step: Step)
    requires Inv(db) && Refs(db)
    requires step.DoComplete? || step.DoRetry? || step.DoFail? || step.DoBlockRobots? || step.DoHeartbeat? || step.DoReap?
    ensures Evolves(db, Apply(db, step))
  {
    hide Evolves;
    hide Inv;
    hide Terminalize;
    hide Drain;
    hide InsertFound;
    EvolvesJobs(db, db.jobs);
    var tid := step.tid;
    if tid in db.tasks && db.tasks[tid].state.Leased? {
      var t := db.tasks[tid];
      forall s
        ensures Evolves(db, Terminalize(db, tid, s))
      {
        EvolvesTerminalize(db, tid, s);
      }
      var reported := if step.DoComplete? || step.DoRetry? || step.DoFail? then step.reported else 0;
      var downloaded := ActualBytes(t, reported);
      EvolvesFailure(db, tid, downloaded);
      var at := if step.DoRetry? then step.at else db.now;
      EvolvesRequeue(db, tid, at, if step.DoReap? then 0 else downloaded);
      EvolvesPut(db, tid, t.(leaseExpires := db.now + LEASE_SECONDS), db.jobs[t.job], db.leases);
      if step.DoComplete? {
        var done := Succeed(db, tid, downloaded, step.artifactBytes);
        EvolvesPut(db, tid, done.tasks[tid], done.jobs[t.job], done.leases);
        EvolvesInsert(done, t, step.found);
        EvolvesTrans(db, done, InsertFound(done, t, step.found));
      }
    }
  }

  lemma EvolvesRequeue(db: Db, tid: TaskId, at: int, downloaded: nat)
    requires Refs(db) && tid in db.tasks && db.tasks[tid].state.Leased?
    ensures Evolves(db, Requeue(db, tid, at, downloaded))
  {
    var db' := Requeue(db, tid, at, downloaded);
    EvolvesPut(db, tid, db'.tasks[tid], db'.jobs[db.tasks[tid].job], db'.leases);
  }

  lemma EvolvesClose(db: Db, sid: SessionId, reason: Reason, closer: Option<Worker>)
    requires Refs(db)
    ensures Evolves(db, Close(db, sid, reason, closer).0)
  {
    hide Evolves;
    EvolvesJobs(db, db.jobs);
    if sid in db.sessions && IsOpen(db.sessions[sid].state) {
      var tid := db.sessions[sid].task;
      var mid := if CloseTerminalizes(db.tasks[tid], reason, closer) then CloseTask(db, tid, reason) else db;
      if mid != db {
        EvolvesPut(db, tid, mid.tasks[tid], mid.jobs[db.tasks[tid].job], mid.leases);
      }
      EvolvesSetSession(db, sid, Closed);
      var state := if reason.ByCancel? then SessionCancelled else Expired;
      EvolvesSetSession(mid, sid, state);
      EvolvesTrans(db, mid, SetSession(mid, sid, state));
    }
  }

  lemma EvolvesParked(db: Db, tid: TaskId, token: LeaseToken, worker: Worker, sid: SessionId, ttl: int)
    requires Refs(db)
    ensures Evolves(db, WaitForInput(db, tid, token, worker, sid, ttl).0)
  {
  }

  lemma EvolvesSubmit(db: Db, jid: JobId, tid: TaskId, sub: Submission)
    ensures Evolves(db, Submit(db, jid, tid, sub))
  {
  }

  lemma EvolvesCancel(db: Db, jid: JobId)
    ensures Evolves(db, RequestCancel(db, jid)) && Evolves(db, Finalize(db, jid))
  {
    hide Evolves;
    hide Bulk;
    hide Verdict;
    hide HasLeased;
    hide HasNonterminal;
    hide CountState;
    EvolvesJobs(db, db.jobs);
    if jid in db.jobs && !IsFinished(db.jobs[jid].state) {
      var cancelled, finalized := RequestCancel(db, jid), Finalize(db, jid);
      var ids := QueuedIds(db.tasks, jid);
      EvolvesSweep(db, ids, Cancelled, false, cancelled.jobs);
      var mid := db.(tasks := cancelled.tasks, jobs := cancelled.jobs);
      EvolvesClosing(mid, ids);
      EvolvesTrans(db, mid, cancelled);
      EvolvesSweep(db, if db.jobs[jid].deadline <= db.now then ids else {}, Cancelled, false, finalized.jobs);
    }
  }

  lemma EvolvesClosing(db: Db, ids: set<TaskId>)
    ensures Evolves(db, db.(sessions := map s | s in db.sessions ::
                                          if db.sessions[s].task in ids && IsOpen(db.sessions[s].state)
                                          then db.sessions[s].(state := SessionCancelled) else db.sessions[s]))
  {
  }

  lemma EvolvesTokens(db: Db, sid: SessionId, scope: Scope, ttl: int, hash: TokenHash)
    requires Refs(db)
    ensures Evolves(db, IssueToken(db, sid, scope, ttl, hash).0) && Evolves(db, ConsumeToken(db, sid, scope, hash).0)
  {
    hide TasksEvolve;
    EvolvesJobs(db, db.jobs);
    SameTasksEvolve(db, IssueToken(db, sid, scope, ttl, hash).0);
    SameTasksEvolve(db, ConsumeToken(db, sid, scope, hash).0);
  }

  lemma SameTasksEvolve(db: Db, db': Db)
    requires db'.tasks == db.tasks && db'.issued == db.issued
    ensures TasksEvolve(db, db')
  {
  }

  lemma EvolvesAttach(db: Db, sid: SessionId)
    requires Refs(db)
    ensures Evolves(db, Touch(db, sid).0) && Evolves(db, RequestResume(db, sid).0) && Evolves(db, CloseCompleted(db, sid).0)
  {
    hide Evolves;
    EvolvesJobs(db, db.jobs);
    if sid in db.sessions && IsOpen(db.sessions[sid].state) {
      EvolvesSetSession(db, sid, Closed);
      if Attachable(db, sid) {
        EvolvesSetSession(db, sid, Connected);
        EvolvesSetSession(db, sid, Resuming);
      }
    }
  }

  /** Every transaction moves the database forward. */
  lemma {:induction false} StepEvolves(db: Db, step: Step)
    requires Inv(db) && Refs(db)
    ensures Evolves(db, Apply(db, step))
  {
    hide Evolves;
    hide Inv;
    hide Drain;
    hide Grant;
    EvolvesJobs(db, db.jobs);
    match step
    case DoSubmit(jid, tid, sub) => EvolvesSubmit(db, jid, tid, sub);
    case DoClaim(tid, worker, token) =>
      if Claim(db, tid, worker, token) != db {
        var t := db.tasks[tid];
        EvolvesDrain(db, t.job);
        if ByteAllowance(db.jobs[t.job], t) > 0 && ArtifactAllowance(db.jobs[t.job]) > 0 {
          EvolvesGrant(db, tid, worker, token, t.attempts + 1);
        }
      }
    case DoRequestCancel(jid) => EvolvesCancel(db, jid);
    case DoFinalize(jid) => EvolvesCancel(db, jid);
    case DoWaitForInput(tid, token, worker, sid, ttl) => EvolvesParked(db, tid, token, worker, sid, ttl);
    case DoIssueToken(sid, scope, ttl, hash) => EvolvesTokens(db, sid, scope, ttl, hash);
    case DoConsumeToken(sid, scope, hash) => EvolvesTokens(db, sid, scope, 0, hash);
    case DoTouch(sid) => EvolvesAttach(db, sid);
    case DoRequestResume(sid) => EvolvesAttach(db, sid);
    case DoResumeClaim(sid, worker, token) =>
      if ResumeClaim(db, sid, worker, token) != db {
        EvolvesGrant(db, db.sessions[sid].task, worker, token, db.tasks[db.sessions[sid].task].attempts);
      }
    case DoClose(sid, reason, closer) => EvolvesClose(db, sid, reason, closer);
    case DoCloseCompleted(sid) => EvolvesAttach(db, sid);
    case DoExpireDue(rows) => EvolvesExpire(db, rows);
    case Tick(seconds) => EvolvesTick(db, seconds);
    case _ => EvolvesFenced(db, step);
  }

  lemma EvolvesTick(db: Db, seconds: nat)
    ensures Evolves(db, db.(now := db.now + seconds))
  {
  }

  /** Every run moves the database forward. */
  lemma {:induction false} RunEvolves(db: Db, steps: seq<Step>)
    requires Inv(db)
    ensures Evolves(db, Run(db, steps))
    decreases |steps|
  {
    hide Evolves;
    hide Inv;
    InvParts(db);
    EvolvesJobs(db, db.jobs);
    if steps != [] {
      StepEvolves(db, steps[0]);
      RunEvolves(Next(db, steps[0]), steps[1..]);
      EvolvesTrans(db, Next(db, steps[0]), Run(Next(db, steps[0]), steps[1..]));
    }
  }

  // ---- what the runs guarantee ----------------------------------------------------------

  /** A lost lease stays lost: its token can never again complete, retry, fail, extend or park anything. */
  lemma {:induction false} StaleLeaseIsPowerless(db: Db, steps: seq<Step>, tid: TaskId, token: LeaseToken)
    requires Inv(db) && token in db.issued && !Holds(db.tasks, tid, token)
    ensures var db' := Run(db, steps);
            && (forall reported, artifactBytes, found ::
                  Complete(db', tid, token, reported, artifactBytes, found) == (db', false))
            && (forall at, reported :: Retry(db', tid, token, at, reported) == (db', false))
            && (forall reported :: Fail(db', tid, token, reported) == (db', false))
            && BlockRobots(db', tid, token) == (db', false) && Heartbeat(db', tid, token) == (db', false)
            && (forall worker, sid, ttl :: WaitForInput(db', tid, token, worker, sid, ttl) == (db', false))
  {
    RunEvolves(db, steps);
    var db' := Run(db, steps);
    assert !Fenced(db', tid, token) by {
      assert !Holds(db'.tasks, tid, token);
    }
  }

  /**
    A token is consumed at most once, and strictly before its own expiry, which is bounded by the
    session's and the job deadline.
   */
  lemma {:induction false} TokenConsumedOnce(db: Db, steps: seq<Step>, sid: SessionId, scope: Scope, hash: TokenHash)
    requires Inv(db) && ConsumeToken(db, sid, scope, hash).1
    ensures Inv(ConsumeToken(db, sid, scope, hash).0)
    ensures forall sid', scope' ::
              !ConsumeToken(Run(ConsumeToken(db, sid, scope, hash).0, steps), sid', scope', hash).1
    ensures Refs(db) && sid in db.sessions
    ensures db.now < db.tokens[hash].expires <= db.sessions[sid].expires
            <= db.jobs[db.tasks[db.sessions[sid].task].job].deadline
  {
    hide Inv;
    hide Run;
    hide SessionsOk;
    hide TasksEvolve;
    InvParts(db);
    SessionParts(db);
    SessionDeadline(db, sid);
    TokensKeep(db, sid, scope, 0, hash);
    var mid := ConsumeToken(db, sid, scope, hash).0;
    RunEvolves(mid, steps);
    assert Run(mid, steps).tokens[hash] == mid.tokens[hash];
  }

  lemma SessionDeadline(db: Db, sid: SessionId)
    requires Refs(db) && SessionsOk(db)
    ensures sid in db.sessions ==> db.sessions[sid].expires <= db.jobs[db.tasks[db.sessions[sid].task].job].deadline
  {
  }

  /** Once complete_task has succeeded, close_completed is legal for the rest of the run. */
  lemma {:induction false} CompletionLegitimisesClose(db: Db, steps: seq<Step>, sid: SessionId, token: LeaseToken,
                                                      reported: int, artifactBytes: nat, found: seq<Found>)
    requires Inv(db) && Refs(db) && sid in db.sessions
    requires Complete(db, db.sessions[sid].task, token, reported, artifactBytes, found).1
    ensures var done := Complete(db, db.sessions[sid].task, token, reported, artifactBytes, found).0;
            Inv(done) && Refs(Run(done, steps)) && Legal(Run(done, steps), DoCloseCompleted(sid))
  {
    hide Inv;
    var tid := db.sessions[sid].task;
    var done := Complete(db, tid, token, reported, artifactBytes, found).0;
    CompleteKeeps(db, tid, token, reported, artifactBytes, found);
    CompletedIsSucceeded(db, tid, token, reported, artifactBytes, found);
    RunEvolves(done, steps);
    StepEvolves(db, DoComplete(tid, token, reported, artifactBytes, found));
    InvParts(Run(done, steps));
  }

  lemma CompletedIsSucceeded(db: Db, tid: TaskId, token: LeaseToken, reported: int, artifactBytes: nat, found: seq<Found>)
    requires Refs(db) && Complete(db, tid, token, reported, artifactBytes, found).1
    ensures var done := Complete(db, tid, token, reported, artifactBytes, found).0;
            tid in done.tasks && done.tasks[tid].state.Succeeded?
  {
    var t := db.tasks[tid];
    EvolvesInsert(Succeed(db, tid, ActualBytes(t, reported), artifactBytes), t, found);
  }

  /** At no point of any run of a new database do two leased tasks share an origin or a lease token. */
  lemma OneLeasePerOrigin(now: int, steps: seq<Step>, t: TaskId, u: TaskId)
    ensures var db := Run(EmptyDb(now), steps);
            t != u && t in db.tasks && u in db.tasks && db.tasks[t].state.Leased? && db.tasks[u].state.Leased? ==>
              db.tasks[t].origin != db.tasks[u].origin && db.tasks[t].lease != db.tasks[u].lease
  {
    hide CountersOk;
    hide Run;
    hide EmptyDb;
    assert LeasesOk(Run(EmptyDb(now), steps));
  }

  function RowsIn(tasks: map<TaskId, Task>, jid: JobId, states: set<TaskState>): set<TaskId> {
    set t | t in tasks && tasks[t].job == jid && tasks[t].state in states
  }

  const TERMINAL_STATES: set<TaskState> := {Succeeded, BlockedRobots, PermanentFailed, Cancelled}

  lemma RowsRemove(tasks: map<TaskId, Task>, jid: JobId, states: set<TaskState>, k: TaskId)
    requires k in tasks
    ensures |RowsIn(tasks, jid, states)| ==
            |RowsIn(tasks - {k}, jid, states)| + if tasks[k].job == jid && tasks[k].state in states then 1 else 0
  {
    var rest := RowsIn(tasks - {k}, jid, states);
    assert k !in rest && forall t :: t in rest ==> t in tasks && (tasks - {k})[t] == tasks[t];
    if tasks[k].job == jid && tasks[k].state in states {
      assert RowsIn(tasks, jid, states) == rest + {k};
    } else {
      assert RowsIn(tasks, jid, states) == rest;
    }
  }

  lemma {:induction false} TotalIsCount(jid: JobId, tasks: map<TaskId, Task>)
    ensures Total(TerminalTasks, jid, tasks) == |RowsIn(tasks, jid, TERMINAL_STATES)|
    ensures Total(FailedTasks, jid, tasks) == |RowsIn(tasks, jid, {PermanentFailed})|
    ensures Total(SucceededTasks, jid, tasks) == |RowsIn(tasks, jid, {Succeeded})|
    decreases tasks.Keys
  {
    if tasks != map[] {
      var k :| k in tasks;
      TotalIsCount(jid, tasks - {k});
      TotalRemove(TerminalTasks, jid, tasks, k);
      TotalRemove(FailedTasks, jid, tasks, k);
      TotalRemove(SucceededTasks, jid, tasks, k);
      RowsRemove(tasks, jid, TERMINAL_STATES, k);
      RowsRemove(tasks, jid, {PermanentFailed}, k);
      RowsRemove(tasks, jid, {Succeeded}, k);
    }
  }

  lemma JobTruth(db: Db, jid: JobId)
    requires Inv(db) && jid in db.jobs
    ensures JobOk(db.jobs[jid]) && forall m :: Counter(m, db.jobs[jid]) == Total(m, jid, db.tasks)
  {
    hide LeasesOk;
    hide Total;
  }

  /**
    At any point of any run every terminal task is counted exactly once, failures only for tasks
    that failed, and the reserved bytes are the sum over leased tasks; no budget is overspent.
   */
  lemma {:induction false} CountersTellTheTruth(db: Db, steps: seq<Step>, jid: JobId)
    requires Inv(db) && jid in Run(db, steps).jobs
    ensures var db' := Run(db, steps);
            var j := db'.jobs[jid];
            && j.terminal == |RowsIn(db'.tasks, jid, TERMINAL_STATES)|
            && j.failed == |RowsIn(db'.tasks, jid, {PermanentFailed})|
            && j.succeeded == |RowsIn(db'.tasks, jid, {Succeeded})|
            && j.reserved == Total(ReservedBytes, jid, db'.tasks)
            && j.reservedArtifacts == Total(ReservedArtifacts, jid, db'.tasks)
            && j.downloaded + j.reserved <= j.maxBytes && j.artifacts + j.reservedArtifacts <= j.maxArtifacts
            && j.discovered <= j.maxPages
  {
    hide Inv;
    hide Run;
    hide Total;
    var db' := Run(db, steps);
    TotalIsCount(jid, db'.tasks);
    JobTruth(db', jid);
    assert Counter(TerminalTasks, db'.jobs[jid]) == db'.jobs[jid].terminal;
    assert Counter(FailedTasks, db'.jobs[jid]) == db'.jobs[jid].failed;
    assert Counter(SucceededTasks, db'.jobs[jid]) == db'.jobs[jid].succeeded;
    assert Counter(ReservedBytes, db'.jobs[jid]) == db'.jobs[jid].reserved;
    assert Counter(ReservedArtifacts, db'.jobs[jid]) == db'.jobs[jid].reservedArtifacts;
  }

  /** No run strands a parked task, and what is terminal stays as it is. */
  lemma {:induction false} NoRunStrands(db: Db, steps: seq<Step>, tid: TaskId)
    requires Inv(db)
    ensures var db' := Run(db, steps);
            && (tid in db'.tasks && db'.tasks[tid].state.WaitingInput? ==> HasOpenSession(db', tid))
            && (tid in db.tasks && IsTerminal(db.tasks[tid].state) ==>
                  tid in db'.tasks && db'.tasks[tid].state == db.tasks[tid].state)
  {
    hide CountersOk;
    hide LeasesOk;
    RunEvolves(db, steps);
  }
}
