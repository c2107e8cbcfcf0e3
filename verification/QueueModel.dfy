/**
  The durable crawl queue and its live human sessions: rows of jobs, tasks, sessions, one-use
  tokens and origin leases, and the transactions that move them together
  (app/acquisition/sessions.py and the lease transactions of app/crawl/repository.py).
  Each function below is one committed transaction.
 */
module QueueModel {

  datatype Option<+T> = None | Some(value: T)

  type TaskId = nat
  type JobId = nat
  type SessionId = nat
  type LeaseToken = nat
  type TokenHash = nat
  type Worker = string
  type Origin = string

  const LEASE_SECONDS := 120
  const INLINE_ARTIFACT_CAP := 30 * 1024 * 1024

  datatype TaskState =
    | Pending | Leased | RetryWait | WaitingInput
    | Succeeded | BlockedRobots | PermanentFailed | Cancelled

  predicate IsTerminal(s: TaskState) { s.Succeeded? || s.BlockedRobots? || s.PermanentFailed? || s.Cancelled? }

  /** Neither leased nor terminal: what cancellation, deadlines and hard stops sweep up. */
  predicate IsQueued(s: TaskState) { s.Pending? || s.RetryWait? || s.WaitingInput? }

  datatype Task = Task(job: JobId, origin: Origin, responseCap: nat, state: TaskState,
                       owner: Option<Worker>, lease: Option<LeaseToken>, leaseExpires: int,
                       availableAt: int, attempts: nat, maxAttempts: nat, bytes: nat, artifacts: nat)

  datatype JobState = JobPending | JobRunning | JobCompleted | JobPartial | JobFailed | JobCancelled | JobTimedOut

  predicate IsFinished(s: JobState) { !s.JobPending? && !s.JobRunning? }

  datatype Job = Job(state: JobState, deadline: int, cancelRequested: bool,
                     maxPages: nat, maxBytes: nat, maxArtifacts: nat, maxFailures: int,
                     discovered: nat, terminal: nat, succeeded: nat, failed: nat,
                     downloaded: nat, reserved: nat, artifacts: nat, reservedArtifacts: nat)

  datatype SessionState = Starting | Waiting | Connected | Resuming | Closed | Expired | SessionCancelled

  predicate IsOpen(s: SessionState) { s.Starting? || s.Waiting? || s.Connected? || s.Resuming? }

  datatype Session = Session(task: TaskId, remote: Option<Worker>, state: SessionState, expires: int)

  datatype Scope = View | Control | WorkerScope

  datatype TokenRow = TokenRow(session: SessionId, scope: Scope, expires: int, consumed: Option<int>)

  datatype OriginLease = OriginLease(origin: Origin, token: LeaseToken)

  /** `issued` is the history of lease tokens handed out; uuid4 never repeats one. */
  datatype Db = Db(now: int, tasks: map<TaskId, Task>, jobs: map<JobId, Job>,
                   sessions: map<SessionId, Session>, tokens: map<TokenHash, TokenRow>,
                   leases: map<TaskId, OriginLease>, issued: set<LeaseToken>)

  /** Foreign keys. */
  predicate Refs(db: Db) {
    && (forall t :: t in db.tasks ==> db.tasks[t].job in db.jobs)
    && (forall s :: s in db.sessions ==> db.sessions[s].task in db.tasks)
    && (forall h :: h in db.tokens ==> db.tokens[h].session in db.sessions)
  }

  function Min(a: int, b: int): int { if a < b then a else b }

  /** GREATEST(0, x) */
  function Clamp(x: int): nat { if x < 0 then 0 else x }

  function Unleased(t: Task, s: TaskState): Task {
    t.(state := s, owner := None, lease := None, bytes := 0, artifacts := 0)
  }

  function Release(j: Job, t: Task): Job {
    j.(reserved := Clamp(j.reserved - t.bytes), reservedArtifacts := Clamp(j.reservedArtifacts - t.artifacts))
  }

  function PutTask(db: Db, tid: TaskId, t: Task, j: Job): Db {
    db.(tasks := db.tasks[tid := t], jobs := db.jobs[t.job := j])
  }

  /** DELETE FROM crawl_origin_leases WHERE task_id = tid AND lease_token = token */
  function DropLease(leases: map<TaskId, OriginLease>, tid: TaskId, token: Option<LeaseToken>): map<TaskId, OriginLease> {
    if tid in leases && Some(leases[tid].token) == token then leases - {tid} else leases
  }

  predicate HasLeased(tasks: map<TaskId, Task>, jid: JobId) {
    exists t :: t in tasks && tasks[t].job == jid && tasks[t].state.Leased?
  }

  predicate HasNonterminal(tasks: map<TaskId, Task>, jid: JobId) {
    exists t :: t in tasks && tasks[t].job == jid && !IsTerminal(tasks[t].state)
  }

  function QueuedIds(tasks: map<TaskId, Task>, jid: JobId): set<TaskId> {
    set t | t in tasks && tasks[t].job == jid && IsQueued(tasks[t].state)
  }

  /** One bulk UPDATE of the given rows; a hard stop also clears the lease columns. */
  function Bulk(tasks: map<TaskId, Task>, ids: set<TaskId>, s: TaskState, clear: bool): map<TaskId, Task> {
    map t | t in tasks :: if t in ids then (if clear then Unleased(tasks[t], s) else tasks[t].(state := s)) else tasks[t]
  }

  function Drain(db: Db, jid: JobId): Db
    requires jid in db.jobs
  {
    var ids, j := QueuedIds(db.tasks, jid), db.jobs[jid];
    db.(tasks := Bulk(db.tasks, ids, PermanentFailed, true),
        jobs := db.jobs[jid := j.(terminal := j.terminal + |ids|, failed := j.failed + |ids|)])
  }

  function Terminalize(db: Db, tid: TaskId, s: TaskState): Db
    requires Refs(db) && tid in db.tasks
  {
    var t := db.tasks[tid];
    var t' := Unleased(t, s);
    var j := Release(db.jobs[t.job], t);
    var j' := j.(terminal := j.terminal + 1,
                 failed := j.failed + if s.PermanentFailed? then 1 else 0,
                 state := if j.cancelRequested && !HasLeased(db.tasks[tid := t'], t.job) then JobCancelled else j.state);
    var db' := PutTask(db, tid, t', j').(leases := DropLease(db.leases, tid, t.lease));
    if s.PermanentFailed? && j'.failed >= j'.maxFailures then Drain(db', t.job) else db'
  }

  predicate Fenced(db: Db, tid: TaskId, token: LeaseToken) {
    tid in db.tasks && db.tasks[tid].state.Leased? && db.tasks[tid].lease == Some(token)
  }

  /** The state a still-fenced task is forced into by cancellation or the deadline, if any. */
  function InactiveState(db: Db, tid: TaskId): Option<TaskState>
    requires Refs(db) && tid in db.tasks
  {
    var j := db.jobs[db.tasks[tid].job];
    if j.cancelRequested then Some(Cancelled)
    else if j.deadline <= db.now then Some(PermanentFailed)
    else None
  }

  function ActualBytes(t: Task, reported: int): nat { Min(t.bytes, Clamp(reported)) }

  function Charge(db: Db, jid: JobId, downloaded: nat): Db
    requires jid in db.jobs
  {
    db.(jobs := db.jobs[jid := db.jobs[jid].(downloaded := db.jobs[jid].downloaded + downloaded)])
  }

  datatype Submission = Submission(deadline: int, maxPages: nat, maxBytes: nat, maxArtifacts: nat,
                                   maxFailures: int, origin: Origin, responseCap: nat, maxAttempts: nat)

  function NewTask(jid: JobId, origin: Origin, cap: nat, now: int, maxAttempts: nat): Task {
    Task(jid, origin, cap, Pending, None, None, 0, now, 0, maxAttempts, 0, 0)
  }

  function Submit(db: Db, jid: JobId, tid: TaskId, s: Submission): Db {
    if jid in db.jobs || tid in db.tasks || s.maxPages == 0 then db
    else db.(jobs := db.jobs[jid := Job(JobPending, s.deadline, false, s.maxPages, s.maxBytes, s.maxArtifacts,
                                        s.maxFailures, 1, 0, 0, 0, 0, 0, 0, 0)],
             tasks := db.tasks[tid := NewTask(jid, s.origin, s.responseCap, db.now, s.maxAttempts)])
  }

  predicate OriginBusy(db: Db, origin: Origin) {
    exists t :: t in db.leases && db.leases[t].origin == origin
  }

  function ByteAllowance(j: Job, t: Task): int { Min(j.maxBytes - j.downloaded - j.reserved, t.responseCap) }

  function ArtifactAllowance(j: Job): int {
    Min(j.maxArtifacts - j.artifacts - j.reservedArtifacts, INLINE_ARTIFACT_CAP)
  }

  /** Reserve the allowances and lease the task under a fresh token. */
  function Grant(db: Db, tid: TaskId, worker: Worker, token: LeaseToken, attempts: nat): Db
    requires Refs(db) && tid in db.tasks
    requires ByteAllowance(db.jobs[db.tasks[tid].job], db.tasks[tid]) > 0
    requires ArtifactAllowance(db.jobs[db.tasks[tid].job]) > 0
  {
    var t := db.tasks[tid];
    var j := db.jobs[t.job];
    var bytes, artifacts := ByteAllowance(j, t), ArtifactAllowance(j);
    var t' := t.(state := Leased, owner := Some(worker), lease := Some(token), leaseExpires := db.now + LEASE_SECONDS,
                 attempts := attempts, bytes := bytes, artifacts := artifacts);
    var j' := j.(reserved := j.reserved + bytes, reservedArtifacts := j.reservedArtifacts + artifacts,
                 state := if j.state.JobPending? then JobRunning else j.state);
    PutTask(db, tid, t', j').(leases := db.leases[tid := OriginLease(t.origin, token)], issued := db.issued + {token})
  }

  function Claim(db: Db, tid: TaskId, worker: Worker, token: LeaseToken): Db
    requires Refs(db)
  {
    if tid !in db.tasks || token in db.issued then db
    else
      var t := db.tasks[tid];
      var j := db.jobs[t.job];
      if !(t.state.Pending? || t.state.RetryWait?) || t.availableAt > db.now || j.cancelRequested
         || j.deadline <= db.now || OriginBusy(db, t.origin) then db
      else if ByteAllowance(j, t) <= 0 || ArtifactAllowance(j) <= 0 then Drain(db, t.job)
      else Grant(db, tid, worker, token, t.attempts + 1)
  }

  /** resume_live_session: re-fence a parked task for its own resuming session. */
  function ResumeClaim(db: Db, sid: SessionId, worker: Worker, token: LeaseToken): Db
    requires Refs(db)
  {
    if sid !in db.sessions || token in db.issued then db
    else
      var s := db.sessions[sid];
      var t := db.tasks[s.task];
      var j := db.jobs[t.job];
      if s.remote != None || !s.state.Resuming? || s.expires <= db.now || !t.state.WaitingInput?
         || j.cancelRequested || j.deadline <= db.now || OriginBusy(db, t.origin)
         || ByteAllowance(j, t) <= 0 || ArtifactAllowance(j) <= 0 then db
      else Grant(db, s.task, worker, token, t.attempts)
  }

  datatype Found = Found(id: TaskId, responseCap: nat)

  /** Same-origin links of a completed page, up to the page budget; known URLs are skipped. */
  function InsertFound(db: Db, parent: Task, found: seq<Found>): Db
    requires parent.job in db.jobs
    decreases |found|
  {
    var j := db.jobs[parent.job];
    if found == [] || j.discovered >= j.maxPages then db
    else if found[0].id in db.tasks then InsertFound(db, parent, found[1..])
    else
      var t := NewTask(parent.job, parent.origin, found[0].responseCap, db.now, parent.maxAttempts);
      InsertFound(PutTask(db, found[0].id, t, j.(discovered := j.discovered + 1)), parent, found[1..])
  }

  /** The success branch: the reservation is released and the real usage charged. */
  function Succeed(db: Db, tid: TaskId, downloaded: nat, artifactBytes: nat): Db
    requires Refs(db) && tid in db.tasks
  {
    var t := db.tasks[tid];
    var j := Release(db.jobs[t.job], t);
    PutTask(db, tid, Unleased(t, Succeeded),
            j.(downloaded := j.downloaded + downloaded, artifacts := j.artifacts + artifactBytes,
               terminal := j.terminal + 1, succeeded := j.succeeded + 1))
      .(leases := DropLease(db.leases, tid, t.lease))
  }

  function Complete(db: Db, tid: TaskId, token: LeaseToken, reported: int, artifactBytes: nat, found: seq<Found>): (Db, bool)
    requires Refs(db)
  {
    if !Fenced(db, tid, token) then (db, false)
    else
      var t, forced := db.tasks[tid], InactiveState(db, tid);
      if forced != None then (Terminalize(db, tid, forced.value), false)
      else if Clamp(reported) > t.bytes || artifactBytes > t.artifacts then
        (Drain(Charge(Terminalize(db, tid, PermanentFailed), t.job, ActualBytes(t, reported)), t.job), false)
      else
        (InsertFound(Succeed(db, tid, ActualBytes(t, reported), artifactBytes), t, found), true)
  }

  /** Back to the queue, with the reservation released. */
  function Requeue(db: Db, tid: TaskId, at: int, downloaded: nat): Db
    requires Refs(db) && tid in db.tasks
  {
    var t := db.tasks[tid];
    var j := Release(db.jobs[t.job], t);
    PutTask(db, tid, Unleased(t, RetryWait).(availableAt := at), j.(downloaded := j.downloaded + downloaded))
      .(leases := DropLease(db.leases, tid, t.lease))
  }

  function Retry(db: Db, tid: TaskId, token: LeaseToken, at: int, reported: int): (Db, bool)
    requires Refs(db)
  {
    if !Fenced(db, tid, token) then (db, false)
    else
      var t, forced := db.tasks[tid], InactiveState(db, tid);
      if forced != None then (Terminalize(db, tid, forced.value), false)
      else if t.attempts >= t.maxAttempts then
        (Charge(Terminalize(db, tid, PermanentFailed), t.job, ActualBytes(t, reported)), true)
      else (Requeue(db, tid, at, ActualBytes(t, reported)), true)
  }

  function Fail(db: Db, tid: TaskId, token: LeaseToken, reported: int): (Db, bool)
    requires Refs(db)
  {
    if !Fenced(db, tid, token) then (db, false)
    else
      var t, forced := db.tasks[tid], InactiveState(db, tid);
      if forced != None then (Terminalize(db, tid, forced.value), false)
      else (Charge(Terminalize(db, tid, PermanentFailed), t.job, ActualBytes(t, reported)), true)
  }

  function BlockRobots(db: Db, tid: TaskId, token: LeaseToken): (Db, bool)
    requires Refs(db)
  {
    if !Fenced(db, tid, token) then (db, false)
    else
      var forced := InactiveState(db, tid);
      if forced != None then (Terminalize(db, tid, forced.value), false)
      else (Terminalize(db, tid, BlockedRobots), true)
  }

  function Heartbeat(db: Db, tid: TaskId, token: LeaseToken): (Db, bool)
    requires Refs(db)
  {
    if !Fenced(db, tid, token) then (db, false)
    else
      var t, forced := db.tasks[tid], InactiveState(db, tid);
      if forced != None then (Terminalize(db, tid, forced.value), false)
      else (PutTask(db, tid, t.(leaseExpires := db.now + LEASE_SECONDS), db.jobs[t.job]), tid in db.leases)
  }

  /** One expired lease of reap_expired_leases. */
  function Reap(db: Db, tid: TaskId): Db
    requires Refs(db)
  {
    if tid !in db.tasks || !db.tasks[tid].state.Leased? || db.tasks[tid].leaseExpires > db.now then db
    else
      var t, forced := db.tasks[tid], InactiveState(db, tid);
      if forced != None then Terminalize(db, tid, forced.value)
      else if t.attempts >= t.maxAttempts then Terminalize(db, tid, PermanentFailed)
      else Requeue(db, tid, db.now, 0)
  }

  function RequestCancel(db: Db, jid: JobId): Db {
    if jid !in db.jobs || IsFinished(db.jobs[jid].state) then db
    else
      var ids, j := QueuedIds(db.tasks, jid), db.jobs[jid];
      db.(tasks := Bulk(db.tasks, ids, Cancelled, false),
          sessions := map s | s in db.sessions ::
                        if db.sessions[s].task in ids && IsOpen(db.sessions[s].state)
                        then db.sessions[s].(state := SessionCancelled) else db.sessions[s],
          jobs := db.jobs[jid := j.(cancelRequested := true, terminal := j.terminal + |ids|,
                                    state := if HasLeased(db.tasks, jid) then j.state else JobCancelled)])
  }

  /** The verdict of finalize_jobs on a drained job, from the counts of its tasks. */
  function Verdict(j: Job, expired: bool, succeeded: nat, blocked: nat, failed: nat): JobState {
    if j.cancelRequested then JobCancelled
    else if expired then JobTimedOut
    else if succeeded > 0 || (blocked > 0 && failed == 0) then
      if succeeded > 0 && failed > 0 then JobPartial else JobCompleted
    else JobFailed
  }

  function CountState(tasks: map<TaskId, Task>, jid: JobId, s: TaskState): nat {
    |set t | t in tasks && tasks[t].job == jid && tasks[t].state == s|
  }

  function Finalize(db: Db, jid: JobId): Db {
    if jid !in db.jobs || IsFinished(db.jobs[jid].state) then db
    else
      var j := db.jobs[jid];
      var expired := j.deadline <= db.now;
      var ids := if expired then QueuedIds(db.tasks, jid) else {};
      var tasks := Bulk(db.tasks, ids, Cancelled, false);
      var state := if HasNonterminal(tasks, jid) then j.state
                   else Verdict(j, expired, CountState(tasks, jid, Succeeded), CountState(tasks, jid, BlockedRobots),
                                CountState(tasks, jid, PermanentFailed));
      db.(tasks := tasks, jobs := db.jobs[jid := j.(terminal := j.terminal + |ids|, state := state)])
  }

  // ---- live sessions --------------------------------------------------------------------

  function WaitForInput(db: Db, tid: TaskId, token: LeaseToken, worker: Worker, sid: SessionId, ttl: int): (Db, bool)
    requires Refs(db)
  {
    if !(300 <= ttl <= 3600) || !Fenced(db, tid, token) || db.tasks[tid].owner != Some(worker) then (db, false)
    else
      var t := db.tasks[tid];
      var j := db.jobs[t.job];
      if j.cancelRequested || j.deadline <= db.now || sid in db.sessions
         || (exists s :: s in db.sessions && db.sessions[s].task == tid) then (db, false)
      else
        (PutTask(db, tid, Unleased(t, WaitingInput), Release(j, t))
           .(sessions := db.sessions[sid := Session(tid, None, Waiting, Min(db.now + ttl, j.deadline))],
             leases := DropLease(db.leases, tid, Some(token))), true)
  }

  predicate Attachable(db: Db, sid: SessionId) {
    && sid in db.sessions
    && (db.sessions[sid].state.Waiting? || db.sessions[sid].state.Connected?)
    && db.sessions[sid].expires > db.now
  }

  function IssueToken(db: Db, sid: SessionId, scope: Scope, ttl: int, hash: TokenHash): (Db, bool) {
    if !(1 <= ttl <= 3600) || !Attachable(db, sid) || hash in db.tokens then (db, false)
    else (db.(tokens := db.tokens[hash := TokenRow(sid, scope, Min(db.sessions[sid].expires, db.now + ttl), None)]), true)
  }

  function ConsumeToken(db: Db, sid: SessionId, scope: Scope, hash: TokenHash): (Db, bool) {
    if hash in db.tokens && db.tokens[hash].session == sid && db.tokens[hash].scope == scope
       && db.tokens[hash].consumed == None && db.tokens[hash].expires > db.now
    then (db.(tokens := db.tokens[hash := db.tokens[hash].(consumed := Some(db.now))]), true)
    else (db, false)
  }

  function SetSession(db: Db, sid: SessionId, state: SessionState): Db
    requires sid in db.sessions
  {
    db.(sessions := db.sessions[sid := db.sessions[sid].(state := state)])
  }

  function Touch(db: Db, sid: SessionId): (Db, bool) {
    if Attachable(db, sid) then (SetSession(db, sid, Connected), true) else (db, false)
  }

  function RequestResume(db: Db, sid: SessionId): (Db, bool) {
    if Attachable(db, sid) then (SetSession(db, sid, Resuming), true) else (db, false)
  }

  function CloseCompleted(db: Db, sid: SessionId): (Db, bool) {
    if sid in db.sessions && db.sessions[sid].state.Resuming? then (SetSession(db, sid, Closed), true) else (db, false)
  }

  datatype Reason = ByCancel | ByExpiry

  predicate CloseTerminalizes(t: Task, reason: Reason, worker: Option<Worker>) {
    t.state.WaitingInput? || (t.state.Leased? && (reason.ByCancel? || t.owner == worker))
  }

  function CloseTask(db: Db, tid: TaskId, reason: Reason): Db
    requires Refs(db) && tid in db.tasks
  {
    var t := db.tasks[tid];
    var j := if t.state.Leased? then Release(db.jobs[t.job], t) else db.jobs[t.job];
    PutTask(db, tid, Unleased(t, if reason.ByCancel? then Cancelled else PermanentFailed),
            j.(terminal := j.terminal + 1, failed := j.failed + if reason.ByCancel? then 0 else 1))
      .(leases := if t.state.Leased? then db.leases - {tid} else db.leases)
  }

  function Close(db: Db, sid: SessionId, reason: Reason, worker: Option<Worker>): (Db, bool)
    requires Refs(db)
  {
    if sid !in db.sessions || !IsOpen(db.sessions[sid].state) then (db, false)
    else
      var tid := db.sessions[sid].task;
      if db.tasks[tid].state.Succeeded? then (SetSession(db, sid, Closed), true)
      else
        var db' := if CloseTerminalizes(db.tasks[tid], reason, worker) then CloseTask(db, tid, reason) else db;
        (SetSession(db', sid, if reason.ByCancel? then SessionCancelled else Expired), true)
  }

  predicate Due(db: Db, sid: SessionId) {
    sid in db.sessions && IsOpen(db.sessions[sid].state) && db.sessions[sid].expires <= db.now
  }

  /** One row of expire_due: the reservation is not released, because a parked task holds none. */
  function ExpireOne(db: Db, sid: SessionId): Db
    requires Refs(db)
  {
    if !Due(db, sid) then db
    else
      var tid := db.sessions[sid].task;
      var t := db.tasks[tid];
      var db' := SetSession(db, sid, Expired);
      if !t.state.WaitingInput? then db'
      else
        var j := db.jobs[t.job];
        PutTask(db', tid, t.(state := PermanentFailed), j.(terminal := j.terminal + 1, failed := j.failed + 1))
  }

  function ExpireDue(db: Db, rows: seq<SessionId>): Db
    requires Refs(db)
    decreases |rows|
  {
    if rows == [] then db else ExpireDue(ExpireOne(db, rows[0]), rows[1..])
  }
}
