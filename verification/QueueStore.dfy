/**
  The session transactions as they are written: statements that update the rows of the store in
  place, each committed as one transaction.  Every method is tied to its function in QueueModel.
 */
module QueueStore {
  import opened QueueModel
  import opened QueueInvariant

  class Store {
    var now: int
    var tasks: map<TaskId, Task>
    var jobs: map<JobId, Job>
    var sessions: map<SessionId, Session>
    var tokens: map<TokenHash, TokenRow>
    var leases: map<TaskId, OriginLease>
    ghost var issued: set<LeaseToken>

    /** The rows of the store as one value. */
    ghost function Rows(): Db
      reads this
    {
      Db(now, tasks, jobs, sessions, tokens, leases, issued)
    }

    constructor (time: int)
      ensures Rows() == Db(time, map[], map[], map[], map[], map[], {}) && Inv(Rows())
    {
      now, tasks, jobs, sessions, tokens, leases, issued := time, map[], map[], map[], map[], map[], {};
    }

    method WaitForInputLocal(tid: TaskId, token: LeaseToken, worker: Worker, sid: SessionId, ttl: int) returns (ok: bool)
      requires Inv(Rows())
      modifies this
      ensures (Rows(), ok) == WaitForInput(old(Rows()), tid, token, worker, sid, ttl) && Inv(Rows())
    {
      hide Inv;
      InvParts(Rows());
      WaitForInputKeeps(Rows(), tid, token, worker, sid, ttl);
      if !(300 <= ttl <= 3600) || tid !in tasks {
        return false;
      }
      var t := tasks[tid];
      if !t.state.Leased? || t.lease != Some(token) || t.owner != Some(worker) {
        return false;
      }
      var j := jobs[t.job];
      if j.cancelRequested || j.deadline <= now {
        return false;
      }
      if sid in sessions || (exists s :: s in sessions && sessions[s].task == tid) {
        return false;  // unique constraints of live_sessions: the transaction rolls back
      }
      var expires := Min(now + ttl, j.deadline);
      sessions := sessions[sid := Session(tid, None, Waiting, expires)];
      tasks := tasks[tid := t.(state := WaitingInput, owner := None, lease := None, bytes := 0, artifacts := 0)];
      leases := DropLease(leases, tid, Some(token));
      jobs := jobs[t.job := j.(reserved := Clamp(j.reserved - t.bytes),
                               reservedArtifacts := Clamp(j.reservedArtifacts - t.artifacts))];
      return true;
    }

    method IssueToken(sid: SessionId, scope: Scope, ttl: int, hash: TokenHash) returns (ok: bool)
      requires Inv(Rows())
      modifies this`tokens
      ensures (Rows(), ok) == QueueModel.IssueToken(old(Rows()), sid, scope, ttl, hash) && Inv(Rows())
    {
      hide Inv;
      TokensKeep(Rows(), sid, scope, ttl, hash);
      if !(1 <= ttl <= 3600) || sid !in sessions || hash in tokens {
        return false;
      }
      var s := sessions[sid];
      if !(s.state.Waiting? || s.state.Connected?) || s.expires <= now {
        return false;
      }
      var expires := Min(s.expires, now + ttl);
      tokens := tokens[hash := TokenRow(sid, scope, expires, None)];
      return true;
    }

    method ConsumeToken(sid: SessionId, scope: Scope, hash: TokenHash) returns (ok: bool)
      requires Inv(Rows())
      modifies this`tokens
      ensures (Rows(), ok) == QueueModel.ConsumeToken(old(Rows()), sid, scope, hash) && Inv(Rows())
    {
      hide Inv;
      TokensKeep(Rows(), sid, scope, 0, hash);
      if hash !in tokens {
        return false;
      }
      var row := tokens[hash];
      ok := row.session == sid && row.scope == scope && row.consumed == None && row.expires > now;
      if ok {
        tokens := tokens[hash := row.(consumed := Some(now))];
      }
    }

    method RequestResume(sid: SessionId) returns (ok: bool)
      requires Inv(Rows())
      modifies this`sessions
      ensures (Rows(), ok) == QueueModel.RequestResume(old(Rows()), sid) && Inv(Rows())
    {
      hide Inv;
      AttachKeeps(Rows(), sid);
      ok := Attachable(Db(now, tasks, jobs, sessions, tokens, leases, {}), sid);
      if ok {
        sessions := sessions[sid := sessions[sid].(state := Resuming)];
      }
    }

    method Touch(sid: SessionId) returns (ok: bool)
      requires Inv(Rows())
      modifies this`sessions
      ensures (Rows(), ok) == QueueModel.Touch(old(Rows()), sid) && Inv(Rows())
    {
      hide Inv;
      AttachKeeps(Rows(), sid);
      ok := Attachable(Db(now, tasks, jobs, sessions, tokens, leases, {}), sid);
      if ok {
        sessions := sessions[sid := sessions[sid].(state := Connected)];
      }
    }

    /** Consistency is kept exactly when the session's task is no longer parked. */
    method CloseCompleted(sid: SessionId) returns (ok: bool)
      requires Inv(Rows())
      modifies this`sessions
      ensures (Rows(), ok) == QueueModel.CloseCompleted(old(Rows()), sid)
      ensures Inv(Rows()) <==> !(ok && tasks[sessions[sid].task].state.WaitingInput?)
    {
      hide Inv;
      CloseCompletedKeepsIff(Rows(), sid);
      InvParts(Rows());
      ok := sid in sessions && sessions[sid].state.Resuming?;
      if ok {
        sessions := sessions[sid := sessions[sid].(state := Closed)];
      }
    }

    /** The task half of close: give back what a leased task holds, then terminalise and count it. */
    method TerminalizeFor(tid: TaskId, reason: Reason)
      requires Refs(Rows()) && tid in tasks
      modifies this`tasks, this`jobs, this`leases
      ensures Rows() == CloseTask(old(Rows()), tid, reason)
    {
      var t := tasks[tid];
      if t.state.Leased? {
        var j := jobs[t.job];
        jobs := jobs[t.job := j.(reserved := Clamp(j.reserved - t.bytes),
                                 reservedArtifacts := Clamp(j.reservedArtifacts - t.artifacts))];
        leases := leases - {tid};
      }
      var terminal := if reason.ByCancel? then Cancelled else PermanentFailed;
      tasks := tasks[tid := t.(state := terminal, owner := None, lease := None, bytes := 0, artifacts := 0)];
      var j := jobs[t.job];
      jobs := jobs[t.job := j.(terminal := j.terminal + 1, failed := j.failed + if reason.ByCancel? then 0 else 1)];
      assert jobs == CloseTask(old(Rows()), tid, reason).jobs;
    }

    method Close(sid: SessionId, reason: Reason, worker: Option<Worker>) returns (ok: bool)
      requires Inv(Rows())
      modifies this
      ensures (Rows(), ok) == QueueModel.Close(old(Rows()), sid, reason, worker) && Inv(Rows())
    {
      hide Inv;
      InvParts(Rows());
      CloseKeeps(Rows(), sid, reason, worker);
      if sid !in sessions || !IsOpen(sessions[sid].state) {
        return false;
      }
      var tid := sessions[sid].task;
      var t := tasks[tid];
      if t.state.Succeeded? {
        sessions := sessions[sid := sessions[sid].(state := Closed)];
        return true;
      }
      var terminalized := t.state.WaitingInput? || (t.state.Leased? && (reason.ByCancel? || t.owner == worker));
      if terminalized {
        TerminalizeFor(tid, reason);
      }
      sessions := sessions[sid := sessions[sid].(state := if reason.ByCancel? then SessionCancelled else Expired)];
      return true;
    }

    method Cancel(sid: SessionId) returns (ok: bool)
      requires Inv(Rows())
      modifies this
      ensures (Rows(), ok) == QueueModel.Close(old(Rows()), sid, ByCancel, None) && Inv(Rows())
    {
      hide Inv;
      ok := Close(sid, ByCancel, None);
    }

    method DueSessions() returns (due: set<SessionId>)
      ensures forall s :: s in due <==> Due(Rows(), s)
    {
      due := set s | s in sessions && IsOpen(sessions[s].state) && sessions[s].expires <= now;
    }

    /** One row of expire_due; true when its parked task was failed. */
    method ExpireRow(sid: SessionId) returns (failed: bool)
      requires Inv(Rows()) && Refs(Rows()) && Due(Rows(), sid)
      modifies this`sessions, this`tasks, this`jobs
      ensures Rows() == ExpireOne(old(Rows()), sid)
      ensures failed == old(tasks[sessions[sid].task].state.WaitingInput?)
    {
      hide Inv;
      var tid := sessions[sid].task;
      sessions := sessions[sid := sessions[sid].(state := Expired)];
      failed := tasks[tid].state.WaitingInput?;
      if failed {
        tasks := tasks[tid := tasks[tid].(state := PermanentFailed)];
        var j := jobs[tasks[tid].job];
        jobs := jobs[tasks[tid].job := j.(terminal := j.terminal + 1, failed := j.failed + 1)];
      }
    }

    /**
      Expire every due session and fail the tasks still parked on them, row by row in the order
      the database returns them; the return value counts the failed tasks.
     */
    method ExpireDue() returns (expired: nat, ghost rows: seq<SessionId>)
      requires Inv(Rows())
      modifies this
      ensures Rows() == QueueModel.ExpireDue(old(Rows()), rows) && Inv(Rows())
      ensures forall s :: s in rows <==> Due(old(Rows()), s)
      ensures forall s :: !Due(Rows(), s)
      ensures exists failed: set<TaskId> ::
                expired == |failed| && FailedBetween(old(tasks), tasks, failed)
    {
      hide Inv;
      hide ExpireOne;
      hide QueueModel.ExpireDue;
      hide Due;
      hide FailedBetween;
      expired, rows := 0, [];
      InvParts(Rows());
      ExpireNothing(Rows());
      var due := DueSessions();
      ghost var start := Rows();
      ghost var failed: set<TaskId> := {};
      while due != {}
        invariant Refs(start) && Refs(Rows()) && Rows() == QueueModel.ExpireDue(start, rows) && Inv(Rows())
        invariant forall s :: s in due <==> Due(Rows(), s)
        invariant forall s :: Due(start, s) <==> s in due || s in rows
        invariant expired == |failed| && FailedBetween(start.tasks, tasks, failed)
        decreases due
      {
        var sid :| sid in due;
        ghost var before := Rows();
        ExpireOneKeeps(before, sid);
        ExpireAppend(start, rows, sid);
        ExpireOneFacts(before, sid);
        var one := ExpireRow(sid);
        InvParts(Rows());
        FailedStep(start.tasks, before.tasks, tasks, failed, before.sessions[sid].task, one);
        if one {
          expired := expired + 1;
          failed := failed + {before.sessions[sid].task};
        }
        due := due - {sid};
        rows := rows + [sid];
      }
    }
  }

  /** The tasks that were parked before and are not any more. */
  ghost predicate FailedBetween(before: map<TaskId, Task>, after: map<TaskId, Task>, failed: set<TaskId>) {
    && after.Keys == before.Keys
    && (forall t :: t in failed <==> t in before && before[t].state.WaitingInput? && !after[t].state.WaitingInput?)
    && (forall t :: t in after && after[t].state.WaitingInput? ==> before[t].state.WaitingInput?)
  }

  lemma FailedStep(start: map<TaskId, Task>, before: map<TaskId, Task>, after: map<TaskId, Task>,
                   failed: set<TaskId>, tid: TaskId, one: bool)
    requires FailedBetween(start, before, failed) && after.Keys == before.Keys && tid in before
    requires forall t :: t in before && t != tid ==> after[t] == before[t]
    requires !after[tid].state.WaitingInput? && one == before[tid].state.WaitingInput?
    requires !one ==> after[tid] == before[tid]
    ensures one ==> tid !in failed
    ensures FailedBetween(start, after, if one then failed + {tid} else failed)
  {
  }

  lemma ExpireNothing(db: Db)
    requires Refs(db)
    ensures QueueModel.ExpireDue(db, []) == db && FailedBetween(db.tasks, db.tasks, {})
  {
  }

  lemma ExpireOneFacts(db: Db, sid: SessionId)
    requires Refs(db) && Due(db, sid)
    ensures sid in db.sessions && db.sessions[sid].task in db.tasks
    ensures var db', tid := ExpireOne(db, sid), db.sessions[sid].task;
            && (forall s :: Due(db', s) <==> Due(db, s) && s != sid)
            && db'.tasks.Keys == db.tasks.Keys
            && (forall t :: t in db.tasks && t != tid ==> db'.tasks[t] == db.tasks[t])
            && !db'.tasks[tid].state.WaitingInput?
            && (!db.tasks[tid].state.WaitingInput? ==> db'.tasks[tid] == db.tasks[tid])
  {
  }

  lemma {:induction false} ExpireAppend(db: Db, rows: seq<SessionId>, sid: SessionId)
    requires Inv(db) && Refs(db)
    ensures Refs(QueueModel.ExpireDue(db, rows))
    ensures QueueModel.ExpireDue(db, rows + [sid]) == ExpireOne(QueueModel.ExpireDue(db, rows), sid)
    decreases |rows|
  {
    hide Inv;
    hide ExpireOne;
    if rows == [] {
      assert rows + [sid] == [sid] && [sid][1..] == [];
    } else {
      ExpireOneKeeps(db, rows[0]);
      InvParts(ExpireOne(db, rows[0]));
      ExpireAppend(ExpireOne(db, rows[0]), rows[1..], sid);
      assert (rows + [sid])[1..] == rows[1..] + [sid];
    }
  }
}
