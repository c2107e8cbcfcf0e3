/**
  What each transaction of the durable queue does, seen from outside: exactly when it takes effect, which
  rows it leaves alone, and how reservations turn into use.
 */
module QueueEffects {
  import opened QueueModel
  import opened QueueTotals
  import opened QueueInvariant

  /** No task but `tid`, and no job but its own, has changed. */
  ghost predicate OnlyTask(db: Db, db': Db, tid: TaskId)
    requires Refs(db) && tid in db.tasks
  {
    && (forall t :: t in db.tasks && t != tid ==> t in db'.tasks && db'.tasks[t] == db.tasks[t])
    && (forall j :: j in db.jobs && j != db.tasks[tid].job ==> j in db'.jobs && db'.jobs[j] == db.jobs[j])
  }

  // ---- claiming ----

  predicate Claimable(db: Db, tid: TaskId)
    requires Refs(db)
  {
    tid in db.tasks &&
    var t := db.tasks[tid];
    var j := db.jobs[t.job];
    && (t.state.Pending? || t.state.RetryWait?) && t.availableAt <= db.now
    && !j.cancelRequested && j.deadline > db.now
    && (forall u :: u in db.tasks && db.tasks[u].state.Leased? ==> db.tasks[u].origin != t.origin)
    && j.downloaded + j.reserved < j.maxBytes && t.responseCap > 0
    && j.artifacts + j.reservedArtifacts < j.maxArtifacts
  }

  /**
    A fresh token leases the task exactly when it is due, its origin is idle, and its job is live with
    budget left; the lease then reserves on task and job alike the page's cap, or all the budget left if that is less.
   */
  lemma ClaimTakesEffectIff(db: Db, tid: TaskId, worker: Worker, token: LeaseToken)
    requires Inv(db) && Refs(db) && tid in db.tasks && token !in db.issued
    ensures var db' := Claim(db, tid, worker, token);
            tid in db'.tasks && (db'.tasks[tid].lease == Some(token) <==> Claimable(db, tid))
    ensures var db', j := Claim(db, tid, worker, token), db.jobs[db.tasks[tid].job];
            Claimable(db, tid) ==>
              && OnlyTask(db, db', tid) && db.tasks[tid].job in db'.jobs
              && db'.tasks[tid].state.Leased? && db'.tasks[tid].leaseExpires == db.now + LEASE_SECONDS
              && db'.tasks[tid].owner == Some(worker) && db'.tasks[tid].attempts == db.tasks[tid].attempts + 1
              && 0 < db'.tasks[tid].bytes <= db.tasks[tid].responseCap && 0 < db'.tasks[tid].artifacts
              && db'.jobs[db.tasks[tid].job].reserved == j.reserved + db'.tasks[tid].bytes
              && db'.jobs[db.tasks[tid].job].reservedArtifacts == j.reservedArtifacts + db'.tasks[tid].artifacts
              && db'.jobs[db.tasks[tid].job].downloaded + db'.jobs[db.tasks[tid].job].reserved <= j.maxBytes
              && (db'.tasks[tid].bytes == db.tasks[tid].responseCap
                  || j.downloaded + db'.jobs[db.tasks[tid].job].reserved == j.maxBytes)
              && db'.tasks[tid].artifacts <= 31457280
              && (db'.tasks[tid].artifacts == 31457280
                  || j.artifacts + db'.jobs[db.tasks[tid].job].reservedArtifacts == j.maxArtifacts)
  {
    hide Core;
    hide SessionsOk;
    hide TokensOk;
    RowFacts(db, tid);
    OriginIdle(db, db.tasks[tid].origin);
  }

  lemma OriginIdle(db: Db, origin: Origin)
    requires Inv(db)
    ensures OriginBusy(db, origin) <==> exists u :: u in db.tasks && db.tasks[u].state.Leased? && db.tasks[u].origin == origin
  {
    hide Core;
    hide SessionsOk;
    hide TokensOk;
  }

  // ---- completing: what was reserved is either used or given back ----

  predicate Completable(db: Db, tid: TaskId, token: LeaseToken, reported: int, artifactBytes: nat)
    requires Refs(db)
  {
    Fenced(db, tid, token) &&
    var t := db.tasks[tid];
    var j := db.jobs[t.job];
    !j.cancelRequested && j.deadline > db.now && reported <= t.bytes && artifactBytes <= t.artifacts
  }

  /**
    A completion succeeds exactly under the live lease of a live job within both reservations.  The whole
    reservation then leaves the job, the real usage is charged instead, and the origin is free again.
   */
  lemma CompletionConvertsReservation(db: Db, tid: TaskId, token: LeaseToken, reported: int, artifactBytes: nat, found: seq<Found>)
    requires Inv(db) && Refs(db)
    ensures Complete(db, tid, token, reported, artifactBytes, found).1 <==> Completable(db, tid, token, reported, artifactBytes)
    ensures Completable(db, tid, token, reported, artifactBytes) ==>
              var db', t := Complete(db, tid, token, reported, artifactBytes, found).0, db.tasks[tid];
              && tid in db'.tasks && db'.tasks[tid] == Unleased(t, Succeeded) && t.job in db'.jobs
              && tid !in db'.leases
              && db'.jobs[t.job].reserved == db.jobs[t.job].reserved - t.bytes
              && db'.jobs[t.job].reservedArtifacts == db.jobs[t.job].reservedArtifacts - t.artifacts
              && db'.jobs[t.job].downloaded == db.jobs[t.job].downloaded + Clamp(reported)
              && db'.jobs[t.job].artifacts == db.jobs[t.job].artifacts + artifactBytes
              && db'.jobs[t.job].succeeded == db.jobs[t.job].succeeded + 1
  {
    hide Inv;
    hide Terminalize;
    hide Drain;
    if Fenced(db, tid, token) {
      RowFacts(db, tid);
      if Completable(db, tid, token, reported, artifactBytes) {
        var t := db.tasks[tid];
        var done := Succeed(db, tid, ActualBytes(t, reported), artifactBytes);
        FoundOnlyAdds(done, t, found);
      }
    }
  }

  /** Inserting discovered pages touches no existing row and no counter but `discovered`. */
  lemma {:induction false} FoundOnlyAdds(db: Db, parent: Task, found: seq<Found>)
    requires parent.job in db.jobs
    ensures var db' := InsertFound(db, parent, found);
            && (forall t :: t in db.tasks ==> t in db'.tasks && db'.tasks[t] == db.tasks[t])
            && parent.job in db'.jobs
            && db'.jobs[parent.job] == db.jobs[parent.job].(discovered := db'.jobs[parent.job].discovered)
            && db'.jobs[parent.job].discovered <= Max(db.jobs[parent.job].discovered, db.jobs[parent.job].maxPages)
            && (forall t :: t in db'.tasks && t !in db.tasks ==>
                  db'.tasks[t].state.Pending? && db'.tasks[t].job == parent.job && db'.tasks[t].origin == parent.origin)
            && db'.leases == db.leases && db'.sessions == db.sessions
    decreases |found|
  {
    var j := db.jobs[parent.job];
    if found != [] && j.discovered < j.maxPages {
      if found[0].id in db.tasks {
        FoundOnlyAdds(db, parent, found[1..]);
      } else {
        var t := NewTask(parent.job, parent.origin, found[0].responseCap, db.now, parent.maxAttempts);
        FoundOnlyAdds(PutTask(db, found[0].id, t, j.(discovered := j.discovered + 1)), parent, found[1..]);
      }
    }
  }

  function Max(a: int, b: int): int { if a < b then b else a }

  // ---- ending ----

  /** A permanent failure at the limit leaves nothing of the job in the queue. */
  lemma FailureLimitDrains(db: Db, tid: TaskId, u: TaskId)
    requires Refs(db) && tid in db.tasks && u in db.tasks && u != tid && db.tasks[u].job == db.tasks[tid].job
    requires db.jobs[db.tasks[tid].job].failed + 1 >= db.jobs[db.tasks[tid].job].maxFailures
    ensures var db' := Terminalize(db, tid, PermanentFailed);
            && u in db'.tasks && !IsQueued(db'.tasks[u].state)
            && (IsQueued(db.tasks[u].state) <==> db'.tasks[u].state.PermanentFailed? && !db.tasks[u].state.PermanentFailed?)
            && (!IsQueued(db.tasks[u].state) ==> db'.tasks[u] == db.tasks[u])
  {
  }

  /** Cancelling a live job ends everything of it but the leased tasks, sessions included, and nothing else. */
  lemma CancelEndsWhatIsQueued(db: Db, jid: JobId, u: TaskId, sid: SessionId)
    requires Refs(db) && jid in db.jobs && !IsFinished(db.jobs[jid].state) && u in db.tasks && sid in db.sessions
    ensures var db' := RequestCancel(db, jid);
            && u in db'.tasks && sid in db'.sessions && jid in db'.jobs
            && (db.tasks[u].job == jid ==> IsTerminal(db'.tasks[u].state) || db'.tasks[u].state.Leased?)
            && (db.tasks[u].job == jid && IsQueued(db.tasks[u].state) ==> db'.tasks[u].state.Cancelled?)
            && (db.tasks[u].job != jid || !IsQueued(db.tasks[u].state) ==> db'.tasks[u] == db.tasks[u])
            && (db.tasks[db.sessions[sid].task].job == jid && IsQueued(db.tasks[db.sessions[sid].task].state) ==>
                  !IsOpen(db'.sessions[sid].state))
            && db'.jobs[jid].cancelRequested
            && (db'.jobs[jid].state.JobCancelled? || HasLeased(db'.tasks, jid))
  {
    if HasLeased(db.tasks, jid) {
      var t :| t in db.tasks && db.tasks[t].job == jid && db.tasks[t].state.Leased?;
      assert RequestCancel(db, jid).tasks[t] == db.tasks[t];
    }
  }

  /** Reaping an expired lease frees the task: back to the queue, or ended when its attempts or its job are over. */
  lemma ReapFrees(db: Db, tid: TaskId)
    requires Inv(db) && Refs(db) && tid in db.tasks && db.tasks[tid].state.Leased? && db.tasks[tid].leaseExpires <= db.now
    ensures var db', t := Reap(db, tid), db.tasks[tid];
            var j := db.jobs[t.job];
            && tid in db'.tasks && t.job in db'.jobs && tid !in db'.leases
            && db'.tasks[tid].bytes == 0 && db'.tasks[tid].lease == None
            && db'.jobs[t.job].reserved == j.reserved - t.bytes
            && db'.tasks[tid].state == (if j.cancelRequested then Cancelled
                                        else if j.deadline <= db.now || t.attempts >= t.maxAttempts then PermanentFailed
                                        else RetryWait)
  {
    hide Inv;
    hide Terminalize;
    hide IsFinished;
    RowFacts(db, tid);
    TerminalizeEffect(db, tid, Cancelled);
    TerminalizeEffect(db, tid, PermanentFailed);
  }

  lemma TerminalizeEffect(db: Db, tid: TaskId, s: TaskState)
    requires Refs(db) && tid in db.tasks && IsTerminal(s)
    ensures var db', t := Terminalize(db, tid, s), db.tasks[tid];
            && tid in db'.tasks && db'.tasks[tid] == Unleased(t, s) && t.job in db'.jobs
            && db'.jobs[t.job].reserved == Clamp(db.jobs[t.job].reserved - t.bytes)
            && db'.leases == DropLease(db.leases, tid, t.lease)
  {
  }

  // ---- live sessions ----

  /** The job gets back exactly what the task held, and changes in nothing else. */
  predicate GivesBack(j: Job, j': Job, t: Task) {
    && j'.reserved + t.bytes == j.reserved && j'.reservedArtifacts + t.artifacts == j.reservedArtifacts
    && j'.(reserved := j.reserved, reservedArtifacts := j.reservedArtifacts) == j
  }

  /**
    Parking succeeds exactly for the lease's owner, while the job is live and the task has had no session;
    the task then holds nothing, and its session outlives neither the time asked for nor the job.
   */
  lemma ParkingGivesEverythingBack(db: Db, tid: TaskId, token: LeaseToken, worker: Worker, sid: SessionId, ttl: int)
    requires Inv(db) && Refs(db) && 300 <= ttl <= 3600 && sid !in db.sessions
    ensures var (db', ok) := WaitForInput(db, tid, token, worker, sid, ttl);
            && (ok <==> && Fenced(db, tid, token) && db.tasks[tid].owner == Some(worker)
                        && !db.jobs[db.tasks[tid].job].cancelRequested && db.jobs[db.tasks[tid].job].deadline > db.now
                        && (forall s :: s in db.sessions ==> db.sessions[s].task != tid))
            && (!ok ==> db' == db)
            && (ok ==>
                  && OnlyTask(db, db', tid) && tid in db'.tasks && tid !in db'.leases
                  && db'.tasks[tid] == Unleased(db.tasks[tid], WaitingInput)
                  && db.tasks[tid].job in db'.jobs
                  && GivesBack(db.jobs[db.tasks[tid].job], db'.jobs[db.tasks[tid].job], db.tasks[tid])
                  && sid in db'.sessions && db'.sessions[sid].state.Waiting? && db'.sessions[sid].task == tid
                  && db.now < db'.sessions[sid].expires <= db.now + ttl
                  && db'.sessions[sid].expires <= db.jobs[db.tasks[tid].job].deadline
                  && (db'.sessions[sid].expires == db.now + ttl
                      || db'.sessions[sid].expires == db.jobs[db.tasks[tid].job].deadline))
  {
    hide Inv;
    if Fenced(db, tid, token) {
      RowFacts(db, tid);
    }
  }

  /** An issued token opens its session for its scope, at any time before it runs out, and only then. */
  lemma IssuedTokenIsGood(db: Db, sid: SessionId, scope: Scope, ttl: int, hash: TokenHash, later: int, other: Scope)
    requires IssueToken(db, sid, scope, ttl, hash).1 && sid in db.sessions
    ensures var held := IssueToken(db, sid, scope, ttl, hash).0.(now := later);
            ConsumeToken(held, sid, other, hash).1 <==> other == scope && later < db.now + ttl && later < db.sessions[sid].expires
  {
  }

  /**
    Closing succeeds exactly on an open session, which ends as cancelled or expired, or as closed if its task has
    succeeded.  A parked task ends; a leased one only by a cancel or its own
    worker; a succeeded or otherwise finished one stays.  A cancel counts no failure, an expiry counts one.
   */
  lemma ClosingDecides(db: Db, sid: SessionId, reason: Reason, worker: Option<Worker>)
    requires Inv(db) && Refs(db) && sid in db.sessions
    ensures var (db', ok) := Close(db, sid, reason, worker);
            var tid := db.sessions[sid].task;
            var t := db.tasks[tid];
            var ends := t.state.WaitingInput? || (t.state.Leased? && (reason.ByCancel? || t.owner == worker));
            && (ok <==> IsOpen(db.sessions[sid].state))
            && (!ok ==> db' == db)
            && (ok ==>
                  && OnlyTask(db, db', tid) && sid in db'.sessions
                  && db'.sessions == db.sessions[sid := db'.sessions[sid]]
                  && db'.sessions[sid] == db.sessions[sid].(state := if t.state.Succeeded? then Closed
                                                                     else if reason.ByCancel? then SessionCancelled else Expired)
                  && tid in db'.tasks && t.job in db'.jobs
                  && (!ends ==> db'.tasks[tid] == t && db'.jobs == db.jobs)
                  && (ends ==>
                        && db'.tasks[tid] == Unleased(t, if reason.ByCancel? then Cancelled else PermanentFailed)
                        && tid !in db'.leases
                        && db'.jobs[t.job].terminal == db.jobs[t.job].terminal + 1
                        && db'.jobs[t.job].failed == db.jobs[t.job].failed + (if reason.ByCancel? then 0 else 1)
                        && db'.jobs[t.job].reserved == db.jobs[t.job].reserved - t.bytes
                        && db'.jobs[t.job].reservedArtifacts == db.jobs[t.job].reservedArtifacts - t.artifacts))
  {
    hide Inv;
    hide CloseTask;
    hide HasOpenSession;
    CloseTaskEffect(db, db.sessions[sid].task, reason);
  }

  lemma CloseTaskEffect(db: Db, tid: TaskId, reason: Reason)
    requires Inv(db) && Refs(db) && tid in db.tasks
    ensures var db', t := CloseTask(db, tid, reason), db.tasks[tid];
            && OnlyTask(db, db', tid) && db'.sessions == db.sessions && tid in db'.tasks && t.job in db'.jobs
            && db'.tasks[tid] == Unleased(t, if reason.ByCancel? then Cancelled else PermanentFailed)
            && tid !in db'.leases
            && db'.jobs[t.job].terminal == db.jobs[t.job].terminal + 1
            && db'.jobs[t.job].failed == db.jobs[t.job].failed + (if reason.ByCancel? then 0 else 1)
            && db'.jobs[t.job].reserved == db.jobs[t.job].reserved - t.bytes
            && db'.jobs[t.job].reservedArtifacts == db.jobs[t.job].reservedArtifacts - t.artifacts
  {
    hide Inv;
    RowFacts(db, tid);
    if !db.tasks[tid].state.Leased? {
      NoLease(db, tid);
    }
  }

  lemma NoLease(db: Db, tid: TaskId)
    requires Inv(db) && tid in db.tasks && !db.tasks[tid].state.Leased?
    ensures tid !in db.leases
  {
    hide Core;
    hide SessionsOk;
    hide TokensOk;
  }

  /** After expire_due has gone over a due session, it is expired and its parked task has failed. */
  lemma {:induction false} ExpiryEndsDueSessions(db: Db, rows: seq<SessionId>, sid: SessionId)
    requires Refs(db) && sid in db.sessions
    ensures var db' := ExpireDue(db, rows);
            && sid in db'.sessions && db.sessions[sid].task in db'.tasks
            && (sid in rows && Due(db, sid) ==> db'.sessions[sid].state.Expired?)
            && (sid in rows && Due(db, sid) && db.tasks[db.sessions[sid].task].state.WaitingInput? ==>
                  db'.tasks[db.sessions[sid].task].state.PermanentFailed?)
            && (sid !in rows || !Due(db, sid) ==> db'.sessions[sid] == db.sessions[sid])
    decreases |rows|
  {
    hide ExpireOne;
    if rows != [] {
      ExpireOneEffect(db, rows[0], sid);
      var mid := ExpireOne(db, rows[0]);
      ExpiryEndsDueSessions(mid, rows[1..], sid);
      if mid.tasks[db.sessions[sid].task].state.PermanentFailed? {
        FailedStaysFailed(mid, rows[1..], db.sessions[sid].task);
      }
    }
  }

  lemma ExpireOneEffect(db: Db, row: SessionId, sid: SessionId)
    requires Refs(db) && sid in db.sessions
    ensures var db' := ExpireOne(db, row);
            && Refs(db') && sid in db'.sessions && db'.sessions[sid].task == db.sessions[sid].task && db'.now == db.now
            && db'.sessions[sid].expires == db.sessions[sid].expires
            && (row == sid && Due(db, sid) ==>
                  && db'.sessions[sid].state.Expired?
                  && (db.tasks[db.sessions[sid].task].state.WaitingInput? ==>
                        db'.tasks[db.sessions[sid].task].state.PermanentFailed?))
            && (row != sid || !Due(db, sid) ==> db'.sessions[sid] == db.sessions[sid])
            && (db.tasks[db.sessions[sid].task].state.WaitingInput? ==>
                  db'.tasks[db.sessions[sid].task].state.WaitingInput? || db'.tasks[db.sessions[sid].task].state.PermanentFailed?)
  {
  }

  lemma {:induction false} FailedStaysFailed(db: Db, rows: seq<SessionId>, tid: TaskId)
    requires Refs(db) && tid in db.tasks && db.tasks[tid].state.PermanentFailed?
    ensures tid in ExpireDue(db, rows).tasks && ExpireDue(db, rows).tasks[tid].state.PermanentFailed?
    decreases |rows|
  {
    hide ExpireOne;
    if rows != [] {
      ExpireKeepsFailed(db, rows[0], tid);
      FailedStaysFailed(ExpireOne(db, rows[0]), rows[1..], tid);
    }
  }

  lemma ExpireKeepsFailed(db: Db, row: SessionId, tid: TaskId)
    requires Refs(db) && tid in db.tasks && db.tasks[tid].state.PermanentFailed?
    ensures Refs(ExpireOne(db, row)) && tid in ExpireOne(db, row).tasks
    ensures ExpireOne(db, row).tasks[tid].state.PermanentFailed?
  {
  }
}
