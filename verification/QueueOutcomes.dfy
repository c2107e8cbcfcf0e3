/**
  What becomes of the tasks and jobs of the durable queue: which discovered pages are queued, how a lease ends, and
  how a drained job is judged.  The statements speak of rows and columns, not of the functions that compute them.
 */
module QueueOutcomes {
  import opened QueueModel
  import opened QueueTotals
  import opened QueueInvariant
  import opened QueueEffects

  // ---- which discovered pages are queued ----------------------------------------------------

  /** The i-th page found is not a row yet, and is not found earlier in the list. */
  predicate NewAt(tasks: map<TaskId, Task>, found: seq<Found>, i: nat)
    requires i < |found|
  {
    found[i].id !in tasks && forall j :: 0 <= j < i ==> found[j].id != found[i].id
  }

  /** How many pages new in this sense come before position i. */
  function NewBefore(tasks: map<TaskId, Task>, found: seq<Found>, i: nat): nat
    requires i <= |found|
  {
    if i == 0 then 0 else NewBefore(tasks, found, i - 1) + if NewAt(tasks, found, i - 1) then 1 else 0
  }

  /** A page queued for the first time: due now, with its own response cap, and nothing of its own yet. */
  predicate Queued(t: Task, parent: Task, f: Found, now: int) {
    && t.state.Pending? && t.job == parent.job && t.origin == parent.origin && t.responseCap == f.responseCap
    && t.availableAt == now && t.attempts == 0 && t.maxAttempts == parent.maxAttempts
    && t.owner == None && t.lease == None && t.bytes == 0 && t.artifacts == 0
  }

  /** The rows added are the first `room` pages that are new, and no others. */
  ghost predicate AddsFirst(db: Db, db': Db, parent: Task, found: seq<Found>, room: int) {
    && (forall i :: 0 <= i < |found| && NewAt(db.tasks, found, i) && NewBefore(db.tasks, found, i) < room ==>
          found[i].id in db'.tasks && Queued(db'.tasks[found[i].id], parent, found[i], db.now))
    && (forall t :: t in db'.tasks && t !in db.tasks ==>
          exists i :: 0 <= i < |found| && found[i].id == t && NewAt(db.tasks, found, i) && NewBefore(db.tasks, found, i) < room)
    && (forall t :: t in db.tasks ==> t in db'.tasks && db'.tasks[t] == db.tasks[t])
  }

  lemma {:induction false} KnownFirst(tasks: map<TaskId, Task>, found: seq<Found>, i: nat)
    requires found != [] && found[0].id in tasks && i < |found|
    ensures NewBefore(tasks, found, i + 1) == NewBefore(tasks, found[1..], i)
    ensures forall j :: 0 <= j < i ==> (NewAt(tasks, found, j + 1) <==> NewAt(tasks, found[1..], j))
  {
    forall j | 0 <= j < i ensures NewAt(tasks, found, j + 1) <==> NewAt(tasks, found[1..], j) {
      NewShifts(tasks, tasks, found, j);
    }
    if i > 0 {
      KnownFirst(tasks, found, i - 1);
    }
  }

  lemma NewShifts(tasks: map<TaskId, Task>, more: map<TaskId, Task>, found: seq<Found>, j: nat)
    requires j + 1 < |found|
    requires forall t :: t in more <==> t in tasks || t == found[0].id
    ensures NewAt(tasks, found, j + 1) <==> NewAt(more, found[1..], j)
  {
    var rest := found[1..];
    assert rest[j] == found[j + 1];
    if NewAt(more, rest, j) {
      forall k | 0 <= k < j + 1 ensures found[k].id != found[j + 1].id {
        assert k > 0 ==> rest[k - 1] == found[k];
      }
    }
    if NewAt(tasks, found, j + 1) {
      assert found[0].id != found[j + 1].id;
      forall k | 0 <= k < j ensures rest[k].id != rest[j].id {
        assert rest[k] == found[k + 1];
      }
    }
  }

  lemma {:induction false} NewFirst(tasks: map<TaskId, Task>, more: map<TaskId, Task>, found: seq<Found>, i: nat)
    requires found != [] && found[0].id !in tasks && i < |found|
    requires forall t :: t in more <==> t in tasks || t == found[0].id
    ensures NewBefore(tasks, found, i + 1) == 1 + NewBefore(more, found[1..], i)
  {
    if i > 0 {
      NewFirst(tasks, more, found, i - 1);
      NewShifts(tasks, more, found, i - 1);
    }
  }

  /** From the rest of the list to the list, when its first page is queued. */
  lemma AddsOne(db: Db, mid: Db, db': Db, parent: Task, found: seq<Found>, room: int)
    requires found != [] && found[0].id !in db.tasks && room > 0 && mid.now == db.now
    requires forall t :: t in mid.tasks <==> t in db.tasks || t == found[0].id
    requires forall t :: t in db.tasks ==> mid.tasks[t] == db.tasks[t]
    requires Queued(mid.tasks[found[0].id], parent, found[0], db.now)
    requires AddsFirst(mid, db', parent, found[1..], room - 1)
    ensures AddsFirst(db, db', parent, found, room)
  {
    hide Queued;
    var rest := found[1..];
    forall i | 0 <= i < |found| && NewAt(db.tasks, found, i) && NewBefore(db.tasks, found, i) < room
      ensures found[i].id in db'.tasks && Queued(db'.tasks[found[i].id], parent, found[i], db.now)
    {
      if i > 0 {
        NewFirst(db.tasks, mid.tasks, found, i - 1);
        NewShifts(db.tasks, mid.tasks, found, i - 1);
        assert rest[i - 1] == found[i];
      }
    }
    forall t | t in db'.tasks && t !in db.tasks
      ensures exists i :: 0 <= i < |found| && found[i].id == t && NewAt(db.tasks, found, i) && NewBefore(db.tasks, found, i) < room
    {
      if t == found[0].id {
        assert NewAt(db.tasks, found, 0) && NewBefore(db.tasks, found, 0) == 0;
      } else {
        var k :| 0 <= k < |rest| && rest[k].id == t && NewAt(mid.tasks, rest, k) && NewBefore(mid.tasks, rest, k) < room - 1;
        NewFirst(db.tasks, mid.tasks, found, k);
        NewShifts(db.tasks, mid.tasks, found, k);
        assert found[k + 1].id == t;
      }
    }
  }

  lemma SkipsOne(db: Db, db': Db, parent: Task, found: seq<Found>, room: int)
    requires found != [] && found[0].id in db.tasks && AddsFirst(db, db', parent, found[1..], room)
    ensures AddsFirst(db, db', parent, found, room)
  {
    hide Queued;
    var rest := found[1..];
    forall i | 0 <= i < |found| && NewAt(db.tasks, found, i) && NewBefore(db.tasks, found, i) < room
      ensures found[i].id in db'.tasks && Queued(db'.tasks[found[i].id], parent, found[i], db.now)
    {
      KnownFirst(db.tasks, found, i - 1);
      NewShifts(db.tasks, db.tasks, found, i - 1);
      assert rest[i - 1] == found[i];
    }
    forall t | t in db'.tasks && t !in db.tasks
      ensures exists i :: 0 <= i < |found| && found[i].id == t && NewAt(db.tasks, found, i) && NewBefore(db.tasks, found, i) < room
    {
      var k :| 0 <= k < |rest| && rest[k].id == t && NewAt(db.tasks, rest, k) && NewBefore(db.tasks, rest, k) < room;
      KnownFirst(db.tasks, found, k);
      NewShifts(db.tasks, db.tasks, found, k);
      assert found[k + 1].id == t;
    }
  }

  /** How many rows there are more. */
  function Added(tasks: map<TaskId, Task>, tasks': map<TaskId, Task>): nat { |tasks'.Keys - tasks.Keys| }

  lemma NoneAdded(tasks: map<TaskId, Task>)
    ensures Added(tasks, tasks) == 0
  {
    assert tasks.Keys - tasks.Keys == {};
  }

  lemma OneMore(tasks: map<TaskId, Task>, mid: map<TaskId, Task>, tasks': map<TaskId, Task>, t: TaskId)
    requires t !in tasks && mid.Keys == tasks.Keys + {t} && t in tasks'
    ensures Added(tasks, tasks') == Added(mid, tasks') + 1
  {
    assert tasks'.Keys - tasks.Keys == (tasks'.Keys - mid.Keys) + {t};
  }

  /** Every page found is a row. */
  predicate AllRows(tasks: map<TaskId, Task>, found: seq<Found>) { forall i :: 0 <= i < |found| ==> found[i].id in tasks }

  /**
    The pages added are the first new ones the job has room for, `discovered` counts them, and if any page is left
    out the limit is reached.
   */
  ghost predicate Inserts(db: Db, db': Db, parent: Task, found: seq<Found>)
    requires parent.job in db.jobs
  {
    var j := db.jobs[parent.job];
    && AddsFirst(db, db', parent, found, j.maxPages - j.discovered)
    && parent.job in db'.jobs && db'.jobs[parent.job].discovered == j.discovered + Added(db.tasks, db'.tasks)
    && (AllRows(db'.tasks, found) || db'.jobs[parent.job].discovered >= j.maxPages)
  }

  lemma {:induction false} InsertsFirst(db: Db, parent: Task, found: seq<Found>)
    requires parent.job in db.jobs
    ensures Inserts(db, InsertFound(db, parent, found), parent, found)
    decreases |found|
  {
    hide Inserts;
    hide PutTask;
    hide NewTask;
    var j := db.jobs[parent.job];
    if found == [] || j.discovered >= j.maxPages {
      InsertsNone(db, parent, found);
    } else if found[0].id in db.tasks {
      InsertsFirst(db, parent, found[1..]);
      InsertsKnown(db, InsertFound(db, parent, found[1..]), parent, found);
    } else {
      var t := NewTask(parent.job, parent.origin, found[0].responseCap, db.now, parent.maxAttempts);
      var mid := PutTask(db, found[0].id, t, j.(discovered := j.discovered + 1));
      assert parent.job in mid.jobs by { NewRow(db, parent, found[0]); }
      InsertsFirst(mid, parent, found[1..]);
      InsertsNew(db, mid, InsertFound(mid, parent, found[1..]), parent, found);
    }
  }

  lemma NewRow(db: Db, parent: Task, f: Found)
    requires parent.job in db.jobs
    ensures var j := db.jobs[parent.job];
            var t := NewTask(parent.job, parent.origin, f.responseCap, db.now, parent.maxAttempts);
            var mid := PutTask(db, f.id, t, j.(discovered := j.discovered + 1));
            && mid.tasks == db.tasks[f.id := t] && mid.now == db.now && Queued(t, parent, f, db.now)
            && parent.job in mid.jobs && mid.jobs[parent.job] == j.(discovered := j.discovered + 1)
  {
  }

  lemma InsertsNone(db: Db, parent: Task, found: seq<Found>)
    requires parent.job in db.jobs && (found == [] || db.jobs[parent.job].discovered >= db.jobs[parent.job].maxPages)
    ensures Inserts(db, db, parent, found)
  {
    hide AddsFirst;
    AddsNothing(db, parent, found, db.jobs[parent.job].maxPages - db.jobs[parent.job].discovered);
    NoneAdded(db.tasks);
  }

  lemma InsertsKnown(db: Db, db': Db, parent: Task, found: seq<Found>)
    requires parent.job in db.jobs && found != [] && found[0].id in db.tasks
    requires Inserts(db, db', parent, found[1..])
    ensures Inserts(db, db', parent, found)
  {
    hide AddsFirst;
    hide AllRows;
    hide Added;
    hide NewAt;
    hide NewBefore;
    hide Queued;
    var j := db.jobs[parent.job];
    SkipsOne(db, db', parent, found, j.maxPages - j.discovered);
    OldRowsStay(db, db', parent, found[1..], j.maxPages - j.discovered, found[0].id);
    FirstOrRest(found, db'.tasks);
  }

  lemma OldRowsStay(db: Db, db': Db, parent: Task, found: seq<Found>, room: int, t: TaskId)
    requires AddsFirst(db, db', parent, found, room) && t in db.tasks
    ensures t in db'.tasks && db'.tasks[t] == db.tasks[t] && db.tasks.Keys <= db'.tasks.Keys
  {
    hide Queued;
  }

  lemma InsertsNew(db: Db, mid: Db, db': Db, parent: Task, found: seq<Found>)
    requires parent.job in db.jobs && found != [] && found[0].id !in db.tasks
    requires db.jobs[parent.job].discovered < db.jobs[parent.job].maxPages
    requires mid == PutTask(db, found[0].id, NewTask(parent.job, parent.origin, found[0].responseCap, db.now, parent.maxAttempts),
                            db.jobs[parent.job].(discovered := db.jobs[parent.job].discovered + 1))
    requires parent.job in mid.jobs && Inserts(mid, db', parent, found[1..])
    ensures Inserts(db, db', parent, found)
  {
    hide AddsFirst;
    hide AllRows;
    hide Added;
    hide PutTask;
    hide NewTask;
    hide Queued;
    hide NewAt;
    hide NewBefore;
    NewRow(db, parent, found[0]);
    var j := db.jobs[parent.job];
    AddsOne(db, mid, db', parent, found, j.maxPages - j.discovered);
    OldRowsStay(mid, db', parent, found[1..], j.maxPages - j.discovered - 1, found[0].id);
    FirstOrRest(found, db'.tasks);
    OneMore(db.tasks, mid.tasks, db'.tasks, found[0].id);
  }

  lemma FirstOrRest(found: seq<Found>, tasks: map<TaskId, Task>)
    requires found != [] && found[0].id in tasks
    ensures AllRows(tasks, found[1..]) ==> AllRows(tasks, found)
  {
    if AllRows(tasks, found[1..]) {
      forall i | 0 <= i < |found| ensures found[i].id in tasks {
        assert i > 0 ==> found[i] == found[1..][i - 1];
      }
    }
  }

  lemma AddsNothing(db: Db, parent: Task, found: seq<Found>, room: int)
    requires found == [] || room <= 0
    ensures AddsFirst(db, db, parent, found, room)
  {
  }

  /**
    What a completion makes of a page's links: the first that are neither rows nor earlier in the list are queued, as
    many as the job's page limit leaves room for, each due at once with its own cap; `discovered` grows by their
    number; and if any link is left out, the limit is reached.
   */
  ghost predicate QueuesLinks(db: Db, db': Db, tid: TaskId, found: seq<Found>)
    requires Refs(db) && tid in db.tasks
  {
    var t := db.tasks[tid];
    var j := db.jobs[t.job];
    && t.job in db'.jobs && j.discovered <= j.maxPages
    && (forall i :: 0 <= i < |found| && NewAt(db.tasks, found, i) ==>
          (found[i].id in db'.tasks <==> NewBefore(db.tasks, found, i) < j.maxPages - j.discovered))
    && (forall i :: 0 <= i < |found| && NewAt(db.tasks, found, i) && found[i].id in db'.tasks ==>
          Queued(db'.tasks[found[i].id], t, found[i], db.now))
    && (forall u :: u in db'.tasks && u !in db.tasks ==> exists i :: 0 <= i < |found| && found[i].id == u)
    && db'.jobs[t.job].discovered == j.discovered + Added(db.tasks, db'.tasks)
    && (AllRows(db'.tasks, found) || db'.jobs[t.job].discovered == j.maxPages)
    && (forall u :: u in db.tasks && u != tid ==> u in db'.tasks && db'.tasks[u] == db.tasks[u])
  }

  /** Every successful completion queues the page's links so. */
  lemma CompletionQueuesLinks(db: Db, tid: TaskId, token: LeaseToken, reported: int, artifactBytes: nat, found: seq<Found>)
    requires Inv(db) && Refs(db) && Complete(db, tid, token, reported, artifactBytes, found).1
    ensures tid in db.tasks && QueuesLinks(db, Complete(db, tid, token, reported, artifactBytes, found).0, tid, found)
  {
    hide Inv;
    hide InsertFound;
    hide Terminalize;
    hide Drain;
    hide Succeed;
    hide QueuesLinks;
    hide Inserts;
    var t := db.tasks[tid];
    var done := Succeed(db, tid, ActualBytes(t, reported), artifactBytes);
    Succeeds(db, tid, ActualBytes(t, reported), artifactBytes);
    InsertsFirst(done, t, found);
    LinksQueued(db, done, tid, found);
  }

  lemma LinksQueued(db: Db, done: Db, tid: TaskId, found: seq<Found>)
    requires Inv(db) && Refs(db) && tid in db.tasks && KeepsRows(db, done, tid)
    requires Inserts(done, InsertFound(done, db.tasks[tid], found), db.tasks[tid], found)
    ensures QueuesLinks(db, InsertFound(done, db.tasks[tid], found), tid, found)
  {
    hide Inv;
    hide InsertFound;
    hide AddsFirst;
    hide NewAt;
    hide NewBefore;
    hide Queued;
    hide AllRows;
    hide Added;
    var t, j, db' := db.tasks[tid], db.jobs[db.tasks[tid].job], InsertFound(done, db.tasks[tid], found);
    PagesWithinLimit(db, t.job);
    PagesStayWithinLimit(done, t, found);
    SameKeys(done.tasks, db.tasks, found);
    SameAdded(done.tasks, db.tasks, db'.tasks);
    OnlyFirst(done, db', t, found, j.maxPages - j.discovered);
    forall u | u in db.tasks && u != tid ensures u in db'.tasks && db'.tasks[u] == db.tasks[u] {
      OldRowsStay(done, db', t, found, j.maxPages - j.discovered, u);
    }
  }

  lemma PagesWithinLimit(db: Db, jid: JobId)
    requires Inv(db) && jid in db.jobs
    ensures db.jobs[jid].discovered <= db.jobs[jid].maxPages
  {
    hide SessionsOk;
    hide TokensOk;
    hide LeasesOk;
  }

  lemma PagesStayWithinLimit(db: Db, parent: Task, found: seq<Found>)
    requires parent.job in db.jobs && db.jobs[parent.job].discovered <= db.jobs[parent.job].maxPages
    ensures var db' := InsertFound(db, parent, found);
            parent.job in db'.jobs && db'.jobs[parent.job].discovered <= db.jobs[parent.job].maxPages
  {
    hide InsertFound;
    FoundOnlyAdds(db, parent, found);
  }

  /** No row but `tid` differs, and its job has as many pages. */
  ghost predicate KeepsRows(db: Db, db': Db, tid: TaskId)
    requires Refs(db) && tid in db.tasks
  {
    var jid := db.tasks[tid].job;
    && db'.now == db.now && db'.tasks.Keys == db.tasks.Keys && jid in db'.jobs
    && (forall t :: t in db.tasks && t != tid ==> db'.tasks[t] == db.tasks[t])
    && db'.jobs[jid].maxPages == db.jobs[jid].maxPages && db'.jobs[jid].discovered == db.jobs[jid].discovered
  }

  lemma Succeeds(db: Db, tid: TaskId, downloaded: nat, artifactBytes: nat)
    requires Refs(db) && tid in db.tasks
    ensures KeepsRows(db, Succeed(db, tid, downloaded, artifactBytes), tid)
  {
  }

  lemma SameAdded(a: map<TaskId, Task>, b: map<TaskId, Task>, tasks': map<TaskId, Task>)
    requires a.Keys == b.Keys
    ensures Added(a, tasks') == Added(b, tasks')
  {
  }

  lemma SameKeys(a: map<TaskId, Task>, b: map<TaskId, Task>, found: seq<Found>)
    requires a.Keys == b.Keys
    ensures forall i :: 0 <= i < |found| ==> (NewAt(a, found, i) <==> NewAt(b, found, i))
    ensures forall i :: 0 <= i < |found| ==> NewBefore(a, found, i) == NewBefore(b, found, i)
  {
    forall i | 0 <= i < |found| ensures NewBefore(a, found, i) == NewBefore(b, found, i) {
      NewBeforeSame(a, b, found, i);
    }
  }

  lemma {:induction false} NewBeforeSame(a: map<TaskId, Task>, b: map<TaskId, Task>, found: seq<Found>, i: nat)
    requires i <= |found| && forall t :: t in a <==> t in b
    ensures NewBefore(a, found, i) == NewBefore(b, found, i)
  {
    if i > 0 {
      NewBeforeSame(a, b, found, i - 1);
    }
  }

  /** Among the new pages, those added are exactly the ones there is room for. */
  lemma OnlyFirst(db: Db, db': Db, parent: Task, found: seq<Found>, room: int)
    requires AddsFirst(db, db', parent, found, room)
    ensures forall i :: 0 <= i < |found| && NewAt(db.tasks, found, i) ==>
              (found[i].id in db'.tasks <==> NewBefore(db.tasks, found, i) < room)
    ensures forall i :: 0 <= i < |found| && NewAt(db.tasks, found, i) && found[i].id in db'.tasks ==>
              Queued(db'.tasks[found[i].id], parent, found[i], db.now)
    ensures forall u :: u in db'.tasks && u !in db.tasks ==> exists i :: 0 <= i < |found| && found[i].id == u
  {
    hide Queued;
    forall i | 0 <= i < |found| && NewAt(db.tasks, found, i) && found[i].id in db'.tasks
      ensures NewBefore(db.tasks, found, i) < room
    {
      var k :| 0 <= k < |found| && found[k].id == found[i].id && NewAt(db.tasks, found, k) && NewBefore(db.tasks, found, k) < room;
      assert k == i;
    }
  }

  // ---- how a lease ends ---------------------------------------------------------------------

  predicate Exhausted(j: Job, s: TaskState) { s.PermanentFailed? && j.failed + 1 >= j.maxFailures }

  /** What becomes of another task's row: it stays, unless its job is stopped while it is still queued. */
  predicate Bystander(t: Task, t': Task, jid: JobId, stops: bool) {
    if stops && t.job == jid && (t.state.Pending? || t.state.RetryWait? || t.state.WaitingInput?)
    then t'.state.PermanentFailed? && t' == Unleased(t, PermanentFailed)
    else t' == t
  }

  /** No lease of the job is left but that of `tid`. */
  predicate LastLease(db: Db, tid: TaskId)
    requires tid in db.tasks
  {
    forall u :: u in db.tasks && u != tid && db.tasks[u].job == db.tasks[tid].job ==> !db.tasks[u].state.Leased?
  }

  /**
    The lease of `tid` has ended in state `s`: the whole reservation is back, `charged` bytes are booked, the origin
    is free, and the job's queue is stopped or left alone.  A cancelled job is over with its last lease.
   */
  ghost predicate LeaseEnded(db: Db, db': Db, tid: TaskId, s: TaskState, charged: nat, stops: bool)
    requires Refs(db) && tid in db.tasks
  {
    var t := db.tasks[tid];
    var j := db.jobs[t.job];
    && tid in db'.tasks && db'.tasks[tid].(availableAt := t.availableAt) == Unleased(t, s)
    && db'.leases == db.leases - {tid} && db'.sessions == db.sessions && db'.tokens == db.tokens
    && t.job in db'.jobs
    && db'.jobs[t.job].reserved == j.reserved - t.bytes
    && db'.jobs[t.job].reservedArtifacts == j.reservedArtifacts - t.artifacts
    && db'.jobs[t.job].downloaded == j.downloaded + charged
    && db'.jobs[t.job].artifacts == j.artifacts && db'.jobs[t.job].succeeded == j.succeeded
    && db'.jobs[t.job].state == (if IsTerminal(s) && j.cancelRequested && LastLease(db, tid) then JobCancelled else j.state)
    && (forall u :: u in db.tasks && u != tid ==> u in db'.tasks && Bystander(db.tasks[u], db'.tasks[u], t.job, stops))
    && (forall i :: i in db.jobs && i != t.job ==> i in db'.jobs && db'.jobs[i] == db.jobs[i])
  }

  lemma TerminalizeEnds(db: Db, tid: TaskId, s: TaskState)
    requires Inv(db) && Refs(db) && tid in db.tasks && IsTerminal(s)
    ensures LeaseEnded(db, Terminalize(db, tid, s), tid, s, 0, Exhausted(db.jobs[db.tasks[tid].job], s))
  {
    hide Inv;
    hide IsQueued;
    hide LastLease;
    hide HasLeased;
    hide Bystander;
    RowFacts(db, tid);
    LastLeaseLeft(db, tid, s);
    forall u | u in db.tasks && u != tid
      ensures u in Terminalize(db, tid, s).tasks
      ensures Bystander(db.tasks[u], Terminalize(db, tid, s).tasks[u], db.tasks[tid].job, Exhausted(db.jobs[db.tasks[tid].job], s))
    {
      TerminalizeBystander(db, tid, s, u);
    }
  }

  lemma TerminalizeBystander(db: Db, tid: TaskId, s: TaskState, u: TaskId)
    requires Refs(db) && tid in db.tasks && u in db.tasks && u != tid
    ensures u in Terminalize(db, tid, s).tasks
    ensures Bystander(db.tasks[u], Terminalize(db, tid, s).tasks[u], db.tasks[tid].job, Exhausted(db.jobs[db.tasks[tid].job], s))
  {
    hide HasLeased;
  }

  lemma LastLeaseLeft(db: Db, tid: TaskId, s: TaskState)
    requires tid in db.tasks && IsTerminal(s)
    ensures LastLease(db, tid) <==> !HasLeased(db.tasks[tid := Unleased(db.tasks[tid], s)], db.tasks[tid].job)
  {
    var tasks, jid := db.tasks[tid := Unleased(db.tasks[tid], s)], db.tasks[tid].job;
    if !LastLease(db, tid) {
      var u :| u in db.tasks && u != tid && db.tasks[u].job == jid && db.tasks[u].state.Leased?;
      assert tasks[u] == db.tasks[u];
    }
  }

  /** A live lease, seen from a job that is neither cancelled nor over its deadline. */
  predicate LiveLease(db: Db, tid: TaskId, token: LeaseToken)
    requires Refs(db)
  {
    && tid in db.tasks && db.tasks[tid].state.Leased? && db.tasks[tid].lease == Some(token)
    && !db.jobs[db.tasks[tid].job].cancelRequested && db.now < db.jobs[db.tasks[tid].job].deadline
  }

  /** What a report under the lease of a job that is over comes to: the task ends, and the answer is no. */
  ghost predicate Refused(db: Db, db': Db, tid: TaskId, token: LeaseToken)
    requires Refs(db) && !LiveLease(db, tid, token)
  {
    if tid in db.tasks && db.tasks[tid].state.Leased? && db.tasks[tid].lease == Some(token) then
      var j := db.jobs[db.tasks[tid].job];
      if j.cancelRequested then LeaseEnded(db, db', tid, Cancelled, 0, false)
      else LeaseEnded(db, db', tid, PermanentFailed, 0, j.failed + 1 >= j.maxFailures)
    else db' == db
  }

  lemma ForcedEnds(db: Db, tid: TaskId, token: LeaseToken)
    requires Inv(db) && Refs(db)
    ensures LiveLease(db, tid, token) <==> Fenced(db, tid, token) && InactiveState(db, tid) == None
    ensures !LiveLease(db, tid, token) ==>
              Refused(db, if Fenced(db, tid, token) then Terminalize(db, tid, InactiveState(db, tid).value) else db, tid, token)
  {
    hide Inv;
    hide Terminalize;
    hide LeaseEnded;
    if Fenced(db, tid, token) {
      TerminalizeEnds(db, tid, Cancelled);
      TerminalizeEnds(db, tid, PermanentFailed);
    }
  }

  /** The bytes a failed attempt is charged: what it reports, but no more than it held. */
  function Charged(t: Task, reported: int): (c: nat)
    ensures 0 <= c <= t.bytes && (0 <= reported <= t.bytes ==> c == reported)
    ensures reported < 0 ==> c == 0
    ensures reported > t.bytes ==> c == t.bytes
  {
    ActualBytes(t, reported)
  }

  /** A retry goes back to the queue for the time asked, or ends as a failure once the attempts are used up. */
  lemma RetryDecides(db: Db, tid: TaskId, token: LeaseToken, at: int, reported: int)
    requires Inv(db) && Refs(db)
    ensures var (db', ok) := Retry(db, tid, token, at, reported);
            && (ok <==> LiveLease(db, tid, token))
            && (!ok ==> Refused(db, db', tid, token))
            && (ok && db.tasks[tid].attempts < db.tasks[tid].maxAttempts ==>
                  && LeaseEnded(db, db', tid, RetryWait, Charged(db.tasks[tid], reported), false)
                  && db'.tasks[tid].availableAt == at)
            && (ok && db.tasks[tid].attempts >= db.tasks[tid].maxAttempts ==>
                  LeaseEnded(db, db', tid, PermanentFailed, Charged(db.tasks[tid], reported),
                             Exhausted(db.jobs[db.tasks[tid].job], PermanentFailed)))
  {
    hide Inv;
    hide Terminalize;
    hide LeaseEnded;
    hide Requeue;
    hide Charge;
    hide Refused;
    ForcedEnds(db, tid, token);
    if LiveLease(db, tid, token) {
      RequeueEnds(db, tid, at, ActualBytes(db.tasks[tid], reported));
      FailureEnds(db, tid, reported);
    }
  }

  lemma RequeueEnds(db: Db, tid: TaskId, at: int, downloaded: nat)
    requires Inv(db) && Refs(db) && tid in db.tasks
    ensures LeaseEnded(db, Requeue(db, tid, at, downloaded), tid, RetryWait, downloaded, false)
    ensures Requeue(db, tid, at, downloaded).tasks[tid].availableAt == at
  {
    hide Inv;
    RowFacts(db, tid);
  }

  lemma FailureEnds(db: Db, tid: TaskId, reported: int)
    requires Inv(db) && Refs(db) && tid in db.tasks
    ensures db.tasks[tid].job in Terminalize(db, tid, PermanentFailed).jobs
    ensures LeaseEnded(db, Charge(Terminalize(db, tid, PermanentFailed), db.tasks[tid].job, ActualBytes(db.tasks[tid], reported)),
                       tid, PermanentFailed, Charged(db.tasks[tid], reported), Exhausted(db.jobs[db.tasks[tid].job], PermanentFailed))
  {
    hide Inv;
    hide Terminalize;
    hide Bystander;
    TerminalizeEnds(db, tid, PermanentFailed);
  }

  /** A failure or a robots block ends the task, and the failure that reaches the job's limit stops its queue. */
  lemma FailDecides(db: Db, tid: TaskId, token: LeaseToken, reported: int)
    requires Inv(db) && Refs(db)
    ensures var (db', ok) := Fail(db, tid, token, reported);
            && (ok <==> LiveLease(db, tid, token))
            && (!ok ==> Refused(db, db', tid, token))
            && (ok ==> LeaseEnded(db, db', tid, PermanentFailed, Charged(db.tasks[tid], reported),
                                  Exhausted(db.jobs[db.tasks[tid].job], PermanentFailed)))
    ensures var (db', ok) := BlockRobots(db, tid, token);
            && (ok <==> LiveLease(db, tid, token))
            && (!ok ==> Refused(db, db', tid, token))
            && (ok ==> LeaseEnded(db, db', tid, BlockedRobots, 0, false))
  {
    hide Inv;
    hide Terminalize;
    hide LeaseEnded;
    hide Charge;
    hide Refused;
    ForcedEnds(db, tid, token);
    if LiveLease(db, tid, token) {
      FailureEnds(db, tid, reported);
      TerminalizeEnds(db, tid, BlockedRobots);
    }
  }

  /** A completion outside its reservation fails the task, is charged what it held, and stops the whole queue of the job. */
  lemma OverrunStopsTheJob(db: Db, tid: TaskId, token: LeaseToken, reported: int, artifactBytes: nat, found: seq<Found>)
    requires Inv(db) && Refs(db)
    ensures var (db', ok) := Complete(db, tid, token, reported, artifactBytes, found);
            && (!LiveLease(db, tid, token) ==> !ok && Refused(db, db', tid, token))
            && (LiveLease(db, tid, token) && (reported > db.tasks[tid].bytes || artifactBytes > db.tasks[tid].artifacts) ==>
                  !ok && LeaseEnded(db, db', tid, PermanentFailed, Charged(db.tasks[tid], reported), true))
  {
    hide Inv;
    hide Terminalize;
    hide Charge;
    hide Drain;
    hide LeaseEnded;
    hide Refused;
    hide Succeed;
    hide InsertFound;
    ForcedEnds(db, tid, token);
    if LiveLease(db, tid, token) {
      FailureEnds(db, tid, reported);
      JobStays(db, tid, ActualBytes(db.tasks[tid], reported));
      StopEnds(db, Charge(Terminalize(db, tid, PermanentFailed), db.tasks[tid].job, ActualBytes(db.tasks[tid], reported)),
               tid, Charged(db.tasks[tid], reported), Exhausted(db.jobs[db.tasks[tid].job], PermanentFailed));
    }
  }

  lemma JobStays(db: Db, tid: TaskId, downloaded: nat)
    requires Refs(db) && tid in db.tasks && db.tasks[tid].job in Terminalize(db, tid, PermanentFailed).jobs
    ensures db.tasks[tid].job in Charge(Terminalize(db, tid, PermanentFailed), db.tasks[tid].job, downloaded).jobs
  {
    hide Terminalize;
  }

  lemma StopEnds(db: Db, mid: Db, tid: TaskId, charged: nat, stops: bool)
    requires Inv(db) && Refs(db) && tid in db.tasks && db.tasks[tid].state.Leased? && db.tasks[tid].job in mid.jobs
    requires LeaseEnded(db, mid, tid, PermanentFailed, charged, stops)
    ensures LeaseEnded(db, Drain(mid, db.tasks[tid].job), tid, PermanentFailed, charged, true)
  {
    hide Inv;
  }

  /** A heartbeat renews a live lease for another two minutes, and changes nothing else. */
  lemma HeartbeatRenews(db: Db, tid: TaskId, token: LeaseToken)
    requires Inv(db) && Refs(db)
    ensures var (db', ok) := Heartbeat(db, tid, token);
            && (ok <==> LiveLease(db, tid, token))
            && (!ok ==> Refused(db, db', tid, token))
            && (ok ==> db' == db.(tasks := db.tasks[tid := db.tasks[tid].(leaseExpires := db.now + 120)]))
  {
    hide Inv;
    hide Terminalize;
    hide LeaseEnded;
    hide Refused;
    ForcedEnds(db, tid, token);
    if LiveLease(db, tid, token) {
      LeasedHoldsOrigin(db, tid);
      assert db.jobs[db.tasks[tid].job := db.jobs[db.tasks[tid].job]] == db.jobs;
    }
  }

  lemma LeasedHoldsOrigin(db: Db, tid: TaskId)
    requires Inv(db) && tid in db.tasks && db.tasks[tid].state.Leased?
    ensures tid in db.leases
  {
    hide Core;
    hide SessionsOk;
    hide TokensOk;
  }

  /** An expired lease is reaped: the task is due again at once, or ends with its job or its attempts. */
  lemma ReapDecides(db: Db, tid: TaskId)
    requires Inv(db) && Refs(db) && tid in db.tasks
    ensures var db', t, j := Reap(db, tid), db.tasks[tid], db.jobs[db.tasks[tid].job];
            var due := t.state.Leased? && t.leaseExpires <= db.now;
            && (!due ==> db' == db)
            && (due && j.cancelRequested ==> LeaseEnded(db, db', tid, Cancelled, 0, false))
            && (due && !j.cancelRequested && (j.deadline <= db.now || t.attempts >= t.maxAttempts) ==>
                  LeaseEnded(db, db', tid, PermanentFailed, 0, Exhausted(j, PermanentFailed)))
            && (due && !j.cancelRequested && j.deadline > db.now && t.attempts < t.maxAttempts ==>
                  LeaseEnded(db, db', tid, RetryWait, 0, false) && db'.tasks[tid].availableAt == db.now)
  {
    hide Inv;
    hide Terminalize;
    hide LeaseEnded;
    hide Requeue;
    TerminalizeEnds(db, tid, Cancelled);
    TerminalizeEnds(db, tid, PermanentFailed);
    RequeueEnds(db, tid, db.now, 0);
  }

  // ---- claims that lease nothing, and claims for a resuming session -------------------------

  predicate NoBudget(j: Job, t: Task) {
    j.downloaded + j.reserved >= j.maxBytes || t.responseCap == 0 || j.artifacts + j.reservedArtifacts >= j.maxArtifacts
  }

  /** A claim that leases nothing changes nothing, except that a due task without budget stops its job's queue. */
  lemma ClaimOtherwise(db: Db, tid: TaskId, worker: Worker, token: LeaseToken)
    requires Inv(db) && Refs(db) && tid in db.tasks && token !in db.issued && !Claimable(db, tid)
    ensures var db', t, j := Claim(db, tid, worker, token), db.tasks[tid], db.jobs[db.tasks[tid].job];
            var due := && (t.state.Pending? || t.state.RetryWait?) && t.availableAt <= db.now
                       && !j.cancelRequested && j.deadline > db.now && !OriginBusy(db, t.origin);
            && (!due ==> db' == db)
            && (due ==> NoBudget(j, t) && db'.leases == db.leases && db'.sessions == db.sessions
                        && forall u :: u in db.tasks ==> u in db'.tasks && Bystander(db.tasks[u], db'.tasks[u], t.job, true))
  {
    hide Inv;
    hide OriginBusy;
    OriginIdle(db, db.tasks[tid].origin);
  }

  /** A resuming session of this process's own worker leases its parked task again, as the same attempt, and only so. */
  lemma ResumeLeasesAgain(db: Db, sid: SessionId, worker: Worker, token: LeaseToken)
    requires Inv(db) && Refs(db) && sid in db.sessions && token !in db.issued
    ensures var s := db.sessions[sid];
            var t, j, db' := db.tasks[s.task], db.jobs[db.tasks[s.task].job], ResumeClaim(db, sid, worker, token);
            var granted := && s.remote == None && s.state.Resuming? && s.expires > db.now && t.state.WaitingInput?
                           && !j.cancelRequested && j.deadline > db.now && !OriginBusy(db, t.origin) && !NoBudget(j, t);
            && (!granted ==> db' == db)
            && (granted ==>
                  && OnlyTask(db, db', s.task) && db'.sessions == db.sessions && s.task in db'.tasks && t.job in db'.jobs
                  && db'.tasks[s.task].state.Leased? && db'.tasks[s.task].lease == Some(token)
                  && db'.tasks[s.task].owner == Some(worker) && db'.tasks[s.task].leaseExpires == db.now + 120
                  && db'.tasks[s.task].attempts == t.attempts
                  && db'.jobs[t.job].reserved == j.reserved + db'.tasks[s.task].bytes
                  && 0 < db'.tasks[s.task].bytes <= t.responseCap && 0 < db'.tasks[s.task].artifacts
                  && (db'.tasks[s.task].bytes == t.responseCap || j.downloaded + db'.jobs[t.job].reserved == j.maxBytes))
  {
    hide Inv;
    hide OriginBusy;
  }

  // ---- the life of a job --------------------------------------------------------------------

  /** A job is submitted with one page to its name: due now, counted as discovered, and nothing spent. */
  lemma SubmissionQueuesOnePage(db: Db, jid: JobId, tid: TaskId, s: Submission)
    requires jid !in db.jobs && tid !in db.tasks && s.maxPages > 0
    ensures var db' := Submit(db, jid, tid, s);
            && jid in db'.jobs && tid in db'.tasks && db'.jobs[jid].state.JobPending? && !db'.jobs[jid].cancelRequested
            && db'.tasks[tid].state.Pending? && db'.tasks[tid].job == jid && db'.tasks[tid].origin == s.origin
            && db'.tasks[tid].availableAt == db.now && db'.tasks[tid].attempts == 0 && db'.tasks[tid].responseCap == s.responseCap
            && db'.jobs[jid].discovered == 1 && db'.jobs[jid].terminal == db'.jobs[jid].downloaded == db'.jobs[jid].reserved == 0
            && db'.jobs[jid].deadline == s.deadline && db'.jobs[jid].maxPages == s.maxPages && db'.jobs[jid].maxBytes == s.maxBytes
            && db'.jobs[jid].maxArtifacts == s.maxArtifacts && db'.jobs[jid].maxFailures == s.maxFailures
            && db'.tasks - {tid} == db.tasks && db'.jobs - {jid} == db.jobs
            && db'.sessions == db.sessions && db'.leases == db.leases
  {
    hide CountState;
  }

  predicate SomeTask(tasks: map<TaskId, Task>, jid: JobId, s: TaskState) {
    exists t :: t in tasks && tasks[t].job == jid && tasks[t].state == s
  }

  /** Something of the job is still to come: a lease, or a queued task before the deadline. */
  predicate Unfinished(db: Db, jid: JobId, expired: bool) {
    exists t :: t in db.tasks && db.tasks[t].job == jid
                && (db.tasks[t].state.Leased? || (!expired && !IsTerminal(db.tasks[t].state)))
  }

  /** The judgement on a job of which nothing is to come. */
  ghost predicate Judged(db: Db, jid: JobId, expired: bool, state: JobState)
    requires jid in db.jobs
  {
    var cancelled := db.jobs[jid].cancelRequested;
    var succeeded, failed := SomeTask(db.tasks, jid, Succeeded), SomeTask(db.tasks, jid, PermanentFailed);
    var blocked := SomeTask(db.tasks, jid, BlockedRobots);
    && (state.JobCancelled? <==> cancelled)
    && (state.JobTimedOut? <==> !cancelled && expired)
    && (state.JobPartial? <==> !cancelled && !expired && succeeded && failed)
    && (state.JobFailed? <==> !cancelled && !expired && !succeeded && (failed || !blocked))
    && (state.JobCompleted? <==> !cancelled && !expired && !failed && (succeeded || blocked))
    && !state.JobPending? && !state.JobRunning?
  }

  /**
    Finalizing a live job: its deadline cancels everything queued, and once nothing is left to come the job is
    judged by its tasks, once and for all.
   */
  lemma FinalizeJudges(db: Db, jid: JobId)
    requires jid in db.jobs
    ensures var db', j, expired := Finalize(db, jid), db.jobs[jid], db.jobs[jid].deadline <= db.now;
            && jid in db'.jobs
            && (IsFinished(j.state) ==> db' == db)
            && (!IsFinished(j.state) ==>
                  && (if Unfinished(db, jid, expired) then db'.jobs[jid].state == j.state
                      else Judged(db, jid, expired, db'.jobs[jid].state))
                  && (forall t :: t in db.tasks ==> t in db'.tasks)
                  && (forall t :: t in db.tasks ==>
                        db'.tasks[t] == if expired && db.tasks[t].job == jid && IsQueued(db.tasks[t].state)
                                        then db.tasks[t].(state := Cancelled) else db.tasks[t]))
  {
    hide CountState;
    hide Verdict;
    hide HasNonterminal;
    hide Unfinished;
    hide Judged;
    hide SomeTask;
    if !IsFinished(db.jobs[jid].state) {
      var expired := db.jobs[jid].deadline <= db.now;
      var tasks := Bulk(db.tasks, if expired then QueuedIds(db.tasks, jid) else {}, Cancelled, false);
      LeftToCome(db, jid, expired);
      SweepKeepsState(db, jid, expired, Succeeded);
      SweepKeepsState(db, jid, expired, BlockedRobots);
      SweepKeepsState(db, jid, expired, PermanentFailed);
      CountedIffSome(tasks, jid, Succeeded);
      CountedIffSome(tasks, jid, BlockedRobots);
      CountedIffSome(tasks, jid, PermanentFailed);
      VerdictJudges(db, jid, expired, CountState(tasks, jid, Succeeded), CountState(tasks, jid, BlockedRobots),
                    CountState(tasks, jid, PermanentFailed));
    }
  }

  lemma VerdictJudges(db: Db, jid: JobId, expired: bool, succeeded: nat, blocked: nat, failed: nat)
    requires jid in db.jobs
    requires succeeded > 0 <==> SomeTask(db.tasks, jid, Succeeded)
    requires blocked > 0 <==> SomeTask(db.tasks, jid, BlockedRobots)
    requires failed > 0 <==> SomeTask(db.tasks, jid, PermanentFailed)
    ensures Judged(db, jid, expired, Verdict(db.jobs[jid], expired, succeeded, blocked, failed))
  {
    hide SomeTask;
  }

  lemma CountedIffSome(tasks: map<TaskId, Task>, jid: JobId, s: TaskState)
    ensures CountState(tasks, jid, s) > 0 <==> SomeTask(tasks, jid, s)
  {
    var rows := set t | t in tasks && tasks[t].job == jid && tasks[t].state == s;
    if SomeTask(tasks, jid, s) {
      var t :| t in tasks && tasks[t].job == jid && tasks[t].state == s;
      assert t in rows;
    } else {
      assert rows == {};
    }
  }

  /** Cancelling what is queued makes and ends no task in a state that is neither queued nor cancelled. */
  lemma SweepKeepsState(db: Db, jid: JobId, expired: bool, s: TaskState)
    requires IsTerminal(s) && !s.Cancelled?
    ensures SomeTask(Bulk(db.tasks, if expired then QueuedIds(db.tasks, jid) else {}, Cancelled, false), jid, s)
            <==> SomeTask(db.tasks, jid, s)
  {
    var tasks := Bulk(db.tasks, if expired then QueuedIds(db.tasks, jid) else {}, Cancelled, false);
    if SomeTask(db.tasks, jid, s) {
      var t :| t in db.tasks && db.tasks[t].job == jid && db.tasks[t].state == s;
      assert tasks[t] == db.tasks[t];
    }
  }

  lemma LeftToCome(db: Db, jid: JobId, expired: bool)
    ensures HasNonterminal(Bulk(db.tasks, if expired then QueuedIds(db.tasks, jid) else {}, Cancelled, false), jid)
            <==> Unfinished(db, jid, expired)
  {
    var tasks := Bulk(db.tasks, if expired then QueuedIds(db.tasks, jid) else {}, Cancelled, false);
    if Unfinished(db, jid, expired) {
      var t :| t in db.tasks && db.tasks[t].job == jid
               && (db.tasks[t].state.Leased? || (!expired && !IsTerminal(db.tasks[t].state)));
      assert tasks[t] == db.tasks[t];
    }
  }

  // ---- sessions -----------------------------------------------------------------------------

  /**
    Attaching and resuming move exactly a waiting or connected session that has not run out, and nothing else; and
    only for such a session is a token issued.
   */
  lemma SessionMoves(db: Db, sid: SessionId, scope: Scope, ttl: int, hash: TokenHash)
    requires sid in db.sessions && 1 <= ttl <= 3600 && hash !in db.tokens
    ensures var s := db.sessions[sid];
            var moves := (s.state.Waiting? || s.state.Connected?) && s.expires > db.now;
            && Touch(db, sid) == (if moves then db.(sessions := db.sessions[sid := s.(state := Connected)]) else db, moves)
            && RequestResume(db, sid) == (if moves then db.(sessions := db.sessions[sid := s.(state := Resuming)]) else db, moves)
            && (IssueToken(db, sid, scope, ttl, hash).1 <==> moves)
  {
  }
}
