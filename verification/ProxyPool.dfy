/**
  The egress node pool (app/acquisition/proxy.py:318-520): enrolled and configured nodes, their cooldowns
  after a block, and the leases that bind a task to one node.  Each method is one transaction; times are the
  database clock, which never runs backwards.
 */
module ProxyNodes {

  datatype Option<+T> = None | Some(value: T)

  /** Node identifiers, in their text order. */
  type Id = nat

  datatype NodeState = Active | Cooldown | Offline | Revoked

  /** `expires` is None for 'infinity'. */
  datatype Node = Node(state: NodeState, regions: set<string>, expires: Option<int>, cooldownUntil: Option<int>, failures: nat)

  datatype Lease = Lease(node: Id, token: nat, expires: int)

  datatype Configured = Configured(id: Id, regions: set<string>)

  /** A block that took effect; the log of them is history. */
  datatype Block = Block(node: Id, at: int, seconds: int)

  datatype Pool = Pool(nodes: map<Id, Node>, leases: map<nat, Lease>, blocks: seq<Block>)

  datatype Outcome = Blocked | Transport | OtherOutcome

  /** The task asking, and what the database says of it: its lease is live; its attempt is unfinished. */
  datatype Asking = Asking(task: nat, token: nat, live: bool, attemptOpen: bool)

  // ---- the statements ----

  function Merged(p: Pool, c: Configured): Pool {
    if c.id !in p.nodes then p.(nodes := p.nodes[c.id := Node(Active, c.regions, None, None, 0)])
    else if p.nodes[c.id].state.Revoked? then p
    else p.(nodes := p.nodes[c.id := p.nodes[c.id].(regions := c.regions)])
  }

  function MergedAll(p: Pool, configured: seq<Configured>): Pool {
    if configured == [] then p
    else Merged(MergedAll(p, configured[..|configured| - 1]), configured[|configured| - 1])
  }

  function Registered(p: Pool, id: Id, regions: set<string>, expires: int): Pool {
    if id !in p.nodes then p.(nodes := p.nodes[id := Node(Active, regions, Some(expires), None, 0)])
    else
      var n := p.nodes[id];
      p.(nodes := p.nodes[id := n.(regions := regions, expires := Some(expires),
                                   state := if n.state.Revoked? then Revoked else Active)])
  }

  function Revoking(p: Pool, id: Id): Pool {
    if id in p.nodes then p.(nodes := p.nodes[id := p.nodes[id].(state := Revoked)]) else p
  }

  predicate Fenced(p: Pool, now: int, id: Id, asking: Option<Asking>) {
    asking.None? ||
    (&& asking.value.task in p.leases
     && p.leases[asking.value.task].node == id && p.leases[asking.value.task].token == asking.value.token
     && p.leases[asking.value.task].expires > now && asking.value.live)
  }

  predicate Marks(p: Pool, now: int, id: Id, asking: Option<Asking>) {
    id in p.nodes && !p.nodes[id].state.Revoked? && Fenced(p, now, id, asking)
  }

  function BlockedAt(p: Pool, now: int, id: Id, seconds: int): Pool
    requires id in p.nodes
  {
    var n := p.nodes[id];
    p.(nodes := p.nodes[id := n.(state := Cooldown, cooldownUntil := Some(now + seconds), failures := n.failures + 1)],
       blocks := p.blocks + [Block(id, now, seconds)])
  }

  function Dropped(p: Pool, id: Id, offlineAfter: int): Pool
    requires id in p.nodes
  {
    var n := p.nodes[id];
    p.(nodes := p.nodes[id := n.(failures := n.failures + 1,
                                 state := if n.failures + 1 >= offlineAfter then Offline else n.state)])
  }

  function Purged(p: Pool, now: int): Pool {
    p.(leases := map t | t in p.leases && p.leases[t].expires > now :: p.leases[t])
  }

  predicate Eligible(p: Pool, now: int, region: Option<string>, id: Id) {
    && id in p.nodes
    && p.nodes[id].state.Active?
    && (p.nodes[id].expires.Some? ==> p.nodes[id].expires.value > now)
    && (p.nodes[id].cooldownUntil.Some? ==> p.nodes[id].cooldownUntil.value <= now)
    && (region.Some? ==> region.value in p.nodes[id].regions)
  }

  function Load(p: Pool, now: int, id: Id): nat { |set t | t in p.leases && p.leases[t].node == id && p.leases[t].expires > now| }

  predicate NoBusier(p: Pool, now: int, a: Id, b: Id) {
    Load(p, now, a) < Load(p, now, b) || (Load(p, now, a) == Load(p, now, b) && a <= b)
  }

  /** The least loaded eligible node that no other transaction holds, the first id among equals. */
  predicate IsPick(p: Pool, now: int, region: Option<string>, locked: set<Id>, pick: Option<Id>) {
    match pick
    case None => forall id :: id in p.nodes && id !in locked ==> !Eligible(p, now, region, id)
    case Some(n) =>
      && n !in locked && Eligible(p, now, region, n)
      && forall id :: id in p.nodes && id !in locked && Eligible(p, now, region, id) ==> NoBusier(p, now, n, id)
  }

  const LEASE_SECONDS: int := 120

  /** What follows the choice: the lease, unless the task has one, and the attempt it belongs to. */
  function Bound(p: Pool, now: int, asking: Option<Asking>, pick: Option<Id>): (Pool, Option<Id>) {
    if pick.None? || asking.None? then (p, pick)
    else
      var a := asking.value;
      var leases := if a.task in p.leases then p.leases
                    else p.leases[a.task := Lease(pick.value, a.token, now + LEASE_SECONDS)];
      if a.attemptOpen then (p.(leases := leases), pick) else (p.(leases := Unleased(leases, a.task, a.token)), None)
  }

  function Unleased(leases: map<nat, Lease>, task: nat, token: nat): map<nat, Lease> {
    if task in leases && leases[task].token == token then leases - {task} else leases
  }

  /** select: merge, purge, refuse a task whose lease is gone, then choose. */
  function Prepared(p: Pool, configured: seq<Configured>, now: int): Pool { Purged(MergedAll(p, configured), now) }

  function Selected(p: Pool, configured: seq<Configured>, now: int, asking: Option<Asking>, pick: Option<Id>): (Pool, Option<Id>) {
    var ready := Prepared(p, configured, now);
    if asking.Some? && !asking.value.live then (ready, None) else Bound(ready, now, asking, pick)
  }

  // ---- runs ----

  datatype Op =
    | Register(id: Id, regions: set<string>, expires: int)
    | Heartbeat(id: Id)
    | MarkFailure(id: Id, outcome: Outcome, seconds: int, offlineAfter: int, asking: Option<Asking>)
    | Select(region: Option<string>, locked: set<Id>, askingFor: Option<Asking>, pick: Option<Id>)
    | Release(task: nat, token: nat)
    | Revoke(id: Id)

  datatype Event = Event(at: int, op: Op)

  function Apply(p: Pool, configured: seq<Configured>, e: Event): Pool {
    match e.op
    case Register(id, regions, expires) => if expires > e.at then Registered(p, id, regions, expires) else p
    case Heartbeat(_) => p
    case MarkFailure(id, outcome, seconds, offlineAfter, asking) =>
      if seconds < 1 || offlineAfter < 1 || !Marks(p, e.at, id, asking) then p
      else (match outcome
            case Blocked => BlockedAt(p, e.at, id, seconds)
            case Transport => Dropped(p, id, offlineAfter)
            case OtherOutcome => p)
    case Select(region, locked, asking, pick) =>
      if IsPick(Prepared(p, configured, e.at), e.at, region, locked, pick) then Selected(p, configured, e.at, asking, pick).0 else p
    case Release(task, token) => p.(leases := Unleased(p.leases, task, token))
    case Revoke(id) => Revoking(p, id)
  }

  function Run(p: Pool, configured: seq<Configured>, events: seq<Event>): Pool
    decreases |events|
  {
    if events == [] then p else Run(Apply(p, configured, events[0]), configured, events[1..])
  }

  // ---- a block lasts ----

  /** When the latest block of a node ends. */
  function LastEnd(blocks: seq<Block>, id: Id): Option<int> {
    if blocks == [] then None
    else
      var b := blocks[|blocks| - 1];
      if b.node == id then Some(b.at + b.seconds) else LastEnd(blocks[..|blocks| - 1], id)
  }

  function CooldownOf(p: Pool, id: Id): Option<int> { if id in p.nodes then p.nodes[id].cooldownUntil else None }

  /** A node's cooldown is always the end of its latest block: nothing else moves it. */
  ghost predicate Cooled(p: Pool) { forall id :: CooldownOf(p, id) == LastEnd(p.blocks, id) }

  lemma LastEndSnoc(blocks: seq<Block>, b: Block)
    ensures forall id :: LastEnd(blocks + [b], id) == if b.node == id then Some(b.at + b.seconds) else LastEnd(blocks, id)
  {
    assert (blocks + [b])[..|blocks|] == blocks;
  }

  lemma {:induction false} MergedKeeps(p: Pool, configured: seq<Configured>)
    requires Cooled(p)
    ensures Cooled(MergedAll(p, configured)) && MergedAll(p, configured).blocks == p.blocks
    ensures MergedAll(p, configured).leases == p.leases
    ensures forall id :: id in p.nodes ==>
              id in MergedAll(p, configured).nodes && MergedAll(p, configured).nodes[id].state == p.nodes[id].state
  {
    hide LastEnd;
    if configured != [] {
      var c := configured[|configured| - 1];
      MergedKeeps(p, configured[..|configured| - 1]);
      var q := MergedAll(p, configured[..|configured| - 1]);
      assert CooldownOf(q, c.id) == LastEnd(q.blocks, c.id);
      forall id ensures CooldownOf(Merged(q, c), id) == CooldownOf(q, id) {}
    }
  }

  lemma ApplyKeeps(p: Pool, configured: seq<Configured>, e: Event)
    requires Cooled(p)
    ensures Cooled(Apply(p, configured, e))
  {
    hide LastEnd;
    hide IsPick;
    hide MergedAll;
    hide Fenced;
    MergedKeeps(p, configured);
    var p1 := Apply(p, configured, e);
    match e.op
    case MarkFailure(id, _, seconds, _, _) =>
      LastEndSnoc(p.blocks, Block(id, e.at, seconds));
      forall i ensures CooldownOf(p1, i) == LastEnd(p1.blocks, i) {
        assert CooldownOf(p, i) == LastEnd(p.blocks, i);
      }
    case Select(_, _, _, _) =>
      assert p1.nodes == p.nodes || p1.nodes == MergedAll(p, configured).nodes;
      forall i ensures CooldownOf(p1, i) == LastEnd(p1.blocks, i) {
        assert CooldownOf(p, i) == LastEnd(p.blocks, i);
        assert CooldownOf(MergedAll(p, configured), i) == LastEnd(p.blocks, i);
      }
    case _ =>
      forall i ensures CooldownOf(p1, i) == LastEnd(p1.blocks, i) {
        assert CooldownOf(p, i) == LastEnd(p.blocks, i);
      }
  }

  lemma {:induction false} RunKeeps(p: Pool, configured: seq<Configured>, events: seq<Event>)
    requires Cooled(p)
    ensures Cooled(Run(p, configured, events))
    decreases |events|
  {
    hide Apply;
    hide Cooled;
    if events != [] {
      ApplyKeeps(p, configured, events[0]);
      RunKeeps(Apply(p, configured, events[0]), configured, events[1..]);
    }
  }

  /** Whatever happened before, a node is not selected before the end of its latest block. */
  lemma NotBeforeLastBlockEnds(p: Pool, configured: seq<Configured>, events: seq<Event>, now: int, region: Option<string>,
                               locked: set<Id>, id: Id)
    requires Cooled(p)
    requires IsPick(Prepared(Run(p, configured, events), configured, now), now, region, locked, Some(id))
    ensures LastEnd(Run(p, configured, events).blocks, id).Some? ==> LastEnd(Run(p, configured, events).blocks, id).value <= now
  {
    hide Run;
    hide LastEnd;
    RunKeeps(p, configured, events);
    MergedKeeps(Run(p, configured, events), configured);
    var ready := Prepared(Run(p, configured, events), configured, now);
    assert CooldownOf(MergedAll(Run(p, configured, events), configured), id) == LastEnd(Run(p, configured, events).blocks, id);
  }

  // ---- with one cooldown for every block ----

  /** Blocks in the order of the clock, none later than now, all of the same length. */
  ghost predicate Regular(blocks: seq<Block>, now: int, seconds: int) {
    && (forall i :: 0 <= i < |blocks| ==> blocks[i].seconds == seconds && blocks[i].at <= now)
    && forall i, j :: 0 <= i < j < |blocks| ==> blocks[i].at <= blocks[j].at
  }

  predicate FixedCooldown(e: Event, seconds: int) { e.op.MarkFailure? && e.op.outcome.Blocked? ==> e.op.seconds == seconds }

  ghost predicate Clocked(events: seq<Event>, from: int, to: int, seconds: int) {
    && (forall i :: 0 <= i < |events| ==> from <= events[i].at <= to && FixedCooldown(events[i], seconds))
    && forall i, j :: 0 <= i < j < |events| ==> events[i].at <= events[j].at
  }

  lemma {:induction false} RunRegular(p: Pool, configured: seq<Configured>, events: seq<Event>, from: int, to: int, seconds: int)
    requires Cooled(p) && Regular(p.blocks, from, seconds) && Clocked(events, from, to, seconds) && from <= to
    ensures Regular(Run(p, configured, events).blocks, to, seconds)
    ensures p.blocks <= Run(p, configured, events).blocks
    decreases |events|
  {
    hide Cooled;
    if events != [] {
      var e := events[0];
      ApplyBlocks(p, configured, e);
      ApplyKeeps(p, configured, e);
      RunRegular(Apply(p, configured, e), configured, events[1..], e.at, to, seconds);
    }
  }

  lemma ApplyBlocks(p: Pool, configured: seq<Configured>, e: Event)
    requires Cooled(p)
    ensures Apply(p, configured, e).blocks == p.blocks ||
            (e.op.MarkFailure? && e.op.outcome.Blocked? &&
             Apply(p, configured, e).blocks == p.blocks + [Block(e.op.id, e.at, e.op.seconds)])
  {
    hide IsPick;
    MergedKeeps(p, configured);
  }

  lemma {:induction false} LatestEndsLast(blocks: seq<Block>, now: int, seconds: int, k: nat)
    requires Regular(blocks, now, seconds) && k < |blocks|
    ensures LastEnd(blocks, blocks[k].node).Some? && LastEnd(blocks, blocks[k].node).value >= blocks[k].at + seconds
  {
    var n := |blocks| - 1;
    if blocks[n].node != blocks[k].node {
      LatestEndsLast(blocks[..n], now, seconds, k);
    }
  }

  /**
    With one cooldown length and a clock that does not run backwards, a node blocked at time t is never
    selected before t + cooldown, whatever registrations, heartbeats, merges and failures come between.
   */
  lemma BlockedStaysOut(p: Pool, configured: seq<Configured>, events: seq<Event>, from: int, now: int, seconds: int,
                        k: nat, region: Option<string>, locked: set<Id>)
    requires Cooled(p) && Regular(p.blocks, from, seconds) && Clocked(events, from, now, seconds) && from <= now
    requires k < |Run(p, configured, events).blocks|
    requires IsPick(Prepared(Run(p, configured, events), configured, now), now, region, locked,
                    Some(Run(p, configured, events).blocks[k].node))
    ensures Run(p, configured, events).blocks[k].at + seconds <= now
  {
    hide Run;
    hide IsPick;
    var blocks := Run(p, configured, events).blocks;
    RunRegular(p, configured, events, from, now, seconds);
    LatestEndsLast(blocks, now, seconds, k);
    NotBeforeLastBlockEnds(p, configured, events, now, region, locked, blocks[k].node);
  }

  // ---- only registration brings a node back, and nothing brings back a revoked one ----

  predicate Brings(e: Event, id: Id) { e.op.Register? && e.op.id == id }

  lemma ApplyStaysOut(p: Pool, configured: seq<Configured>, e: Event, id: Id)
    requires Cooled(p) && id in p.nodes && !p.nodes[id].state.Active?
    ensures id in Apply(p, configured, e).nodes
    ensures p.nodes[id].state.Revoked? ==> Apply(p, configured, e).nodes[id].state.Revoked?
    ensures !Brings(e, id) ==> !Apply(p, configured, e).nodes[id].state.Active?
  {
    hide Cooled;
    hide MergedAll;
    hide IsPick;
    hide Fenced;
    MergedKeeps(p, configured);
  }

  lemma {:induction false} RunStaysOut(p: Pool, configured: seq<Configured>, events: seq<Event>, id: Id)
    requires Cooled(p) && id in p.nodes && !p.nodes[id].state.Active?
    requires p.nodes[id].state.Revoked? || forall i :: 0 <= i < |events| ==> !Brings(events[i], id)
    ensures var q := Run(p, configured, events);
            id in q.nodes && !q.nodes[id].state.Active? && (p.nodes[id].state.Revoked? ==> q.nodes[id].state.Revoked?)
    decreases |events|
  {
    hide Apply;
    hide Cooled;
    if events != [] {
      ApplyStaysOut(p, configured, events[0], id);
      ApplyKeeps(p, configured, events[0]);
      RunStaysOut(Apply(p, configured, events[0]), configured, events[1..], id);
    }
  }

  /**
    A revoked node is never selected again; and a blocked or offline one, configured nodes included, not
    until somebody registers it, however long its cooldown has been over.
   */
  lemma OutUntilRegistered(p: Pool, configured: seq<Configured>, events: seq<Event>, id: Id, now: int, region: Option<string>,
                           locked: set<Id>)
    requires Cooled(p) && id in p.nodes && !p.nodes[id].state.Active?
    requires p.nodes[id].state.Revoked? || forall i :: 0 <= i < |events| ==> !Brings(events[i], id)
    ensures !IsPick(Prepared(Run(p, configured, events), configured, now), now, region, locked, Some(id))
  {
    hide Run;
    RunStaysOut(p, configured, events, id);
    RunKeeps(p, configured, events);
    MergedKeeps(Run(p, configured, events), configured);
  }

  // ---- when a block is cut short ----

  /** Registering the node at this time makes it eligible at this time. */
  predicate BackBy(p: Pool, configured: seq<Configured>, now: int, id: Id, regions: set<string>) {
    Eligible(Prepared(Apply(p, configured, Event(now, Register(id, regions, now + 1))), configured, now), now, None, id)
  }

  /** After any run, registering a node that is not revoked brings it back exactly when its latest block is over. */
  lemma BackIffLatestBlockOver(p: Pool, configured: seq<Configured>, events: seq<Event>, now: int, id: Id, regions: set<string>)
    requires Cooled(p)
    requires var q := Run(p, configured, events); id in q.nodes ==> !q.nodes[id].state.Revoked?
    ensures var q := Run(p, configured, events);
            BackBy(q, configured, now, id, regions) <==> (LastEnd(q.blocks, id).Some? ==> LastEnd(q.blocks, id).value <= now)
  {
    hide Run;
    hide LastEnd;
    RunKeeps(p, configured, events);
    var q := Run(p, configured, events);
    var e := Event(now, Register(id, regions, now + 1));
    var r := Apply(q, configured, e);
    ApplyKeeps(q, configured, e);
    MergedKeeps(r, configured);
    MergedExpires(r, configured, id);
    assert CooldownOf(MergedAll(r, configured), id) == LastEnd(q.blocks, id);
  }

  lemma {:induction false} MergedExpires(p: Pool, configured: seq<Configured>, id: Id)
    requires id in p.nodes
    ensures id in MergedAll(p, configured).nodes && MergedAll(p, configured).nodes[id].expires == p.nodes[id].expires
  {
    if configured != [] {
      MergedExpires(p, configured[..|configured| - 1], id);
    }
  }

  /** The events lie on a clock that ends no later than this. */
  predicate Until(events: seq<Event>, now: int) { forall i :: 0 <= i < |events| ==> events[i].at <= now }

  function Later(a: int, b: int): int { if a < b then b else a }

  /**
    After a run that has come to some time, a block can be cut short by a registration from then on if and only if
    it ends later than that time and later than the node's latest block does.
   */
  lemma CutShortIff(p: Pool, configured: seq<Configured>, events: seq<Event>, now: int, k: nat, regions: set<string>)
    requires Cooled(p) && Until(events, now)
    requires var q := Run(p, configured, events);
             k < |q.blocks| && (q.blocks[k].node in q.nodes ==> !q.nodes[q.blocks[k].node].state.Revoked?)
    ensures var q := Run(p, configured, events);
            var b := q.blocks[k];
            LastEnd(q.blocks, b.node).Some? &&
            ((exists at :: now <= at < b.at + b.seconds && BackBy(q, configured, at, b.node, regions))
             <==> Later(now, LastEnd(q.blocks, b.node).value) < b.at + b.seconds)
  {
    hide Run;
    hide LastEnd;
    hide BackBy;
    var q := Run(p, configured, events);
    var b := q.blocks[k];
    SomeEnd(q.blocks, k);
    forall at ensures BackBy(q, configured, at, b.node, regions) <==> LastEnd(q.blocks, b.node).value <= at {
      BackIffLatestBlockOver(p, configured, events, at, b.node, regions);
    }
    assert BackBy(q, configured, Later(now, LastEnd(q.blocks, b.node).value), b.node, regions);
  }

  lemma {:induction false} SomeEnd(blocks: seq<Block>, k: nat)
    requires k < |blocks|
    ensures LastEnd(blocks, blocks[k].node).Some?
  {
    if k < |blocks| - 1 {
      SomeEnd(blocks[..|blocks| - 1], k);
    }
  }

  /** Such a run: blocked at 0 for 300, and again at 1 for 1; registered, it is selected at 2. */
  lemma ShorterBlockReleasesEarly()
    ensures var node := Node(Active, {}, None, None, 0);
            var p := Pool(map[7 := node], map[], []);
            var events := [Event(0, MarkFailure(7, Blocked, 300, 3, None)), Event(1, MarkFailure(7, Blocked, 1, 3, None)),
                           Event(1, Register(7, {}, 1000))];
            IsPick(Prepared(Run(p, [], events), [], 2), 2, None, {}, Some(7))
  {
    var p := Pool(map[7 := Node(Active, {}, None, None, 0)], map[], []);
    var e0 := Event(0, MarkFailure(7, Blocked, 300, 3, None));
    var e1 := Event(1, MarkFailure(7, Blocked, 1, 3, None));
    var e2 := Event(1, Register(7, {}, 1000));
    var p1 := Apply(p, [], e0);
    var p2 := Apply(p1, [], e1);
    var p3 := Apply(p2, [], e2);
    assert p3.nodes == map[7 := Node(Active, {}, Some(1000), Some(2), 2)];
    assert [e0, e1, e2][1..] == [e1, e2] && [e1, e2][1..] == [e2];
    assert Run(p2, [], [e2]) == Run(p3, [], []);
    assert Run(p1, [], [e1, e2]) == Run(p2, [], [e2]);
    assert Prepared(p3, [], 2).nodes == p3.nodes;
  }

  // ---- when the node handed out is the one the lease names ----

  /**
    After any run, a selection for a live task with an open attempt hands out the chosen node; the task's lease
    covers that node if and only if the task had no live lease before, or that lease already named the node
    under the same token.
   */
  lemma LeasedIff(p: Pool, configured: seq<Configured>, events: seq<Event>, now: int, region: Option<string>, locked: set<Id>,
                  a: Asking, pick: Id)
    requires Cooled(p) && a.live && a.attemptOpen
    requires IsPick(Prepared(Run(p, configured, events), configured, now), now, region, locked, Some(pick))
    ensures var q := Run(p, configured, events);
            && Selected(q, configured, now, Some(a), Some(pick)).1 == Some(pick)
            && (Fenced(Apply(q, configured, Event(now, Select(region, locked, Some(a), Some(pick)))), now, pick, Some(a)) <==>
                  a.task !in q.leases || q.leases[a.task].expires <= now
                  || (q.leases[a.task].node == pick && q.leases[a.task].token == a.token))
  {
    hide Run;
    hide IsPick;
    hide LastEnd;
    RunKeeps(p, configured, events);
    MergedKeeps(Run(p, configured, events), configured);
  }

  /** Such a run: the leased node is blocked, and the same task selects again: it gets node 2 while its lease names node 1. */
  lemma SecondChoiceIsNotLeased()
    ensures var a := Asking(5, 9, true, true);
            var events := [Event(0, Register(1, {}, 100)), Event(0, Register(2, {}, 100)), Event(1, Select(None, {}, Some(a), Some(1))),
                           Event(2, MarkFailure(1, Blocked, 60, 3, Some(a))), Event(3, Select(None, {}, Some(a), Some(2)))];
            var p := Run(Pool(map[], map[], []), [], events);
            && IsPick(Prepared(Run(Pool(map[], map[], []), [], events[..4]), [], 3), 3, None, {}, Some(2))
            && p.leases == map[5 := Lease(1, 9, 121)] && !Fenced(p, 3, 2, Some(a))
  {
    var a := Asking(5, 9, true, true);
    var e0, e1, e2 := Event(0, Register(1, {}, 100)), Event(0, Register(2, {}, 100)), Event(1, Select(None, {}, Some(a), Some(1)));
    var e3, e4 := Event(2, MarkFailure(1, Blocked, 60, 3, Some(a))), Event(3, Select(None, {}, Some(a), Some(2)));
    var p0 := Pool(map[], map[], []);
    var n := Node(Active, {}, Some(100), None, 0);
    var p2 := Pool(map[1 := n, 2 := n], map[], []);
    assert Apply(Apply(p0, [], e0), [], e1) == p2;
    var p3 := Pool(map[1 := n, 2 := n], map[5 := Lease(1, 9, 121)], []);
    assert Apply(p2, [], e2) == p3 by {
      assert Prepared(p2, [], 1) == p2;
      Idle(p2, 1, 1);
      Idle(p2, 1, 2);
    }
    var p4 := Apply(p3, [], e3);
    assert p4.leases == p3.leases && p4.nodes == map[1 := Node(Cooldown, {}, Some(100), Some(62), 1), 2 := n];
    assert Prepared(p4, [], 3) == p4;
    assert IsPick(p4, 3, None, {}, Some(2));
    assert Apply(p4, [], e4) == p4;
    var events := [e0, e1, e2, e3];
    RunSteps(p0, events);
    assert events + [e4] == [e0, e1, e2, e3, e4] && [e0, e1, e2, e3, e4][..4] == events;
    RunSnoc(p0, [], events, e4);
  }

  lemma Idle(p: Pool, now: int, id: Id)
    requires forall t :: t in p.leases ==> p.leases[t].node != id
    ensures Load(p, now, id) == 0
  {
    assert (set t | t in p.leases && p.leases[t].node == id && p.leases[t].expires > now) == {};
  }

  lemma RunSteps(p: Pool, events: seq<Event>)
    requires |events| == 4
    ensures Run(p, [], events) == Apply(Apply(Apply(Apply(p, [], events[0]), [], events[1]), [], events[2]), [], events[3])
  {
    hide Apply;
    RunSnoc(p, [], [], events[0]);
    RunSnoc(p, [], [events[0]], events[1]);
    RunSnoc(p, [], [events[0], events[1]], events[2]);
    RunSnoc(p, [], [events[0], events[1], events[2]], events[3]);
    assert [events[0], events[1]] + [events[2]] == [events[0], events[1], events[2]];
    assert [events[0]] + [events[1]] == [events[0], events[1]];
    assert [events[0], events[1], events[2]] + [events[3]] == events;
  }

  lemma {:induction false} RunSnoc(p: Pool, configured: seq<Configured>, events: seq<Event>, e: Event)
    ensures Run(p, configured, events + [e]) == Apply(Run(p, configured, events), configured, e)
    decreases |events|
  {
    hide Apply;
    if events == [] {
      assert [e][1..] == [];
    } else {
      assert (events + [e])[1..] == events[1..] + [e];
      RunSnoc(Apply(p, configured, events[0]), configured, events[1..], e);
    }
  }
}

module ProxyPoolStore {
  import opened ProxyNodes

  class ProxyPool {
    const configured: seq<Configured>
    var nodes: map<Id, Node>
    var leases: map<nat, Lease>
    ghost var blocks: seq<Block>

    ghost function View(): Pool
      reads this
    {
      Pool(nodes, leases, blocks)
    }

    constructor (configured: seq<Configured>)
      ensures this.configured == configured && View() == Pool(map[], map[], []) && Cooled(View())
    {
      this.configured := configured;
      nodes, leases, blocks := map[], map[], [];
    }

    /** Configured nodes are inserted active; known ones only get their regions, revoked ones nothing. */
    method MergeConfigured()
      modifies this`nodes
      ensures View() == MergedAll(old(View()), configured)
    {
      for i := 0 to |configured|
        invariant View() == MergedAll(old(View()), configured[..i])
      {
        assert configured[..i + 1][..i] == configured[..i];
        var c := configured[i];
        if c.id !in nodes {
          nodes := nodes[c.id := Node(Active, c.regions, None, None, 0)];
        } else if !nodes[c.id].state.Revoked? {
          nodes := nodes[c.id := nodes[c.id].(regions := c.regions)];
        }
      }
      assert configured[..|configured|] == configured;
    }

    method Register(now: int, id: Id, regions: set<string>, expires: int) returns (accepted: bool)
      requires Cooled(View())
      modifies this`nodes
      ensures accepted <==> expires > now
      ensures View() == Apply(old(View()), configured, Event(now, Op.Register(id, regions, expires))) && Cooled(View())
    {
      ApplyKeeps(View(), configured, Event(now, Op.Register(id, regions, expires)));
      accepted := expires > now;
      if accepted {
        if id !in nodes {
          nodes := nodes[id := Node(Active, regions, Some(expires), None, 0)];
        } else {
          var state := if nodes[id].state.Revoked? then Revoked else Active;
          nodes := nodes[id := nodes[id].(regions := regions, expires := Some(expires), state := state)];
        }
      }
    }

    /** Only reports whether the node is alive; last_seen_at decides nothing. */
    method Heartbeat(now: int, id: Id) returns (alive: bool)
      ensures alive <==> id in nodes && nodes[id].state.Active? && (nodes[id].expires.Some? ==> nodes[id].expires.value > now)
    {
      alive := id in nodes && nodes[id].state.Active? && (nodes[id].expires.None? || nodes[id].expires.value > now);
    }

    method MarkFailure(now: int, id: Id, outcome: Outcome, seconds: int, offlineAfter: int, asking: Option<Asking>)
      returns (marked: bool)
      requires Cooled(View())
      modifies this`nodes, this`blocks
      ensures marked <==> seconds >= 1 && offlineAfter >= 1 && Marks(old(View()), now, id, asking) && !outcome.OtherOutcome?
      ensures View() == Apply(old(View()), configured, Event(now, Op.MarkFailure(id, outcome, seconds, offlineAfter, asking)))
      ensures Cooled(View())
    {
      ApplyKeeps(View(), configured, Event(now, Op.MarkFailure(id, outcome, seconds, offlineAfter, asking)));
      marked := false;
      if seconds < 1 || offlineAfter < 1 || outcome.OtherOutcome? { return; }
      if id !in nodes || nodes[id].state.Revoked? { return; }
      if asking.Some? {
        var a := asking.value;
        if a.task !in leases || leases[a.task].node != id || leases[a.task].token != a.token || leases[a.task].expires <= now
           || !a.live { return; }
      }
      marked := true;
      var n := nodes[id];
      if outcome.Blocked? {
        nodes := nodes[id := n.(state := Cooldown, cooldownUntil := Some(now + seconds), failures := n.failures + 1)];
        blocks := blocks + [Block(id, now, seconds)];
      } else {
        var state := if n.failures + 1 >= offlineAfter then Offline else n.state;
        nodes := nodes[id := n.(failures := n.failures + 1, state := state)];
      }
    }

    /** The ORDER BY active_leases, id LIMIT 1. */
    method Pick(now: int, region: Option<string>, locked: set<Id>) returns (pick: Option<Id>)
      ensures IsPick(View(), now, region, locked, pick)
    {
      hide Load;
      pick := None;
      var left := nodes.Keys;
      while left != {}
        invariant left <= nodes.Keys
        invariant pick.None? ==> forall id :: id in nodes && id !in left && id !in locked ==> !Eligible(View(), now, region, id)
        invariant pick.Some? ==>
                    && pick.value !in locked && Eligible(View(), now, region, pick.value)
                    && forall id :: id in nodes && id !in left && id !in locked && Eligible(View(), now, region, id) ==>
                         NoBusier(View(), now, pick.value, id)
        decreases |left|
      {
        var id :| id in left;
        left := left - {id};
        var n := nodes[id];
        if id !in locked && n.state.Active? && (n.expires.None? || n.expires.value > now)
           && (n.cooldownUntil.None? || n.cooldownUntil.value <= now) && (region.None? || region.value in n.regions) {
          var busier := false;
          if pick.Some? {
            var load := CountLeases(now, id);
            var best := CountLeases(now, pick.value);
            busier := best < load || (best == load && pick.value <= id);
          }
          if !busier {
            pick := Some(id);
          }
        }
      }
    }

    method CountLeases(now: int, id: Id) returns (n: nat)
      ensures n == Load(View(), now, id)
    {
      n := |set t | t in leases && leases[t].node == id && leases[t].expires > now|;
    }

    method Select(now: int, region: Option<string>, locked: set<Id>, asking: Option<Asking>)
      returns (node: Option<Id>, ghost pick: Option<Id>)
      requires Cooled(View())
      modifies this`nodes, this`leases
      ensures IsPick(Prepared(old(View()), configured, now), now, region, locked, pick)
      ensures (View(), node) == Selected(old(View()), configured, now, asking, pick)
      ensures Cooled(View()) && node in {None, pick}
      ensures node.Some? ==> Eligible(Prepared(old(View()), configured, now), now, region, node.value)
    {
      hide Load;
      hide MergedAll;
      ghost var before := View();
      MergedKeeps(before, configured);
      MergeConfigured();
      leases := map t | t in leases && leases[t].expires > now :: leases[t];
      ghost var ready := View();
      var best := Pick(now, region, locked);
      pick := best;
      ApplyKeeps(before, configured, Event(now, Op.Select(region, locked, asking, pick)));
      if asking.Some? && !asking.value.live { return None, pick; }
      if best.None? || asking.None? { return best, pick; }
      var a := asking.value;
      if a.task !in leases {
        leases := leases[a.task := Lease(best.value, a.token, now + LEASE_SECONDS)];
      }
      if !a.attemptOpen {
        ReleaseProxy(a.task, a.token);
        return None, pick;
      }
      return best, pick;
    }

    method ReleaseProxy(task: nat, token: nat)
      modifies this`leases
      ensures View() == old(View()).(leases := Unleased(old(leases), task, token))
    {
      if task in leases && leases[task].token == token {
        leases := leases - {task};
      }
    }

    /** The enrollment script's revocation. */
    method Revoke(id: Id)
      requires Cooled(View())
      modifies this`nodes
      ensures View() == Revoking(old(View()), id) && Cooled(View())
    {
      ApplyKeeps(View(), configured, Event(0, Op.Revoke(id)));
      if id in nodes {
        nodes := nodes[id := nodes[id].(state := Revoked)];
      }
    }
  }
}
