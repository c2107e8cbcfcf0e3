/**
  What the egress pool does for its callers: which node a task gets and under which lease, and what failures,
  registrations and the configuration do to a node.
 */
module EgressOutcomes {
  import opened ProxyNodes

  // ---- the choice ---------------------------------------------------------------------------

  /** Active, its credentials and its cooldown in order, and in the region asked for. */
  predicate Usable(p: Pool, now: int, region: Option<string>, id: Id) {
    id in p.nodes &&
    var n := p.nodes[id];
    && n.state == Active
    && (n.expires == None || n.expires.value > now)
    && (n.cooldownUntil == None || n.cooldownUntil.value <= now)
    && (region == None || region.value in n.regions)
  }

  /** The tasks whose lease on the node has not run out. */
  function Holders(p: Pool, now: int, id: Id): set<nat> { set t | t in p.leases && p.leases[t].expires > now && p.leases[t].node == id }

  /**
    The node chosen is usable and free, no usable free node has fewer leases, and none with as many has a smaller id;
    none is chosen exactly if there is none; and there is only one such choice.
   */
  lemma TheLeastLoadedIsPicked(p: Pool, now: int, region: Option<string>, locked: set<Id>, pick: Option<Id>, other: Option<Id>)
    requires IsPick(p, now, region, locked, pick)
    ensures pick.None? <==> forall id :: id !in locked ==> !Usable(p, now, region, id)
    ensures pick.Some? ==> pick.value !in locked && Usable(p, now, region, pick.value)
    ensures pick.Some? ==> forall id :: id !in locked && Usable(p, now, region, id) && id != pick.value ==>
              |Holders(p, now, pick.value)| < |Holders(p, now, id)|
              || (|Holders(p, now, pick.value)| == |Holders(p, now, id)| && pick.value < id)
    ensures IsPick(p, now, region, locked, other) ==> other == pick
  {
    hide Load;
    hide Holders;
    forall id ensures Usable(p, now, region, id) <==> Eligible(p, now, region, id) {}
    forall id ensures Load(p, now, id) == |Holders(p, now, id)| { LoadIs(p, now, id); }
  }

  lemma LoadIs(p: Pool, now: int, id: Id)
    ensures Load(p, now, id) == |Holders(p, now, id)|
  {
    assert Holders(p, now, id) == set t | t in p.leases && p.leases[t].node == id && p.leases[t].expires > now;
  }

  // ---- the lease ----------------------------------------------------------------------------

  /** The leases that have not run out. */
  function Current(leases: map<nat, Lease>, now: int): map<nat, Lease> {
    map t | t in leases && leases[t].expires > now :: leases[t]
  }

  /**
    A selection drops the leases that have run out.  It hands out the chosen node unless the task asking has lost its
    lease or has no open attempt; the task is leased that node for two minutes unless it has a lease already; and a
    task without an open attempt keeps no lease under its token.
   */
  lemma SelectionLeases(p: Pool, configured: seq<Configured>, now: int, region: Option<string>, locked: set<Id>,
                        asking: Option<Asking>, pick: Option<Id>)
    requires Cooled(p) && IsPick(Prepared(p, configured, now), now, region, locked, pick)
    ensures var p1 := Apply(p, configured, Event(now, Select(region, locked, asking, pick)));
            var current := Current(p.leases, now);
            && Selected(p, configured, now, asking, pick).1
               == (if asking.Some? && (!asking.value.live || (pick.Some? && !asking.value.attemptOpen)) then None else pick)
            && (asking.None? || pick.None? || !asking.value.live ==> p1.leases == current)
            && (asking.Some? && pick.Some? && asking.value.live ==>
                  var a := asking.value;
                  && (forall t :: t != a.task ==> (t in p1.leases <==> t in current))
                  && (forall t :: t != a.task && t in current ==> p1.leases[t] == current[t])
                  && (a.attemptOpen ==> a.task in p1.leases)
                  && (a.attemptOpen ==>
                        p1.leases[a.task] == if a.task in current then current[a.task] else Lease(pick.value, a.token, now + 120))
                  && (!a.attemptOpen ==>
                        (a.task in p1.leases <==> a.task in current && current[a.task].token != a.token)))
  {
    hide IsPick;
    hide LastEnd;
    MergedKeeps(p, configured);
    assert Prepared(p, configured, now).leases == Current(p.leases, now);
  }

  // ---- what happens to a node ---------------------------------------------------------------

  /** The caller may report on the node: it names no lease, or one on this node that is live under its token. */
  predicate MayReport(p: Pool, now: int, id: Id, asking: Option<Asking>) {
    asking == None ||
    (asking.value.live && asking.value.task in p.leases &&
     var l := p.leases[asking.value.task];
     l.node == id && l.token == asking.value.token && l.expires > now)
  }

  /**
    A reported failure counts exactly for a known, unrevoked node and a caller that may report on it.  A block cools
    the node down for as long as stated; a transport failure takes it offline exactly when its failures reach the
    threshold.  Nothing else changes.
   */
  lemma FailureDecides(p: Pool, configured: seq<Configured>, now: int, id: Id, outcome: Outcome, seconds: int, offlineAfter: int,
                       asking: Option<Asking>)
    requires seconds >= 1 && offlineAfter >= 1
    ensures var p1 := Apply(p, configured, Event(now, MarkFailure(id, outcome, seconds, offlineAfter, asking)));
            if id in p.nodes && p.nodes[id].state != Revoked && MayReport(p, now, id, asking) && outcome != OtherOutcome then
              var n := p.nodes[id];
              && p1.leases == p.leases && p1.nodes.Keys == p.nodes.Keys
              && (forall i :: i in p.nodes && i != id ==> p1.nodes[i] == p.nodes[i])
              && p1.nodes[id].failures == n.failures + 1 && p1.nodes[id].regions == n.regions && p1.nodes[id].expires == n.expires
              && (outcome == Blocked ==>
                    p1.nodes[id].state == Cooldown && p1.nodes[id].cooldownUntil == Some(now + seconds))
              && (outcome == Transport ==>
                    && p1.nodes[id].cooldownUntil == n.cooldownUntil
                    && p1.nodes[id].state == if n.failures + 1 < offlineAfter then n.state else Offline)
            else p1 == p
  {
  }

  /** Whether the event adds a failure to the node. */
  predicate Counts(p: Pool, e: Event, id: Id) {
    && e.op.MarkFailure? && e.op.id == id && !e.op.outcome.OtherOutcome? && e.op.seconds >= 1 && e.op.offlineAfter >= 1
    && id in p.nodes && !p.nodes[id].state.Revoked? && MayReport(p, e.at, id, e.op.asking)
  }

  function FailuresIn(p: Pool, configured: seq<Configured>, events: seq<Event>, id: Id): nat
    decreases |events|
  {
    if events == [] then 0
    else (if Counts(p, events[0], id) then 1 else 0) + FailuresIn(Apply(p, configured, events[0]), configured, events[1..], id)
  }

  lemma {:induction false} MergedFailures(p: Pool, configured: seq<Configured>, id: Id)
    requires id in p.nodes
    ensures id in MergedAll(p, configured).nodes && MergedAll(p, configured).nodes[id].failures == p.nodes[id].failures
  {
    if configured != [] {
      MergedFailures(p, configured[..|configured| - 1], id);
    }
  }

  lemma ApplyFailures(p: Pool, configured: seq<Configured>, e: Event, id: Id)
    requires id in p.nodes
    ensures var p1 := Apply(p, configured, e);
            id in p1.nodes && p1.nodes[id].failures == p.nodes[id].failures + if Counts(p, e, id) then 1 else 0
  {
    hide IsPick;
    hide MergedAll;
    MergedFailures(p, configured, id);
  }

  /**
    No run ever forgives a failure: a node's count is what it was plus every failure reported on it since, blocks and
    transport failures alike; neither a registration nor a configuration resets it.
   */
  lemma {:induction false} FailuresAddUp(p: Pool, configured: seq<Configured>, events: seq<Event>, id: Id)
    requires id in p.nodes
    ensures var q := Run(p, configured, events);
            id in q.nodes && q.nodes[id].failures == p.nodes[id].failures + FailuresIn(p, configured, events, id)
    decreases |events|
  {
    hide Apply;
    hide Counts;
    if events != [] {
      ApplyFailures(p, configured, events[0], id);
      FailuresAddUp(Apply(p, configured, events[0]), configured, events[1..], id);
    }
  }

  /**
    So a node that has once had that many failures, if it is not revoked, goes offline at its next transport failure, however often it has
    been registered in between.
   */
  lemma NextFailureIsTheLast(p: Pool, configured: seq<Configured>, events: seq<Event>, id: Id, now: int, seconds: int, offlineAfter: int)
    requires id in p.nodes && seconds >= 1 && offlineAfter >= 1
    requires p.nodes[id].failures + FailuresIn(p, configured, events, id) + 1 >= offlineAfter
    ensures var r := Run(p, configured, events);
            var q := Apply(r, configured, Event(now, MarkFailure(id, Transport, seconds, offlineAfter, None)));
            id in r.nodes && id in q.nodes && q.nodes[id].state == if r.nodes[id].state == Revoked then Revoked else Offline
  {
    hide Run;
    FailuresAddUp(p, configured, events, id);
  }

  /**
    A registration is accepted exactly with credentials that are still to expire.  A new node is active at once; a
    known one gets its regions and credentials and is active again unless it was revoked, with its cooldown and its
    failures as they were.
   */
  lemma RegistrationDecides(p: Pool, configured: seq<Configured>, now: int, id: Id, regions: set<string>, expires: int)
    ensures var p1 := Apply(p, configured, Event(now, Register(id, regions, expires)));
            && p1.leases == p.leases
            && (expires <= now ==> p1 == p)
            && (expires > now ==>
                  && p1.nodes.Keys == p.nodes.Keys + {id}
                  && (forall i :: i in p.nodes && i != id ==> p1.nodes[i] == p.nodes[i])
                  && p1.nodes[id].regions == regions && p1.nodes[id].expires == Some(expires)
                  && (p1.nodes[id].state == Revoked <==> id in p.nodes && p.nodes[id].state == Revoked)
                  && (p1.nodes[id].state != Revoked ==> p1.nodes[id].state == Active)
                  && p1.nodes[id].failures == (if id in p.nodes then p.nodes[id].failures else 0)
                  && p1.nodes[id].cooldownUntil == if id in p.nodes then p.nodes[id].cooldownUntil else None)
  {
  }

  /** The last entry of the configuration for a node. */
  predicate LastEntry(configured: seq<Configured>, i: nat) {
    i < |configured| && forall j :: i < j < |configured| ==> configured[j].id != configured[i].id
  }

  /**
    Merging the configuration adds its unknown nodes as active ones whose credentials never expire; of a known node
    it changes the regions, to its last entry's, unless the node is revoked.
   */
  lemma {:induction false} ConfigurationMerges(p: Pool, configured: seq<Configured>, i: nat)
    requires LastEntry(configured, i)
    ensures var q, c := MergedAll(p, configured), configured[i];
            && c.id in q.nodes
            && q.nodes[c.id] == (if c.id !in p.nodes then Node(Active, c.regions, None, None, 0)
                                 else if p.nodes[c.id].state == Revoked then p.nodes[c.id]
                                 else p.nodes[c.id].(regions := c.regions))
    decreases |configured|
  {
    var n := |configured| - 1;
    if i < n {
      assert LastEntry(configured[..n], i);
      ConfigurationMerges(p, configured[..n], i);
    } else {
      MergedBefore(p, configured[..n], configured[i].id);
    }
  }

  /** A node that is not configured stays as it was. */
  lemma {:induction false} UnconfiguredStays(p: Pool, configured: seq<Configured>, id: Id)
    requires forall j :: 0 <= j < |configured| ==> configured[j].id != id
    ensures var q := MergedAll(p, configured);
            (id in q.nodes <==> id in p.nodes) && (id in p.nodes ==> q.nodes[id] == p.nodes[id])
  {
    if configured != [] {
      UnconfiguredStays(p, configured[..|configured| - 1], id);
    }
  }

  /** Whatever the configuration says before, a node differs from what it was at most in its regions, or is new. */
  lemma {:induction false} MergedBefore(p: Pool, configured: seq<Configured>, id: Id)
    ensures var q := MergedAll(p, configured);
            && (id in p.nodes ==> id in q.nodes && q.nodes[id].(regions := p.nodes[id].regions) == p.nodes[id]
                                  && (p.nodes[id].state == Revoked ==> q.nodes[id] == p.nodes[id]))
            && (id !in p.nodes && id in q.nodes ==> q.nodes[id] == Node(Active, q.nodes[id].regions, None, None, 0))
  {
    if configured != [] {
      MergedBefore(p, configured[..|configured| - 1], id);
    }
  }

  /** A release drops a task's lease exactly under the token it was granted to; a revocation ends one node and no other. */
  lemma ReleaseAndRevokeDecide(p: Pool, configured: seq<Configured>, now: int, task: nat, token: nat, id: Id)
    ensures var p1 := Apply(p, configured, Event(now, Release(task, token)));
            && p1.nodes == p.nodes
            && (forall t :: t in p1.leases <==> t in p.leases && !(t == task && p.leases[t].token == token))
            && (forall t :: t in p1.leases ==> p1.leases[t] == p.leases[t])
    ensures var p2 := Apply(p, configured, Event(now, Revoke(id)));
            && p2.leases == p.leases && p2.nodes.Keys == p.nodes.Keys
            && (forall i :: i in p.nodes ==> p2.nodes[i] == if i == id then p.nodes[i].(state := Revoked) else p.nodes[i])
  {
  }
}
