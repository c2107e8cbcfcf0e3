/**
  What the live-session relay does for its callers: which tickets stay good when another is issued, that an issued
  ticket opens for its own session until its minute is over, and who gets a control request and answers it.
 */
module RelayOutcomes {
  import opened RelayModel
  import opened RelayProofs

  // ---- tickets in the order of their issue --------------------------------------------------

  ghost predicate Ordered(open: seq<Ticket>) { forall i, j :: 0 <= i < j < |open| ==> open[i].id < open[j].id }

  ghost predicate DeskOrdered(d: Desk) { DeskOk(d) && Ordered(d.open) }

  lemma {:induction false} UnexpiredOrdered(open: seq<Ticket>, now: int)
    requires Ordered(open)
    ensures Ordered(Unexpired(open, now))
  {
    if open != [] {
      var n := |open| - 1;
      UnexpiredOrdered(open[..n], now);
      forall i | 0 <= i < |Unexpired(open[..n], now)| ensures Unexpired(open[..n], now)[i].id < open[n].id {
        assert Unexpired(open[..n], now)[i] in open[..n];
      }
    }
  }

  lemma {:induction false} WithoutOrdered(open: seq<Ticket>, id: nat)
    requires Ordered(open)
    ensures Ordered(Without(open, id))
  {
    if open != [] {
      var n := |open| - 1;
      WithoutOrdered(open[..n], id);
      forall i | 0 <= i < |Without(open[..n], id)| ensures Without(open[..n], id)[i].id < open[n].id {
        assert Without(open[..n], id)[i] in open[..n];
      }
    }
  }

  lemma IssueOrdered(d: Desk, session: Session, payload: string, now: int)
    requires DeskOrdered(d)
    ensures DeskOrdered(IssueTicket(d, session, payload, now))
  {
    hide Unexpired;
    IssueOk(d, session, payload, now);
    UnexpiredOrdered(d.open, now);
    var kept := Unexpired(d.open, now);
    forall i | 0 <= i < |kept| ensures kept[i].id < |d.issued| {
      assert kept[i] in kept;
    }
  }

  lemma RedeemOrdered(d: Desk, session: Session, id: nat, now: int)
    requires DeskOrdered(d)
    ensures DeskOrdered(Redeem(d, session, id, now))
  {
    hide Without;
    hide DeskOk;
    RedeemOk(d, session, id, now);
    WithoutOrdered(d.open, id);
  }

  lemma NextOrdered(r: Relay, s: Step)
    requires DeskOrdered(r.bridges) && DeskOrdered(r.screenshots)
    ensures DeskOrdered(Next(r, s).bridges) && DeskOrdered(Next(r, s).screenshots)
  {
    hide DeskOrdered;
    hide IssueTicket;
    hide Redeem;
    match s
    case ExchangeControl(session, _, now) => IssueOrdered(r.bridges, session, "", now);
    case ConsumeBridge(session, bridge, now) => RedeemOrdered(r.bridges, session, bridge, now);
    case ConsumeScreenshot(session, ticket, now) => RedeemOrdered(r.screenshots, session, ticket, now);
    case WorkerReplies(socket, _, screenshot, now) =>
      if socket < |r.sockets| && screenshot.Some? {
        IssueOrdered(r.screenshots, r.sockets[socket].session, screenshot.value, now);
      }
    case _ =>
  }

  /** In every run the tickets of both desks stand in the order in which they were issued. */
  lemma {:induction false} RunOrdered(r: Relay, steps: seq<Step>)
    requires DeskOrdered(r.bridges) && DeskOrdered(r.screenshots)
    ensures DeskOrdered(Run(r, steps).bridges) && DeskOrdered(Run(r, steps).screenshots)
    decreases |steps|
  {
    hide DeskOrdered;
    hide Next;
    if steps != [] {
      NextOrdered(r, steps[0]);
      RunOrdered(Next(r, steps[0]), steps[1..]);
    }
  }

  // ---- what issuing does to the others ------------------------------------------------------

  /** The tickets that are still good. */
  function Live(open: seq<Ticket>, now: int): set<Ticket> { set t | t in open && t.expires > now }

  lemma {:induction false} LiveSize(open: seq<Ticket>, now: int)
    requires Ordered(open)
    ensures |Live(open, now)| == |Unexpired(open, now)|
  {
    hide Live;
    if open == [] {
      NoneLive(now);
    } else {
      LiveSize(open[..|open| - 1], now);
      LastLive(open, now);
    }
  }

  lemma NoneLive(now: int)
    ensures Live([], now) == {}
  {
  }

  lemma LastLive(open: seq<Ticket>, now: int)
    requires open != [] && Ordered(open)
    ensures var n, before := |open| - 1, Live(open[..|open| - 1], now);
            open[n] !in before && Live(open, now) == if open[n].expires > now then before + {open[n]} else before
  {
    var n := |open| - 1;
    assert open == open[..n] + [open[n]];
    assert forall i :: 0 <= i < n ==> open[i] != open[n];
  }

  /** Whether some ticket still good is older. */
  predicate OlderLive(open: seq<Ticket>, t: Ticket, now: int) { exists i :: 0 <= i < |open| && open[i].expires > now && open[i].id < t.id }

  /**
    Issuing a ticket adds it, good for a minute, for the session and payload asked.  Of the others exactly the expired
    ones go, and, if 1024 are still good, the oldest of these.
   */
  lemma IssueKeepsTheRest(d: Desk, session: Session, payload: string, now: int, t: Ticket)
    requires DeskOrdered(d)
    ensures var d1, issued := IssueTicket(d, session, payload, now), Ticket(|d.issued|, session, payload, now + 60);
            && d1.redeemed == d.redeemed && |d1.issued| == |d.issued| + 1
            && issued in d1.open
            && (t in d1.open <==>
                  || t == issued
                  || (t in d.open && t.expires > now && (|Live(d.open, now)| < 1024 || OlderLive(d.open, t, now))))
  {
    hide Unexpired;
    hide Live;
    hide OlderLive;
    hide DeskOk;
    hide Ordered;
    LiveSize(d.open, now);
    RoomFor(d, t, now);
    var kept := Unexpired(d.open, now);
    var room := if |kept| >= CAPACITY then kept[1..] else kept;
    var issued := Ticket(|d.issued|, session, payload, now + LIFETIME);
    assert (room + [issued])[|room|] == issued;
    assert t in room + [issued] <==> t in room || t == issued;
  }

  lemma RoomFor(d: Desk, t: Ticket, now: int)
    requires DeskOrdered(d)
    ensures var kept := Unexpired(d.open, now);
            && (t in kept <==> t in d.open && t.expires > now)
            && (|kept| >= CAPACITY ==> (t in kept[1..] <==> t in kept && OlderLive(d.open, t, now)))
  {
    hide Unexpired;
    hide OlderLive;
    hide DeskOk;
    UnexpiredOrdered(d.open, now);
    var kept := Unexpired(d.open, now);
    if |kept| >= CAPACITY {
      assert kept == [kept[0]] + kept[1..];
      if t in kept {
        FirstIsOldest(d.open, kept, t, now);
      }
    }
  }

  lemma FirstIsOldest(open: seq<Ticket>, kept: seq<Ticket>, t: Ticket, now: int)
    requires Ordered(kept) && kept != [] && t in kept && forall u :: u in kept <==> u in open && u.expires > now
    ensures OlderLive(open, t, now) <==> t in kept[1..]
  {
    var i :| 0 <= i < |kept| && kept[i] == t;
    if i > 0 {
      assert kept[1..][i - 1] == t;
      assert kept[0] in open;
    } else {
      forall j | 0 <= j < |open| && open[j].expires > now ensures open[j].id >= t.id {
        assert open[j] in kept;
      }
    }
  }

  /** An issued ticket is redeemed by its own session at any time before its minute is over, and never otherwise; and is then gone. */
  lemma IssuedThenRedeemed(d: Desk, session: Session, payload: string, now: int, other: Session, later: int)
    requires DeskOk(d)
    ensures var d1, id := IssueTicket(d, session, payload, now), |d.issued|;
            var d2 := Redeem(d1, other, id, later);
            && Lookup(d1.open, id) == Some(Ticket(id, session, payload, now + 60))
            && d2.redeemed == (if other == session && later < now + 60 then d1.redeemed + [Redemption(id, other, later)]
                               else d1.redeemed)
            && (forall t :: t in d2.open <==> t in d1.open && t.id != id)
  {
    hide Unexpired;
    hide Lookup;
    hide Without;
    var d1, id := IssueTicket(d, session, payload, now), |d.issued|;
    var t := Ticket(id, session, payload, now + 60);
    assert t == d1.open[|d1.open| - 1];
    assert t in d1.open;
    forall u | u in d1.open && u != t ensures u.id != id {
      assert u in d.open;
    }
  }

  // ---- who is asked, and who answers --------------------------------------------------------

  /** With no local context, a control request goes to the worker that joined last, and waits for it; with one, to no worker. */
  lemma LatestWorkerIsAsked(r: Relay, session: Session)
    requires Inv(r)
    ensures var r1 := Next(r, WorkerJoins(session, true));
            var r2, q := Next(r1, ControlSends(session)), |r.requests|;
            if session in r.local then r2 == r1
            else && |r2.requests| == q + 1 && r2.requests[q] == Request(session, |r.sockets|, Waiting, false)
                 && q in r2.pending && r2.pending[q] == |r.sockets| && r2.sockets[|r.sockets|] == Socket(session, true)
                 && forall p :: p in r.pending ==> p in r2.pending && r2.pending[p] == r.pending[p]
  {
    hide DeskOk;
    forall p | p in r.pending ensures p < |r.requests| {
      assert PendingOk(r, p);
    }
  }

  /** A pending request is answered exactly by the connected socket it was sent to, and that answer touches no other request. */
  lemma AnsweredIff(r: Relay, socket: nat, q: nat, p: nat, screenshot: Option<string>, now: int)
    requires Inv(r) && q in r.pending && p < |r.requests|
    ensures q < |r.requests|
    ensures var r1 := Next(r, WorkerReplies(socket, q, screenshot, now));
            && |r1.requests| == |r.requests|
            && (r1.requests[q].status.Result? <==>
                  socket == r.requests[q].sentTo && socket < |r.sockets| && r.sockets[socket].connected)
            && (r1.requests[q].status.Result? ==> r1.requests[q].status.from == socket && q !in r1.pending)
            && (p != q ==> r1.requests[p] == r.requests[p] && (p in r1.pending <==> p in r.pending))
  {
    hide DeskOk;
    hide IssueTicket;
    assert PendingOk(r, q);
    assert RequestOk(r.sockets, r.requests[q]);
  }

  /** A worker's screenshot is redeemed by its own session for the very artifact the worker sent. */
  lemma ScreenshotComesBack(r: Relay, socket: nat, q: nat, artifact: string, now: int, later: int)
    requires Inv(r) && socket < |r.sockets| && r.sockets[socket].connected && now <= later < now + 60
    ensures var r1, id := Next(r, WorkerReplies(socket, q, Some(artifact), now)), |r.screenshots.issued|;
            && Lookup(r1.screenshots.open, id) == Some(Ticket(id, r.sockets[socket].session, artifact, now + 60))
            && Next(r1, ConsumeScreenshot(r.sockets[socket].session, id, later)).screenshots.redeemed
               == r.screenshots.redeemed + [Redemption(id, r.sockets[socket].session, later)]
  {
    hide IssueTicket;
    hide Redeem;
    hide Lookup;
    IssuedThenRedeemed(r.screenshots, r.sockets[socket].session, artifact, now, r.sockets[socket].session, later);
    IssueCounts(r.screenshots, r.sockets[socket].session, artifact, now);
  }

  lemma IssueCounts(d: Desk, session: Session, payload: string, now: int)
    ensures IssueTicket(d, session, payload, now).redeemed == d.redeemed
  {
  }
}
