/**
  The live-session relay (app/acquisition/owned_session.py:70-225): bridges that open a control connection,
  screenshot tickets, worker sockets, and the pending map that matches a worker's reply to the control
  request waiting for it.  Everything between two awaits is one atomic step; steps of all connections
  interleave in any order.
 */
module RelayModel {

  datatype Option<+T> = None | Some(value: T)

  type Session = nat

  const LIFETIME: int := 60

  const CAPACITY: nat := 1024

  /** A one-use ticket; a bridge carries no payload, a screenshot ticket the artifact's hash. */
  datatype Ticket = Ticket(id: nat, session: Session, payload: string, expires: int)

  /** A worker socket ever accepted; its id is its position. */
  datatype Socket = Socket(session: Session, connected: bool)

  datatype Status = Waiting | Result(from: nat) | Failed | Cancelled

  /** A control request ever sent to a worker; its id is its position.  `ended`: its control loop has moved on. */
  datatype Request = Request(session: Session, sentTo: nat, status: Status, ended: bool)

  /** History: who was given which ticket when, and who redeemed one. */
  datatype Issue = Issue(session: Session, payload: string, at: int)

  datatype Redemption = Redemption(id: nat, session: Session, at: int)

  datatype Desk = Desk(open: seq<Ticket>, issued: seq<Issue>, redeemed: seq<Redemption>)

  datatype Relay = Relay(workers: map<Session, nat>, local: map<Session, nat>, pending: map<nat, nat>,
                         sockets: seq<Socket>, requests: seq<Request>, bridges: Desk, screenshots: Desk)

  function EmptyDesk(): Desk { Desk([], [], []) }

  function NewRelay(): Relay { Relay(map[], map[], map[], [], [], EmptyDesk(), EmptyDesk()) }

  // ---- tickets ----

  function Unexpired(open: seq<Ticket>, now: int): (r: seq<Ticket>)
    ensures |r| <= |open|
    ensures forall t :: t in r <==> t in open && t.expires > now
  {
    if open == [] then []
    else
      assert open == open[..|open| - 1] + [open[|open| - 1]];
      Unexpired(open[..|open| - 1], now) + (if open[|open| - 1].expires > now then [open[|open| - 1]] else [])
  }

  /** Drop the expired ones, then the oldest if full, then add. */
  function IssueTicket(d: Desk, session: Session, payload: string, now: int): Desk {
    var kept := Unexpired(d.open, now);
    var room := if |kept| >= CAPACITY then kept[1..] else kept;
    Desk(room + [Ticket(|d.issued|, session, payload, now + LIFETIME)], d.issued + [Issue(session, payload, now)], d.redeemed)
  }

  function Without(open: seq<Ticket>, id: nat): (r: seq<Ticket>)
    ensures |r| <= |open|
    ensures forall t :: t in r <==> t in open && t.id != id
  {
    if open == [] then []
    else
      assert open == open[..|open| - 1] + [open[|open| - 1]];
      Without(open[..|open| - 1], id) + (if open[|open| - 1].id == id then [] else [open[|open| - 1]])
  }

  function Lookup(open: seq<Ticket>, id: nat): (r: Option<Ticket>)
    ensures r.Some? ==> r.value in open && r.value.id == id
    ensures r.None? ==> forall t :: t in open ==> t.id != id
  {
    if open == [] then None
    else
      assert open == open[..|open| - 1] + [open[|open| - 1]];
      if open[|open| - 1].id == id then Some(open[|open| - 1]) else Lookup(open[..|open| - 1], id)
  }

  predicate Good(t: Option<Ticket>, session: Session, now: int) {
    t.Some? && t.value.session == session && t.value.expires > now
  }

  /** The ticket is taken out whether or not it turns out to be good. */
  function Redeem(d: Desk, session: Session, id: nat, now: int): Desk {
    Desk(Without(d.open, id), d.issued,
         if Good(Lookup(d.open, id), session, now) then d.redeemed + [Redemption(id, session, now)] else d.redeemed)
  }

  // ---- steps ----

  /**
    `now` is the relay's own clock.  A control request ends answered, or by an error before it waits for the
    reply, or while it waits: then (`timedOut`) the wait itself cancels the future, in the map or not.
   */
  datatype Step =
    | ExchangeControl(session: Session, tokenConsumed: bool, now: int)
    | ConsumeBridge(session: Session, bridge: nat, now: int)
    | ConsumeScreenshot(session: Session, ticket: nat, now: int)
    | AttachLocal(session: Session, context: nat)
    | DetachLocal(session: Session, context: nat)
    | WorkerJoins(session: Session, tokenConsumed: bool)
    | WorkerReplies(socket: nat, request: nat, screenshot: Option<string>, now: int)
    | WorkerLeaves(socket: nat)
    | ControlSends(session: Session)
    | ControlEnds(request: nat, timedOut: bool)

  /** A control frame goes to a local context if there is one, else to the session's latest worker. */
  predicate Sends(r: Relay, session: Session) { session !in r.local && session in r.workers }

  function Settle(r: Relay, request: nat, status: Status): seq<Request>
    requires request < |r.requests|
  {
    if r.requests[request].status.Waiting? then r.requests[request := r.requests[request].(status := status)] else r.requests
  }

  /** The worker's reply: whatever was pending under its id is removed, and answered if it was asked of this socket. */
  function Replied(r: Relay, socket: nat, request: nat): Relay
    requires socket < |r.sockets|
  {
    if request >= |r.requests| || r.requests[request].session != r.sockets[socket].session || request !in r.pending then r
    else r.(pending := r.pending - {request},
            requests := if r.pending[request] == socket then Settle(r, request, Result(socket)) else r.requests)
  }

  function FailAll(requests: seq<Request>, lost: set<nat>): (q: seq<Request>)
    ensures |q| == |requests|
    ensures forall i :: 0 <= i < |requests| ==>
              q[i] == if i in lost && requests[i].status.Waiting? then requests[i].(status := Failed) else requests[i]
  {
    seq(|requests|, i requires 0 <= i < |requests| =>
      if i in lost && requests[i].status.Waiting? then requests[i].(status := Failed) else requests[i])
  }

  /** Requests of the socket's session that wait for this socket. */
  function Held(pending: map<nat, nat>, requests: seq<Request>, session: Session, socket: nat): set<nat> {
    set q | q in pending && pending[q] == socket && q < |requests| && requests[q].session == session
  }

  function Left(r: Relay, socket: nat): Relay
    requires socket < |r.sockets|
  {
    var session := r.sockets[socket].session;
    var held := Held(r.pending, r.requests, session, socket);
    r.(workers := if session in r.workers && r.workers[session] == socket then r.workers - {session} else r.workers,
       sockets := r.sockets[socket := r.sockets[socket].(connected := false)],
       pending := r.pending - held, requests := FailAll(r.requests, held))
  }

  function Sent(r: Relay, session: Session): Relay
    requires Sends(r, session)
  {
    r.(requests := r.requests + [Request(session, r.workers[session], Waiting, false)],
       pending := r.pending[|r.requests| := r.workers[session]])
  }

  function Ended(r: Relay, request: nat, timedOut: bool): Relay
    requires request < |r.requests|
  {
    var requests := if timedOut || request in r.pending then Settle(r, request, Cancelled) else r.requests;
    r.(pending := r.pending - {request}, requests := requests[request := requests[request].(ended := true)])
  }

  function Next(r: Relay, s: Step): Relay {
    match s
    case ExchangeControl(session, consumed, now) =>
      if consumed then r.(bridges := IssueTicket(r.bridges, session, "", now)) else r
    case ConsumeBridge(session, bridge, now) => r.(bridges := Redeem(r.bridges, session, bridge, now))
    case ConsumeScreenshot(session, ticket, now) => r.(screenshots := Redeem(r.screenshots, session, ticket, now))
    case AttachLocal(session, context) => r.(local := r.local[session := context])
    case DetachLocal(session, context) =>
      if session in r.local && r.local[session] == context then r.(local := r.local - {session}) else r
    case WorkerJoins(session, consumed) =>
      if consumed then r.(sockets := r.sockets + [Socket(session, true)], workers := r.workers[session := |r.sockets|]) else r
    case WorkerReplies(socket, request, screenshot, now) =>
      if socket >= |r.sockets| || !r.sockets[socket].connected then r
      else
        var session := r.sockets[socket].session;
        Replied(if screenshot.Some? then r.(screenshots := IssueTicket(r.screenshots, session, screenshot.value, now)) else r,
                socket, request)
    case WorkerLeaves(socket) => if socket >= |r.sockets| || !r.sockets[socket].connected then r else Left(r, socket)
    case ControlSends(session) => if Sends(r, session) then Sent(r, session) else r
    case ControlEnds(request, timedOut) =>
      if request < |r.requests| && !r.requests[request].ended then Ended(r, request, timedOut) else r
  }

  function Run(r: Relay, steps: seq<Step>): Relay
    decreases |steps|
  {
    if steps == [] then r else Run(Next(r, steps[0]), steps[1..])
  }
}

module RelayProofs {
  import opened RelayModel

  /** Every ticket is redeemed at most once, by the session it was issued to, before its lifetime is over. */
  ghost predicate DeskOk(d: Desk) {
    && |d.open| <= CAPACITY
    && (forall t :: t in d.open ==> t.id < |d.issued| && Matches(t, d.issued[t.id]))
    && (forall t, i :: t in d.open && 0 <= i < |d.redeemed| ==> d.redeemed[i].id != t.id)
    && (forall i :: 0 <= i < |d.redeemed| ==> RedeemedWell(d, d.redeemed[i]))
    && (forall i, j :: 0 <= i < j < |d.redeemed| ==> d.redeemed[i].id != d.redeemed[j].id)
  }

  predicate Matches(t: Ticket, i: Issue) { t.session == i.session && t.payload == i.payload && t.expires == i.at + LIFETIME }

  predicate RedeemedWell(d: Desk, r: Redemption) {
    r.id < |d.issued| && r.session == d.issued[r.id].session && r.at < d.issued[r.id].at + LIFETIME
  }

  lemma IssueOk(d: Desk, session: Session, payload: string, now: int)
    requires DeskOk(d)
    ensures DeskOk(IssueTicket(d, session, payload, now))
  {
    var d1 := IssueTicket(d, session, payload, now);
    var kept := Unexpired(d.open, now);
    assert forall t :: t in d1.open ==> t in kept || t.id == |d.issued|;
    assert d1.issued[|d.issued|] == Issue(session, payload, now);
  }

  lemma RedeemOk(d: Desk, session: Session, id: nat, now: int)
    requires DeskOk(d)
    ensures DeskOk(Redeem(d, session, id, now))
  {
    hide Without;
    hide Lookup;
    var t := Lookup(d.open, id);
    if Good(t, session, now) {
      assert t.value in d.open && Matches(t.value, d.issued[id]);
      assert RedeemedWell(d, Redemption(id, session, now));
    }
  }

  /** A ticket that was tried is gone: no second try redeems it, whoever tried first. */
  lemma OneUse(d: Desk, session: Session, id: nat, now: int, other: Session, later: int)
    ensures Redeem(Redeem(d, session, id, now), other, id, later) == Redeem(d, session, id, now)
  {
    var d1 := Redeem(d, session, id, now);
    assert Without(d1.open, id) == d1.open by { WithoutNothing(d1.open, id); }
  }

  lemma {:induction false} WithoutNothing(open: seq<Ticket>, id: nat)
    requires forall i :: 0 <= i < |open| ==> open[i].id != id
    ensures Without(open, id) == open
  {
    if open != [] {
      WithoutNothing(open[..|open| - 1], id);
      assert open == open[..|open| - 1] + [open[|open| - 1]];
    }
  }

  // ---- replies ----

  /** A result comes from the very socket the request was sent to, a socket of the request's own session. */
  predicate RequestOk(sockets: seq<Socket>, q: Request) {
    && q.sentTo < |sockets| && sockets[q.sentTo].session == q.session
    && (q.status.Result? ==> q.status.from == q.sentTo)
  }

  /** Whoever is pending waits for the connected socket it was sent to, and its request has not ended. */
  predicate PendingOk(r: Relay, q: nat) {
    && q in r.pending && q < |r.requests|
    && r.pending[q] == r.requests[q].sentTo
    && r.requests[q].status.Waiting? && !r.requests[q].ended
    && r.requests[q].sentTo < |r.sockets| && r.sockets[r.requests[q].sentTo].connected
  }

  ghost predicate Inv(r: Relay) {
    && DeskOk(r.bridges) && DeskOk(r.screenshots)
    && (forall i :: 0 <= i < |r.requests| ==> RequestOk(r.sockets, r.requests[i]))
    && (forall q :: q in r.pending ==> PendingOk(r, q))
    && forall s :: s in r.workers ==>
         r.workers[s] < |r.sockets| && r.sockets[r.workers[s]].session == s && r.sockets[r.workers[s]].connected
  }

  lemma RepliedOk(r: Relay, socket: nat, request: nat)
    requires Inv(r) && socket < |r.sockets|
    ensures Inv(Replied(r, socket, request))
  {
    hide DeskOk;
    if request in r.pending {
      assert PendingOk(r, request);
    }
    var r1 := Replied(r, socket, request);
    forall q | q in r1.pending ensures PendingOk(r1, q) {
      assert PendingOk(r, q);
    }
  }

  lemma LeftOk(r: Relay, socket: nat)
    requires Inv(r) && socket < |r.sockets| && r.sockets[socket].connected
    ensures Inv(Left(r, socket))
  {
    hide DeskOk;
    var r1 := Left(r, socket);
    forall q | q in r1.pending ensures PendingOk(r1, q) {
      assert PendingOk(r, q);
      assert RequestOk(r.sockets, r.requests[q]);
    }
    forall i | 0 <= i < |r1.requests| ensures RequestOk(r1.sockets, r1.requests[i]) {
      assert RequestOk(r.sockets, r.requests[i]);
    }
  }

  lemma SentOk(r: Relay, session: Session)
    requires Inv(r) && Sends(r, session)
    ensures Inv(Sent(r, session))
  {
    hide DeskOk;
    var r1 := Sent(r, session);
    forall q | q in r1.pending ensures PendingOk(r1, q) {
      assert q != |r.requests| ==> PendingOk(r, q);
    }
  }

  lemma EndedOk(r: Relay, request: nat, timedOut: bool)
    requires Inv(r) && request < |r.requests|
    ensures Inv(Ended(r, request, timedOut))
  {
    hide DeskOk;
    var r1 := Ended(r, request, timedOut);
    assert RequestOk(r.sockets, r.requests[request]);
    forall q | q in r1.pending ensures PendingOk(r1, q) {
      assert PendingOk(r, q);
    }
  }

  lemma JoinedOk(r: Relay, session: Session)
    requires Inv(r)
    ensures Inv(Next(r, WorkerJoins(session, true)))
  {
    hide DeskOk;
    var r1 := Next(r, WorkerJoins(session, true));
    forall q | q in r1.pending ensures PendingOk(r1, q) {
      assert PendingOk(r, q);
    }
    forall i | 0 <= i < |r1.requests| ensures RequestOk(r1.sockets, r1.requests[i]) {
      assert RequestOk(r.sockets, r.requests[i]);
    }
  }

  lemma DesksOnly(r: Relay, r1: Relay)
    requires Inv(r) && DeskOk(r1.bridges) && DeskOk(r1.screenshots)
    requires r1.(bridges := r.bridges, screenshots := r.screenshots, local := r.local) == r
    ensures Inv(r1)
  {
    hide DeskOk;
    forall q | q in r1.pending ensures PendingOk(r1, q) {
      assert PendingOk(r, q);
    }
  }

  lemma InvDesks(r: Relay)
    requires Inv(r)
    ensures DeskOk(r.bridges) && DeskOk(r.screenshots)
  {
  }

  /** Every step of every connection keeps the invariant. */
  lemma NextKeeps(r: Relay, s: Step)
    requires Inv(r)
    ensures Inv(Next(r, s))
  {
    hide Inv;
    hide DeskOk;
    hide IssueTicket;
    hide Redeem;
    hide Replied;
    hide Left;
    hide Sent;
    hide Ended;
    InvDesks(r);
    match s
    case ExchangeControl(session, _, now) =>
      IssueOk(r.bridges, session, "", now);
      DesksOnly(r, r.(bridges := IssueTicket(r.bridges, session, "", now)));
    case ConsumeBridge(session, bridge, now) =>
      RedeemOk(r.bridges, session, bridge, now);
      DesksOnly(r, Next(r, s));
    case ConsumeScreenshot(session, ticket, now) =>
      RedeemOk(r.screenshots, session, ticket, now);
      DesksOnly(r, Next(r, s));
    case AttachLocal(_, _) => DesksOnly(r, Next(r, s));
    case DetachLocal(_, _) => DesksOnly(r, Next(r, s));
    case WorkerJoins(session, _) => JoinedOk(r, session);
    case WorkerReplies(socket, request, screenshot, now) =>
      if socket < |r.sockets| {
        RepliedOk(r, socket, request);
        if screenshot.Some? {
          var r1 := r.(screenshots := IssueTicket(r.screenshots, r.sockets[socket].session, screenshot.value, now));
          IssueOk(r.screenshots, r.sockets[socket].session, screenshot.value, now);
          DesksOnly(r, r1);
          RepliedOk(r1, socket, request);
        }
      }
    case WorkerLeaves(socket) => if socket < |r.sockets| && r.sockets[socket].connected { LeftOk(r, socket); }
    case ControlSends(session) => if Sends(r, session) { SentOk(r, session); }
    case ControlEnds(request, timedOut) => if request < |r.requests| { EndedOk(r, request, timedOut); }
  }

  lemma {:induction false} RunKeeps(r: Relay, steps: seq<Step>)
    requires Inv(r)
    ensures Inv(Run(r, steps))
    decreases |steps|
  {
    hide Inv;
    hide Next;
    if steps != [] {
      NextKeeps(r, steps[0]);
      RunKeeps(Next(r, steps[0]), steps[1..]);
    }
  }

  lemma NewRelayOk()
    ensures Inv(NewRelay())
  {
  }

  // ---- main results ----

  /**
    Every run: tickets are redeemed once, for their own session, within sixty seconds; results come from the
    socket asked; and whatever is pending waits for a connected worker and has not ended.
   */
  lemma RelayIsSafe(steps: seq<Step>)
    ensures var r := Run(NewRelay(), steps);
            && DeskOk(r.bridges) && DeskOk(r.screenshots)
            && (forall i :: 0 <= i < |r.requests| && r.requests[i].status.Result? ==>
                  && r.requests[i].status.from == r.requests[i].sentTo < |r.sockets|
                  && r.sockets[r.requests[i].sentTo].session == r.requests[i].session)
            && forall q :: q in r.pending ==>
                 && q < |r.requests| && !r.requests[q].ended && r.requests[q].status.Waiting?
                 && r.requests[q].sentTo < |r.sockets| && r.sockets[r.requests[q].sentTo].connected
  {
    hide Run;
    hide DeskOk;
    NewRelayOk();
    RunKeeps(NewRelay(), steps);
    var r := Run(NewRelay(), steps);
    forall i | 0 <= i < |r.requests| ensures RequestOk(r.sockets, r.requests[i]) {}
    forall q | q in r.pending ensures PendingOk(r, q) {}
  }

  /** How the control loop of request `q` first leaves it in these steps, if it does: was it waiting for the reply? */
  function FirstEnd(steps: seq<Step>, q: nat): Option<bool>
    decreases |steps|
  {
    if steps == [] then None
    else if steps[0].ControlEnds? && steps[0].request == q then Some(steps[0].timedOut)
    else FirstEnd(steps[1..], q)
  }

  /** What becomes of a request that has left the pending map: it is as it was, unless its own wait cancels it. */
  function Outcome(q: Request, end: Option<bool>): Request {
    q.(status := if q.status.Waiting? && !q.ended && end == Some(true) then Cancelled else q.status,
       ended := q.ended || end.Some?)
  }

  lemma OutsideTheMap(r: Relay, s: Step, q: nat)
    requires q < |r.requests| && q !in r.pending
    ensures q < |Next(r, s).requests| && q !in Next(r, s).pending
    ensures Next(r, s).requests[q] == Outcome(r.requests[q], FirstEnd([s], q))
  {
    hide IssueTicket;
    hide Redeem;
    assert FirstEnd([s], q) == if s.ControlEnds? && s.request == q then Some(s.timedOut) else None by {
      assert [s][1..] == [];
    }
  }

  /**
    Once a request has left the pending map it stays out, and over any run an answer, a failure or a
    cancellation is never changed; a request that still waits ends cancelled exactly when the wait of its own
    control loop is what ends it.
   */
  lemma {:induction false} OutcomeIsFinal(r: Relay, steps: seq<Step>, q: nat)
    requires q < |r.requests| && q !in r.pending
    ensures q < |Run(r, steps).requests| && q !in Run(r, steps).pending
    ensures Run(r, steps).requests[q] == Outcome(r.requests[q], FirstEnd(steps, q))
    decreases |steps|
  {
    hide Next;
    if steps != [] {
      OutsideTheMap(r, steps[0], q);
      assert [steps[0]][1..] == [];
      OutcomeIsFinal(Next(r, steps[0]), steps[1..], q);
    }
  }

  /** Ending a request takes it out of the map; it is cancelled if it waits in the map or for the reply. */
  lemma EndedIsGone(r: Relay, q: nat, timedOut: bool)
    requires Inv(r) && q < |r.requests|
    ensures var r1 := Next(r, ControlEnds(q, timedOut));
            && q !in r1.pending && r1.requests[q].ended
            && (q in r.pending ==> r1.requests[q].status.Cancelled?)
            && (r1.requests[q].status != r.requests[q].status ==>
                  r.requests[q].status.Waiting? && r1.requests[q].status.Cancelled? && (timedOut || q in r.pending))
  {
    hide DeskOk;
    assert q in r.pending ==> PendingOk(r, q);
  }

  /** A socket that closes fails the requests that wait for it and no others; a newer socket stays registered. */
  lemma ClosingFailsOnlyItsOwn(r: Relay, socket: nat, q: nat, session: Session)
    requires Inv(r) && socket < |r.sockets| && r.sockets[socket].connected && q < |r.requests|
    ensures var r1 := Next(r, WorkerLeaves(socket));
            && (q in r.pending && r.requests[q].sentTo == socket ==> r1.requests[q].status.Failed? && q !in r1.pending)
            && (q !in r.pending || r.requests[q].sentTo != socket ==>
                  r1.requests[q] == r.requests[q] && (q in r1.pending <==> q in r.pending))
            && (session in r1.workers <==> session in r.workers && r.workers[session] != socket)
            && (session in r1.workers ==> r1.workers[session] == r.workers[session])
  {
    hide DeskOk;
    assert RequestOk(r.sockets, r.requests[q]);
    assert q in r.pending ==> PendingOk(r, q);
    if session in r.workers {
      assert r.sockets[r.workers[session]].session == session;
    }
  }

  /**
    A reply to a pending request always takes it out of the map, but answers it only when it came from the
    socket asked.  A reply from another socket of the session leaves the request with nothing that can answer
    or fail it: whatever happens next it is cancelled by the wait of its own control loop, or waits for good.
   */
  lemma WrongSocketOrphans(r: Relay, socket: nat, q: nat, screenshot: Option<string>, now: int, steps: seq<Step>)
    requires Inv(r) && socket < |r.sockets| && r.sockets[socket].connected && q in r.pending
    requires r.requests[q].session == r.sockets[socket].session
    ensures var r1 := Next(r, WorkerReplies(socket, q, screenshot, now));
            && q < |r1.requests| && q !in r1.pending && q < |Run(r1, steps).requests| && q !in Run(r1, steps).pending
            && (r.requests[q].sentTo == socket ==> Run(r1, steps).requests[q].status == Result(socket))
            && (r.requests[q].sentTo != socket ==>
                  Run(r1, steps).requests[q].status == if FirstEnd(steps, q) == Some(true) then Cancelled else Waiting)
  {
    hide DeskOk;
    hide IssueTicket;
    hide Run;
    assert PendingOk(r, q);
    OutcomeIsFinal(Next(r, WorkerReplies(socket, q, screenshot, now)), steps, q);
  }

  /**
    The orphan is reachable: a second worker of the session joins and answers a request sent to the first.
    The request then waits until its deadline, or is abandoned waiting if its loop ends before it waits.
   */
  lemma OrphanFromTheStart(session: Session, now: int)
    ensures var r := Run(NewRelay(), [WorkerJoins(session, true), ControlSends(session), WorkerJoins(session, true),
                                      WorkerReplies(1, 0, None, now)]);
            && r.requests == [Request(session, 0, Waiting, false)] && r.pending == map[]
            && r.sockets == [Socket(session, true), Socket(session, true)]
            && Next(r, ControlEnds(0, true)).requests == [Request(session, 0, Cancelled, true)]
            && Next(r, ControlEnds(0, false)).requests == [Request(session, 0, Waiting, true)]
  {
    var r1 := Next(NewRelay(), WorkerJoins(session, true));
    var r2 := Next(r1, ControlSends(session));
    var r3 := Next(r2, WorkerJoins(session, true));
    var r4 := Next(r3, WorkerReplies(1, 0, None, now));
    assert r2.pending - {0} == map[];
    Steps4(NewRelay(), WorkerJoins(session, true), ControlSends(session), WorkerJoins(session, true),
           WorkerReplies(1, 0, None, now));
  }

  lemma Steps4(r: Relay, a: Step, b: Step, c: Step, d: Step)
    ensures Run(r, [a, b, c, d]) == Next(Next(Next(Next(r, a), b), c), d)
  {
    hide Next;
    var ra := Next(r, a);
    var rb := Next(ra, b);
    var rc := Next(rb, c);
    assert [a, b, c, d][1..] == [b, c, d] && [b, c, d][1..] == [c, d] && [c, d][1..] == [d];
    assert Run(ra, [b, c, d]) == Run(rb, [c, d]);
    assert Run(rb, [c, d]) == Run(rc, [d]);
    assert Run(rc, [d]) == Run(Next(rc, d), []);
  }
}

module OwnedSessionRelay {
  import opened RelayModel
  import opened RelayProofs

  lemma FailNone(requests: seq<Request>)
    ensures FailAll(requests, {}) == requests
  {
  }

  lemma FailOne(requests: seq<Request>, done: set<nat>, q: nat)
    requires q < |requests| && q !in done
    ensures |FailAll(requests, done)| == |requests| && FailAll(requests, done)[q] == requests[q]
    ensures FailAll(requests, done + {q})
            == if requests[q].status.Waiting? then FailAll(requests, done)[q := requests[q].(status := Failed)]
               else FailAll(requests, done)
  {
  }

  lemma HeldIs(pending: map<nat, nat>, requests: seq<Request>, session: Session, socket: nat)
    ensures forall q :: q in Held(pending, requests, session, socket) <==>
              q in pending && pending[q] == socket && q < |requests| && requests[q].session == session
    ensures Held(pending, requests, session, socket) <= pending.Keys
  {
  }

  lemma OneFewer(held: set<nat>, left: set<nat>, q: nat)
    requires q in left
    ensures held - (left - {q}) == if q in held then held - left + {q} else held - left
  {
  }

  lemma MinusTwice(m: map<nat, nat>, done: set<nat>, q: nat)
    ensures m - done - {q} == m - (done + {q})
  {
  }

  class OwnedSessionTunnel {
    var workers: map<Session, nat>
    var local: map<Session, nat>
    var pending: map<nat, nat>
    var sockets: seq<Socket>
    var requests: seq<Request>
    var bridges: Desk
    var screenshots: Desk

    ghost function View(): Relay
      reads this
    {
      Relay(workers, local, pending, sockets, requests, bridges, screenshots)
    }

    constructor ()
      ensures View() == NewRelay() && Inv(View())
    {
      workers, local, pending, sockets, requests := map[], map[], map[], [], [];
      bridges, screenshots := EmptyDesk(), EmptyDesk();
      new;
      NewRelayOk();
    }

    method AttachLocal(session: Session, context: nat)
      requires Inv(View())
      modifies this`local
      ensures View() == Next(old(View()), Step.AttachLocal(session, context)) && Inv(View())
    {
      NextKeeps(View(), Step.AttachLocal(session, context));
      local := local[session := context];
    }

    method DetachLocal(session: Session, context: nat)
      requires Inv(View())
      modifies this`local
      ensures View() == Next(old(View()), Step.DetachLocal(session, context)) && Inv(View())
    {
      NextKeeps(View(), Step.DetachLocal(session, context));
      if session in local && local[session] == context {
        local := local - {session};
      }
    }

    /** Sweeps the expired tickets, evicts the oldest when full, and adds one. */
    static method Add(d: Desk, session: Session, payload: string, now: int) returns (d1: Desk, ticket: nat)
      ensures d1 == IssueTicket(d, session, payload, now) && ticket == |d.issued|
    {
      var kept := [];
      for i := 0 to |d.open|
        invariant kept == Unexpired(d.open[..i], now)
      {
        assert d.open[..i + 1][..i] == d.open[..i];
        if d.open[i].expires > now {
          kept := kept + [d.open[i]];
        }
      }
      assert d.open[..|d.open|] == d.open;
      if |kept| >= CAPACITY {
        kept := kept[1..];
      }
      ticket := |d.issued|;
      d1 := Desk(kept + [Ticket(ticket, session, payload, now + LIFETIME)], d.issued + [Issue(session, payload, now)], d.redeemed);
    }

    method ExchangeControl(session: Session, tokenConsumed: bool, now: int) returns (bridge: Option<nat>)
      requires Inv(View())
      modifies this`bridges
      ensures View() == Next(old(View()), Step.ExchangeControl(session, tokenConsumed, now)) && Inv(View())
      ensures bridge == if tokenConsumed then Some(|old(bridges.issued)|) else None
    {
      NextKeeps(View(), Step.ExchangeControl(session, tokenConsumed, now));
      if !tokenConsumed { return None; }
      var ticket;
      bridges, ticket := Add(bridges, session, "", now);
      return Some(ticket);
    }

    method ConsumeBridge(session: Session, bridge: nat, now: int) returns (ok: bool)
      requires Inv(View())
      modifies this`bridges
      ensures View() == Next(old(View()), Step.ConsumeBridge(session, bridge, now)) && Inv(View())
      ensures ok <==> bridges.redeemed == old(bridges.redeemed) + [Redemption(bridge, session, now)]
      ensures ok ==> bridge < |bridges.issued| && bridges.issued[bridge].session == session &&
                     now < bridges.issued[bridge].at + LIFETIME
    {
      NextKeeps(View(), Step.ConsumeBridge(session, bridge, now));
      var t := Lookup(bridges.open, bridge);
      ok := t.Some? && t.value.session == session && t.value.expires > now;
      if ok {
        assert Matches(t.value, bridges.issued[bridge]);
      }
      bridges := Desk(Without(bridges.open, bridge), bridges.issued,
                      if ok then bridges.redeemed + [Redemption(bridge, session, now)] else bridges.redeemed);
    }

    /** The artifact's hash, for the session the ticket was made for. */
    method ConsumeScreenshot(session: Session, ticket: nat, now: int) returns (hash: Option<string>)
      requires Inv(View())
      modifies this`screenshots
      ensures View() == Next(old(View()), Step.ConsumeScreenshot(session, ticket, now)) && Inv(View())
      ensures hash.Some? ==> ticket < |screenshots.issued| && screenshots.issued[ticket].session == session &&
                             screenshots.issued[ticket].payload == hash.value && now < screenshots.issued[ticket].at + LIFETIME
    {
      NextKeeps(View(), Step.ConsumeScreenshot(session, ticket, now));
      var t := Lookup(screenshots.open, ticket);
      var ok := t.Some? && t.value.session == session && t.value.expires > now;
      hash := None;
      if ok {
        assert Matches(t.value, screenshots.issued[ticket]);
        hash := Some(t.value.payload);
      }
      screenshots := Desk(Without(screenshots.open, ticket), screenshots.issued,
                          if ok then screenshots.redeemed + [Redemption(ticket, session, now)] else screenshots.redeemed);
    }

    method WorkerJoins(session: Session, tokenConsumed: bool) returns (socket: Option<nat>)
      requires Inv(View())
      modifies this`workers, this`sockets
      ensures View() == Next(old(View()), Step.WorkerJoins(session, tokenConsumed)) && Inv(View())
      ensures socket == if tokenConsumed then Some(|old(sockets)|) else None
    {
      NextKeeps(View(), Step.WorkerJoins(session, tokenConsumed));
      if !tokenConsumed { return None; }
      socket := Some(|sockets|);
      workers := workers[session := |sockets|];
      sockets := sockets + [Socket(session, true)];
    }

    method WorkerReplies(socket: nat, request: nat, screenshot: Option<string>, now: int)
      requires Inv(View()) && socket < |sockets| && sockets[socket].connected
      modifies this`pending, this`requests, this`screenshots
      ensures View() == Next(old(View()), Step.WorkerReplies(socket, request, screenshot, now)) && Inv(View())
    {
      NextKeeps(View(), Step.WorkerReplies(socket, request, screenshot, now));
      if screenshot.Some? {
        var ticket;
        screenshots, ticket := Add(screenshots, sockets[socket].session, screenshot.value, now);
      }
      if request < |requests| && requests[request].session == sockets[socket].session && request in pending {
        var asked := pending[request];
        pending := pending - {request};
        if asked == socket && requests[request].status.Waiting? {
          requests := requests[request := requests[request].(status := Result(socket))];
        }
      }
    }

    /** The finally clause of a worker connection. */
    method WorkerLeaves(socket: nat)
      requires Inv(View()) && socket < |sockets| && sockets[socket].connected
      modifies this`workers, this`pending, this`requests, this`sockets
      ensures View() == Next(old(View()), Step.WorkerLeaves(socket)) && Inv(View())
    {
      hide Inv;
      hide FailAll;
      hide Held;
      NextKeeps(View(), Step.WorkerLeaves(socket));
      var session := sockets[socket].session;
      if session in workers && workers[session] == socket {
        workers := workers - {session};
      }
      pending, requests := DropPending(pending, requests, session, socket);
      sockets := sockets[socket := sockets[socket].(connected := false)];
    }

    static method DropPending(pending: map<nat, nat>, requests: seq<Request>, session: Session, socket: nat)
      returns (kept: map<nat, nat>, settled: seq<Request>)
      ensures kept == pending - Held(pending, requests, session, socket)
      ensures settled == FailAll(requests, Held(pending, requests, session, socket))
    {
      hide FailAll;
      hide Held;
      ghost var held := Held(pending, requests, session, socket);
      kept, settled := pending, requests;
      ghost var done: set<nat> := {};
      var left := pending.Keys;
      FailNone(requests);
      HeldIs(pending, requests, session, socket);
      while left != {}
        invariant left <= pending.Keys && done == held - left && held <= pending.Keys
        invariant kept == pending - done && settled == FailAll(requests, done)
        decreases |left|
      {
        var q :| q in left;
        OneFewer(held, left, q);
        MinusTwice(pending, done, q);
        left := left - {q};
        if q < |requests| && requests[q].session == session && pending[q] == socket {
          FailOne(requests, done, q);
          done := done + {q};
          kept := kept - {q};
          if settled[q].status.Waiting? {
            settled := settled[q := settled[q].(status := Failed)];
          }
        }
      }
      assert held - left == held;
    }

    method ControlSends(session: Session) returns (request: Option<nat>)
      requires Inv(View())
      modifies this`pending, this`requests
      ensures View() == Next(old(View()), Step.ControlSends(session)) && Inv(View())
      ensures request.Some? <==> Sends(old(View()), session)
      ensures request.Some? ==> request.value in pending && pending[request.value] == workers[session]
    {
      NextKeeps(View(), Step.ControlSends(session));
      if session in local || session !in workers { return None; }
      request := Some(|requests|);
      pending := pending[|requests| := workers[session]];
      requests := requests + [Request(session, workers[session], Waiting, false)];
    }

    /** The end of a control request: answered, abandoned, or (`timedOut`) cancelled by its wait; then the finally clause. */
    method ControlEnds(request: nat, timedOut: bool)
      requires Inv(View()) && request < |requests| && !requests[request].ended
      modifies this`pending, this`requests
      ensures View() == Next(old(View()), Step.ControlEnds(request, timedOut)) && Inv(View())
      ensures request !in pending
    {
      NextKeeps(View(), Step.ControlEnds(request, timedOut));
      if timedOut && requests[request].status.Waiting? {
        requests := requests[request := requests[request].(status := Cancelled)];
      }
      if request in pending && requests[request].status.Waiting? {
        requests := requests[request := requests[request].(status := Cancelled)];
      }
      pending := pending - {request};
      requests := requests[request := requests[request].(ended := true)];
    }
  }
}
