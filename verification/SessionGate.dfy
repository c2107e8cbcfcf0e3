/**
  The gate between the session tables and the relay (app/acquisition/owned_session.py:89-104,
  app/acquisition/sessions.py:192-213): a control connection needs a bridge, and a bridge needs a control token.
  One run of the database and the relay together, under one clock.
 */
module SessionGate {
  import Q = QueueModel
  import QI = QueueInvariant
  import QR = QueueRuns
  import R = RelayModel
  import RP = RelayProofs

  /** A control token that the database has consumed for an exchange. */
  datatype Consumption = Consumption(session: Q.SessionId, hash: Q.TokenHash, at: int)

  /** `waiting`: consumed, the exchange not yet resumed.  `granted[b]` is what bridge b was issued for. */
  datatype Gate = Gate(db: Q.Db, relay: R.Relay, waiting: seq<Consumption>, granted: seq<Consumption>)

  /**
    An exchange awaits the database (Consume) and resumes later (Grant).  Everything else is a transaction, the
    passing of time, or a step of the relay, which reads the same clock.
   */
  datatype Step =
    | Transact(transaction: QR.Step)
    | Consume(session: Q.SessionId, hash: Q.TokenHash)
    | Grant(exchange: nat)
    | Join(worker: Q.SessionId, token: Q.TokenHash)
    | Relay(step: R.Step)

  /** The relay's step at the time of the clock. */
  function Timed(s: R.Step, now: int): R.Step {
    match s
    case ConsumeBridge(session, bridge, _) => R.Step.ConsumeBridge(session, bridge, now)
    case ConsumeScreenshot(session, ticket, _) => R.Step.ConsumeScreenshot(session, ticket, now)
    case WorkerReplies(socket, request, screenshot, _) => R.Step.WorkerReplies(socket, request, screenshot, now)
    case _ => s
  }

  ghost function Next(g: Gate, s: Step): (g1: Gate)
    requires QI.Inv(g.db)
    ensures QI.Inv(g1.db)
  {
    match s
    case Transact(t) => g.(db := QR.Next(g.db, t))
    case Consume(session, hash) =>
      var db := QR.Next(g.db, QR.DoConsumeToken(session, Q.Control, hash));
      if Q.ConsumeToken(g.db, session, Q.Control, hash).1
      then g.(db := db, waiting := g.waiting + [Consumption(session, hash, g.db.now)])
      else g.(db := db)
    case Grant(i) =>
      if i >= |g.waiting| then g
      else Gate(g.db, R.Next(g.relay, R.ExchangeControl(g.waiting[i].session, true, g.db.now)),
                g.waiting[..i] + g.waiting[i + 1..], g.granted + [g.waiting[i]])
    case Join(session, hash) =>
      g.(db := QR.Next(g.db, QR.DoConsumeToken(session, Q.WorkerScope, hash)),
         relay := R.Next(g.relay, R.WorkerJoins(session, Q.ConsumeToken(g.db, session, Q.WorkerScope, hash).1)))
    case Relay(step) =>
      if step.ExchangeControl? || step.WorkerJoins? then g else g.(relay := R.Next(g.relay, Timed(step, g.db.now)))
  }

  ghost function Run(g: Gate, steps: seq<Step>): (g1: Gate)
    requires QI.Inv(g.db)
    ensures QI.Inv(g1.db)
    decreases |steps|
  {
    if steps == [] then g else Run(Next(g, steps[0]), steps[1..])
  }

  ghost function Start(now: int): Gate { Gate(QR.EmptyDb(now), R.NewRelay(), [], []) }

  /** The token was consumed before its session expired, and stays consumed. */
  predicate Paid(db: Q.Db, c: Consumption) {
    && c.session in db.sessions && c.at < db.sessions[c.session].expires && c.at <= db.now
    && c.hash in db.tokens && db.tokens[c.hash].consumed.Some?
  }

  predicate Grants(i: R.Issue, c: Consumption) { i.session == c.session && c.at <= i.at }

  ghost predicate Inv(g: Gate) {
    && RP.Inv(g.relay)
    && |g.granted| == |g.relay.bridges.issued|
    && (forall i :: 0 <= i < |g.granted| ==> Paid(g.db, g.granted[i]) && Grants(g.relay.bridges.issued[i], g.granted[i]))
    && (forall i :: 0 <= i < |g.waiting| ==> Paid(g.db, g.waiting[i]))
    && Different(g.granted + g.waiting)
  }

  predicate Different(cs: seq<Consumption>) { forall i, j :: 0 <= i < j < |cs| ==> cs[i].hash != cs[j].hash }

  lemma PaidStays(db: Q.Db, db1: Q.Db, c: Consumption)
    requires Paid(db, c) && QR.Evolves(db, db1)
    ensures Paid(db1, c)
  {
  }

  lemma NextEvolves(db: Q.Db, t: QR.Step)
    requires QI.Inv(db)
    ensures QR.Evolves(db, QR.Next(db, t))
  {
    hide QI.Inv;
    hide QR.Evolves;
    hide QR.Apply;
    QI.InvParts(db);
    QR.EvolvesJobs(db, db.jobs);
    if QR.Legal(db, t) {
      QR.StepEvolves(db, t);
    }
  }

  /** A transaction and a relay step that issues no bridge keep what was granted. */
  lemma Elsewhere(g: Gate, db: Q.Db, relay: R.Relay)
    requires Inv(g) && RP.Inv(relay) && QR.Evolves(g.db, db) && relay.bridges.issued == g.relay.bridges.issued
    ensures Inv(g.(db := db, relay := relay))
  {
    hide RP.Inv;
    hide QR.Evolves;
    hide Paid;
    hide Different;
    forall i | 0 <= i < |g.granted| ensures Paid(db, g.granted[i]) { PaidStays(g.db, db, g.granted[i]); }
    forall i | 0 <= i < |g.waiting| ensures Paid(db, g.waiting[i]) { PaidStays(g.db, db, g.waiting[i]); }
  }

  lemma SameIssued(r: R.Relay, s: R.Step)
    requires !s.ExchangeControl?
    ensures R.Next(r, s).bridges.issued == r.bridges.issued
  {
  }

  /** The consumption is paid for, and by a token that was not consumed before. */
  lemma ConsumptionPaid(db: Q.Db, session: Q.SessionId, hash: Q.TokenHash)
    requires QI.Inv(db) && Q.ConsumeToken(db, session, Q.Control, hash).1
    ensures Paid(QR.Next(db, QR.DoConsumeToken(session, Q.Control, hash)), Consumption(session, hash, db.now))
    ensures hash in db.tokens && db.tokens[hash].consumed.None?
  {
    hide QI.Inv;
    hide QR.Run;
    QR.TokenConsumedOnce(db, [], session, Q.Control, hash);
    QI.InvParts(db);
  }

  lemma ConsumeKeeps(g: Gate, session: Q.SessionId, hash: Q.TokenHash)
    requires Inv(g) && QI.Inv(g.db) && Q.ConsumeToken(g.db, session, Q.Control, hash).1
    ensures Inv(Next(g, Consume(session, hash)))
  {
    hide RP.Inv;
    hide QI.Inv;
    hide QR.Evolves;
    hide QR.Next;
    var t := QR.DoConsumeToken(session, Q.Control, hash);
    NextEvolves(g.db, t);
    Elsewhere(g, QR.Next(g.db, t), g.relay);
    ConsumptionPaid(g.db, session, hash);
    hide Q.ConsumeToken;
    var c := Consumption(session, hash, g.db.now);
    var all := g.granted + g.waiting;
    assert forall i :: 0 <= i < |all| ==> Paid(g.db, all[i]);
    assert g.granted + (g.waiting + [c]) == all + [c];
  }

  lemma GrantKeeps(g: Gate, k: nat)
    requires Inv(g) && QI.Inv(g.db) && k < |g.waiting|
    ensures Inv(Next(g, Grant(k)))
  {
    hide RP.Inv;
    hide QI.Inv;
    hide Paid;
    var s := R.ExchangeControl(g.waiting[k].session, true, g.db.now);
    RP.NextKeeps(g.relay, s);
    WaitingPaid(g, k);
    var g1 := Next(g, Grant(k));
    assert g1.relay.bridges.issued == g.relay.bridges.issued + [R.Issue(g.waiting[k].session, "", g.db.now)];
    Moved(g.granted, g.waiting, k);
  }

  lemma WaitingPaid(g: Gate, k: nat)
    requires Inv(g) && k < |g.waiting|
    ensures Paid(g.db, g.waiting[k]) && g.waiting[k].at <= g.db.now
  {
  }

  lemma Moved(a: seq<Consumption>, b: seq<Consumption>, k: nat)
    requires Different(a + b) && k < |b|
    ensures Different((a + [b[k]]) + (b[..k] + b[k + 1..]))
  {
    var all, moved := a + b, (a + [b[k]]) + (b[..k] + b[k + 1..]);
    forall i, j | 0 <= i < j < |moved| ensures moved[i].hash != moved[j].hash {
      var was := (x: int) => if x < |a| then x else if x == |a| then |a| + k else if x <= |a| + k then x - 1 else x;
      assert moved[i] == all[was(i)] && moved[j] == all[was(j)] && was(i) != was(j);
      assert all[was(i)].hash != all[was(j)].hash;
    }
  }

  lemma NextKeeps(g: Gate, s: Step)
    requires Inv(g) && QI.Inv(g.db)
    ensures Inv(Next(g, s))
  {
    hide Inv;
    hide QI.Inv;
    hide QR.Evolves;
    hide R.Next;
    hide RP.Inv;
    RelayOk(g);
    match s
    case Transact(t) =>
      NextEvolves(g.db, t);
      Elsewhere(g, QR.Next(g.db, t), g.relay);
    case Consume(session, hash) =>
      NextEvolves(g.db, QR.DoConsumeToken(session, Q.Control, hash));
      Elsewhere(g, QR.Next(g.db, QR.DoConsumeToken(session, Q.Control, hash)), g.relay);
      if Q.ConsumeToken(g.db, session, Q.Control, hash).1 {
        ConsumeKeeps(g, session, hash);
      }
    case Grant(i) =>
      if i < |g.waiting| {
        GrantKeeps(g, i);
      }
    case Join(session, hash) =>
      var join := R.WorkerJoins(session, Q.ConsumeToken(g.db, session, Q.WorkerScope, hash).1);
      NextEvolves(g.db, QR.DoConsumeToken(session, Q.WorkerScope, hash));
      RP.NextKeeps(g.relay, join);
      SameIssued(g.relay, join);
      Elsewhere(g, QR.Next(g.db, QR.DoConsumeToken(session, Q.WorkerScope, hash)), R.Next(g.relay, join));
    case Relay(step) =>
      if !step.ExchangeControl? && !step.WorkerJoins? {
        var timed := Timed(step, g.db.now);
        RP.NextKeeps(g.relay, timed);
        SameIssued(g.relay, timed);
        NextEvolvesNot(g.db);
        Elsewhere(g, g.db, R.Next(g.relay, timed));
      }
  }

  lemma RelayOk(g: Gate)
    requires Inv(g)
    ensures RP.Inv(g.relay)
  {
  }

  lemma NextEvolvesNot(db: Q.Db)
    ensures QR.Evolves(db, db)
  {
  }

  lemma {:induction false} RunKeeps(g: Gate, steps: seq<Step>)
    requires Inv(g) && QI.Inv(g.db)
    ensures Inv(Run(g, steps))
    decreases |steps|
  {
    hide Inv;
    hide QI.Inv;
    hide Next;
    if steps != [] {
      NextKeeps(g, steps[0]);
      RunKeeps(Next(g, steps[0]), steps[1..]);
    }
  }

  /**
    A control connection was opened for the session of the token that was consumed for its bridge, within sixty
    seconds of the bridge; the token was consumed before the session expired.
   */
  predicate Accounted(g: Gate, red: R.Redemption) {
    && red.id < |g.granted| && |g.granted| == |g.relay.bridges.issued|
    && var c, issue := g.granted[red.id], g.relay.bridges.issued[red.id];
       && red.session == c.session && c.session in g.db.sessions && c.hash in g.db.tokens
       && g.db.tokens[c.hash].consumed.Some?
       && c.at < g.db.sessions[c.session].expires && c.at <= issue.at && red.at < issue.at + R.LIFETIME
  }

  /** How long the exchange behind a bridge waited for the database's answer. */
  function Lag(g: Gate, bridge: nat): int
    requires bridge < |g.granted| && |g.granted| == |g.relay.bridges.issued|
  {
    g.relay.bridges.issued[bridge].at - g.granted[bridge].at
  }

  /**
    In every run of the database and the relay together, each control connection is accounted for by a control
    token of its own; and it opens less than sixty seconds after the session's expiry, plus the time its
    exchange waited for the database.
   */
  lemma ControlNeedsToken(now: int, steps: seq<Step>)
    ensures var g := Run(Start(now), steps);
            var done := g.relay.bridges.redeemed;
            && (forall k :: 0 <= k < |done| ==>
                  && Accounted(g, done[k])
                  && done[k].at < g.db.sessions[done[k].session].expires + R.LIFETIME + Lag(g, done[k].id))
            && (forall j, k :: 0 <= j < k < |done| ==> g.granted[done[j].id].hash != g.granted[done[k].id].hash)
  {
    hide Run;
    hide QI.Inv;
    StartOk(now);
    RunKeeps(Start(now), steps);
    Connections(Run(Start(now), steps));
  }

  lemma Connections(g: Gate)
    requires Inv(g)
    ensures var done := g.relay.bridges.redeemed;
            && (forall k :: 0 <= k < |done| ==>
                  && Accounted(g, done[k])
                  && done[k].at < g.db.sessions[done[k].session].expires + R.LIFETIME + Lag(g, done[k].id))
            && (forall j, k :: 0 <= j < k < |done| ==> g.granted[done[j].id].hash != g.granted[done[k].id].hash)
  {
    RP.InvDesks(g.relay);
    var d := g.relay.bridges;
    forall k | 0 <= k < |d.redeemed|
      ensures Accounted(g, d.redeemed[k])
    {
      assert RP.RedeemedWell(d, d.redeemed[k]);
      assert Paid(g.db, g.granted[d.redeemed[k].id]) && Grants(d.issued[d.redeemed[k].id], g.granted[d.redeemed[k].id]);
    }
    forall j, k | 0 <= j < k < |d.redeemed|
      ensures g.granted[d.redeemed[j].id].hash != g.granted[d.redeemed[k].id].hash
    {
      assert Accounted(g, d.redeemed[j]) && Accounted(g, d.redeemed[k]);
      DifferentPrefix(g.granted, g.waiting, d.redeemed[j].id, d.redeemed[k].id);
    }
  }

  lemma DifferentPrefix(a: seq<Consumption>, b: seq<Consumption>, i: nat, j: nat)
    requires Different(a + b) && i < |a| && j < |a| && i != j
    ensures a[i].hash != a[j].hash
  {
    assert (a + b)[i] == a[i] && (a + b)[j] == a[j];
  }

  lemma StartOk(now: int)
    ensures Inv(Start(now)) && QI.Inv(Start(now).db)
  {
    hide QI.Inv;
    RP.NewRelayOk();
  }

  /** What any run says of a bridge that is still open: for which session and when it was issued. */
  lemma OpenBridges(now: int, steps: seq<Step>)
    ensures var g := Run(Start(now), steps);
            forall t :: t in g.relay.bridges.open ==>
              && t.id < |g.relay.bridges.issued| && t.session == g.relay.bridges.issued[t.id].session
              && t.expires == g.relay.bridges.issued[t.id].at + R.LIFETIME && t.session in g.db.sessions
  {
    hide Run;
    hide QI.Inv;
    StartOk(now);
    RunKeeps(Start(now), steps);
    var g := Run(Start(now), steps);
    RP.InvDesks(g.relay);
    forall t | t in g.relay.bridges.open
      ensures t.id < |g.relay.bridges.issued| && RP.Matches(t, g.relay.bridges.issued[t.id]) && t.session in g.db.sessions
    {
      assert Paid(g.db, g.granted[t.id]) && Grants(g.relay.bridges.issued[t.id], g.granted[t.id]);
    }
  }

  /**
    A bridge still open in a run can open a connection sixty seconds or more after its session's expiry if and only
    if it was issued after that expiry, and its own sixty seconds are not over.
   */
  lemma LateIffIssuedLate(now: int, steps: seq<Step>, t: R.Ticket)
    requires t in Run(Start(now), steps).relay.bridges.open
    ensures var g := Run(Start(now), steps);
            && t.id < |g.relay.bridges.issued| && t.session in g.db.sessions
            && var issued, expires := g.relay.bridges.issued[t.id].at, g.db.sessions[t.session].expires;
               ((exists at :: g.db.now <= at && R.Good(R.Some(t), t.session, at) && at >= expires + R.LIFETIME)
                <==> issued > expires && g.db.now < issued + R.LIFETIME)
  {
    hide Run;
    OpenBridges(now, steps);
    var g := Run(Start(now), steps);
    var issued, expires := g.relay.bridges.issued[t.id].at, g.db.sessions[t.session].expires;
    var at := if g.db.now < expires + R.LIFETIME then expires + R.LIFETIME else g.db.now;
    assert R.Good(R.Some(t), t.session, at) <==> at < issued + R.LIFETIME;
  }

  // ---- such a run --------------------------------------------------------------------------

  lemma {:induction false} RunSnoc(g: Gate, steps: seq<Step>, s: Step)
    requires QI.Inv(g.db)
    ensures Run(g, steps + [s]) == Next(Run(g, steps), s)
    decreases |steps|
  {
    hide Next;
    hide QI.Inv;
    if steps == [] {
      assert [s][1..] == [];
      assert steps + [s] == [s];
      assert Run(g, [s]) == Run(Next(g, s), []);
    } else {
      assert (steps + [s])[1..] == steps[1..] + [s];
      RunSnoc(Next(g, steps[0]), steps[1..], s);
    }
  }

  const SUBMISSION: Q.Submission := Q.Submission(10000, 10, 10, 10, 3, "o", 5, 3)

  function NewJob(): Q.Job { Q.Job(Q.JobPending, 10000, false, 10, 10, 10, 3, 1, 0, 0, 0, 0, 0, 0, 0) }

  /** A job, its task leased, parked for five minutes, and a control token for it. */
  function Parking(worker: Q.Worker, lease: Q.LeaseToken, hash: Q.TokenHash): seq<Step> {
    [Transact(QR.DoSubmit(1, 1, SUBMISSION))] + [Transact(QR.DoClaim(1, worker, lease))]
    + [Transact(QR.DoWaitForInput(1, lease, worker, 5, 300))] + [Transact(QR.DoIssueToken(5, Q.Control, 300, hash))]
  }

  lemma Parked(worker: Q.Worker, lease: Q.LeaseToken, hash: Q.TokenHash)
    ensures var g := Run(Start(0), Parking(worker, lease, hash));
            && g.db.now == 0 && g.db.sessions == map[5 := Q.Session(1, Q.None, Q.Waiting, 300)]
            && g.db.tokens == map[hash := Q.TokenRow(5, Q.Control, 300, Q.None)]
            && g.relay == R.NewRelay() && g.waiting == [] && g.granted == []
  {
    var d0 := QR.EmptyDb(0);
    var d1 := QR.Next(d0, QR.DoSubmit(1, 1, SUBMISSION));
    var d2 := QR.Next(d1, QR.DoClaim(1, worker, lease));
    var d3 := QR.Next(d2, QR.DoWaitForInput(1, lease, worker, 5, 300));
    var d4 := QR.Next(d3, QR.DoIssueToken(5, Q.Control, 300, hash));
    Leased(worker, lease);
    IssuedFor(d3, hash);
    var s1, s2 := Transact(QR.DoSubmit(1, 1, SUBMISSION)), Transact(QR.DoClaim(1, worker, lease));
    var s3, s4 := Transact(QR.DoWaitForInput(1, lease, worker, 5, 300)), Transact(QR.DoIssueToken(5, Q.Control, 300, hash));
    hide QR.Next;
    hide QI.Inv;
    hide Run;
    RunOne(Start(0), s1);
    RunSnoc(Start(0), [s1], s2);
    RunSnoc(Start(0), [s1] + [s2], s3);
    RunSnoc(Start(0), [s1] + [s2] + [s3], s4);
  }

  lemma RunOne(g: Gate, s: Step)
    requires QI.Inv(g.db)
    ensures Run(g, [s]) == Next(g, s)
  {
    hide Next;
    hide QI.Inv;
    assert [s][1..] == [];
    assert Run(g, [s]) == Run(Next(g, s), []);
  }

  lemma Submitted()
    ensures QR.Next(QR.EmptyDb(0), QR.DoSubmit(1, 1, SUBMISSION))
            == Q.Db(0, map[1 := Q.NewTask(1, "o", 5, 0, 3)], map[1 := NewJob()], map[], map[], map[], {})
  {
    hide QI.Inv;
    QI.InvParts(QR.EmptyDb(0));
  }

  lemma Claims(db: Q.Db, worker: Q.Worker, lease: Q.LeaseToken)
    requires QI.Inv(db)
    requires db == Q.Db(0, map[1 := Q.NewTask(1, "o", 5, 0, 3)], map[1 := NewJob()], map[], map[], map[], {})
    ensures var d := QR.Next(db, QR.DoClaim(1, worker, lease));
            && d.now == 0 && d.sessions == map[] && d.tokens == map[] && 1 in d.tasks && Q.Fenced(d, 1, lease)
            && d.tasks[1].owner == Q.Some(worker) && d.tasks[1].job == 1 && 1 in d.jobs
            && !d.jobs[1].cancelRequested && d.jobs[1].deadline == 10000
  {
    hide QI.Inv;
    hide Q.Drain;
    QI.InvParts(db);
    assert QR.Apply(db, QR.DoClaim(1, worker, lease)) == Q.Grant(db, 1, worker, lease, 1);
  }

  lemma Waits(db: Q.Db, worker: Q.Worker, lease: Q.LeaseToken)
    requires QI.Inv(db) && db.now == 0 && db.sessions == map[] && db.tokens == map[] && Q.Fenced(db, 1, lease)
    requires db.tasks[1].owner == Q.Some(worker) && db.tasks[1].job == 1 && 1 in db.jobs
    requires !db.jobs[1].cancelRequested && db.jobs[1].deadline == 10000
    ensures var d := QR.Next(db, QR.DoWaitForInput(1, lease, worker, 5, 300));
            d.now == 0 && d.sessions == map[5 := Q.Session(1, Q.None, Q.Waiting, 300)] && d.tokens == map[]
  {
    hide QI.Inv;
    hide Q.Release;
    hide Q.DropLease;
    QI.InvParts(db);
  }

  lemma Leased(worker: Q.Worker, lease: Q.LeaseToken)
    ensures var d1 := QR.Next(QR.EmptyDb(0), QR.DoSubmit(1, 1, SUBMISSION));
            var d3 := QR.Next(QR.Next(d1, QR.DoClaim(1, worker, lease)), QR.DoWaitForInput(1, lease, worker, 5, 300));
            d3.now == 0 && d3.sessions == map[5 := Q.Session(1, Q.None, Q.Waiting, 300)] && d3.tokens == map[]
  {
    hide QI.Inv;
    hide QR.Next;
    var d1 := QR.Next(QR.EmptyDb(0), QR.DoSubmit(1, 1, SUBMISSION));
    Submitted();
    Claims(d1, worker, lease);
    Waits(QR.Next(d1, QR.DoClaim(1, worker, lease)), worker, lease);
  }

  lemma IssuedFor(db: Q.Db, hash: Q.TokenHash)
    requires QI.Inv(db) && db.now == 0 && db.sessions == map[5 := Q.Session(1, Q.None, Q.Waiting, 300)] && db.tokens == map[]
    ensures var d := QR.Next(db, QR.DoIssueToken(5, Q.Control, 300, hash));
            && d.now == 0 && d.sessions == db.sessions && d.tokens == map[hash := Q.TokenRow(5, Q.Control, 300, Q.None)]
  {
    hide QI.Inv;
    QI.InvParts(db);
  }

  /** The token is consumed one second before the session's expiry, and the exchange resumes a minute later. */
  function Late(worker: Q.Worker, lease: Q.LeaseToken, hash: Q.TokenHash): seq<Step> {
    Parking(worker, lease, hash) + [Transact(QR.Tick(299))] + [Consume(5, hash)] + [Transact(QR.Tick(61))] + [Grant(0)]
    + [Relay(R.ConsumeBridge(5, 0, 0))]
  }

  /** So a control connection can open sixty seconds after its session's expiry. */
  lemma OpensLate(worker: Q.Worker, lease: Q.LeaseToken, hash: Q.TokenHash)
    ensures var g := Run(Start(0), Late(worker, lease, hash));
            && g.relay.bridges.redeemed == [R.Redemption(0, 5, 360)] && 5 in g.db.sessions
            && 360 == g.db.sessions[5].expires + R.LIFETIME
  {
    hide QI.Inv;
    hide Run;
    var p := Parking(worker, lease, hash);
    Parked(worker, lease, hash);
    var g0 := Run(Start(0), p);
    RunSnoc(Start(0), p, Transact(QR.Tick(299)));
    RunSnoc(Start(0), p + [Transact(QR.Tick(299))], Consume(5, hash));
    RunSnoc(Start(0), p + [Transact(QR.Tick(299))] + [Consume(5, hash)], Transact(QR.Tick(61)));
    RunSnoc(Start(0), p + [Transact(QR.Tick(299))] + [Consume(5, hash)] + [Transact(QR.Tick(61))], Grant(0));
    RunSnoc(Start(0), p + [Transact(QR.Tick(299))] + [Consume(5, hash)] + [Transact(QR.Tick(61))] + [Grant(0)],
            Relay(R.ConsumeBridge(5, 0, 0)));
    var g1 := Next(g0, Transact(QR.Tick(299)));
    Ticks(g0, 299);
    var g2 := Next(g1, Consume(5, hash));
    Consumes(g1, hash);
    var g3 := Next(g2, Transact(QR.Tick(61)));
    Ticks(g2, 61);
    var g4 := Next(g3, Grant(0));
    Opens(g3, hash);
  }

  lemma Ticks(g: Gate, seconds: nat)
    requires QI.Inv(g.db)
    ensures Next(g, Transact(QR.Tick(seconds))) == g.(db := g.db.(now := g.db.now + seconds))
  {
    hide QI.Inv;
    QI.InvParts(g.db);
  }

  lemma Consumes(g: Gate, hash: Q.TokenHash)
    requires QI.Inv(g.db) && g.db.now == 299 && g.db.tokens == map[hash := Q.TokenRow(5, Q.Control, 300, Q.None)] && g.waiting == []
    ensures var g1 := Next(g, Consume(5, hash));
            g1.waiting == [Consumption(5, hash, 299)] && g1.db.now == 299 && g1.db.sessions == g.db.sessions && g1.relay == g.relay
  {
    hide QI.Inv;
    QI.InvParts(g.db);
  }

  lemma FirstTicket()
    ensures R.IssueTicket(R.EmptyDesk(), 5, "", 360) == R.Desk([R.Ticket(0, 5, "", 420)], [R.Issue(5, "", 360)], [])
  {
    assert R.Unexpired([], 360) == [];
  }

  lemma FirstRedeemed()
    ensures R.Redeem(R.Desk([R.Ticket(0, 5, "", 420)], [R.Issue(5, "", 360)], []), 5, 0, 360).redeemed == [R.Redemption(0, 5, 360)]
  {
    hide R.Without;
    assert R.Lookup([R.Ticket(0, 5, "", 420)], 0) == R.Some(R.Ticket(0, 5, "", 420));
  }

  lemma Opens(g: Gate, hash: Q.TokenHash)
    requires QI.Inv(g.db) && g.db.now == 360 && g.waiting == [Consumption(5, hash, 299)] && g.relay == R.NewRelay()
    ensures var g1 := Next(Next(g, Grant(0)), Relay(R.ConsumeBridge(5, 0, 0)));
            g1.relay.bridges.redeemed == [R.Redemption(0, 5, 360)] && g1.db == g.db
  {
    hide QI.Inv;
    hide QR.Next;
    hide R.IssueTicket;
    hide R.Redeem;
    FirstTicket();
    FirstRedeemed();
  }
}
