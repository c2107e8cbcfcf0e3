/**
  What a routed call comes to: which routes get their turn, what each turn leads to, and how the call ends.  The
  account below speaks of availability, adapter exits and settlements, and is proved of the router's walk.
 */
module RouterOutcomes {
  import opened ProviderCosts
  import opened AcquisitionLedger
  import opened RouterModel
  import opened RouterProofs

  /** The routes of a call, in the order in which they get their turn. */
  function Turns(x: Task, capability: Capability): seq<Route> {
    match x.requested
    case Auto =>
      (match capability
       case Ordinary => [LocalHttp]
       case StaticBlock => [OwnedProxyHttp, Unlocker]
       case Rendering => [LocalBrowser, Scrape]
       case Interactive => [Session, Interact])
    case OtherName => []
    case Only(p) =>
      if p.Local? then [if capability.Rendering? then LocalBrowser else LocalHttp]
      else if p.BrightData? then [Unlocker]
      else if p.Browserbase? then [Session]
      else [if capability.Interactive? then Interact else Scrape]
  }

  /** The adapter is offered and its provider configured. */
  predicate Up(x: Task, w: World, route: Route) {
    route in x.offered && ProviderOf(route) in w.health && w.health[ProviderOf(route)] == Configured
  }

  /** What the provider did in the attempt that this settles. */
  function ExitOf(x: Task, c: Event): Exit
    requires c.Closed?
  {
    Call(c.route, x.timeout, x.env(c.call).service)
  }

  /** The attempt on `route` between two worlds: its settlement, which ends it. */
  predicate AttemptMade(x: Task, w: World, w1: World, route: Route, c: Event) {
    && Up(x, w, route) && c.Closed? && c.route == route && ReserveCost(route, x.timeout).Some?
    && w1.trace == w.trace + [Opened(c.id, route, ReserveCost(route, x.timeout).value), c]
    && c.call == w.cursor + (if route.LocalBrowser? then 2 else 1) && w1.cursor == c.call + 2
    && (route.LocalBrowser? ==> x.env(w.cursor).navigation)
    && !x.env(c.call - 1).dbFails && HasRoom(x, w, route, c.call - 1)
    && w1.health == if Sickens(x, c) then w.health[ProviderOf(route) := Unhealthy] else w.health
  }

  /** A protocol error of the provider, seen by its adapter or by the ledger, takes the provider out of service. */
  predicate Sickens(x: Task, c: Event)
    requires c.Closed?
  {
    var exit := ExitOf(x, c);
    exit.Protocol? || (exit.Failure? && exit.code == "provider_protocol_error") || c.settlement.Impossible?
  }

  /** The ledger, as other workers have left it by then, can take the reservation. */
  predicate HasRoom(x: Task, w: World, route: Route, at: nat)
    requires ReserveCost(route, x.timeout).Some?
  {
    Grantable(ApplyAll(w.ledger, x.env(at).others), x.id, route, ReserveCost(route, x.timeout).value, x.maxAttempts,
              x.env(at).fence)
  }

  /** The settlement got no answer, or raised. */
  predicate Raised(c: Event)
    requires c.Closed?
  {
    c.settlement.Unanswered? || c.settlement.Impossible?
  }

  /** A challenge met by the plain local fetch of an ordinary page, when no provider was asked for. */
  predicate Challenged(x: Task, capability: Capability, c: Event)
    requires c.Closed?
  {
    x.requested == Auto && capability == Ordinary && c.route == LocalHttp
    && ExitOf(x, c).Failure? && ExitOf(x, c).code == "blocked_challenge"
  }

  /** What leads from one route to the next: it is down, the browser has no budget, or its attempt failed retryably. */
  ghost predicate Passes(x: Task, capability: Capability, w: World, w1: World, route: Route) {
    || (!Up(x, w, route) && w1 == w)
    || (Up(x, w, route) && route.LocalBrowser? && !x.env(w.cursor).navigation && w1 == w.(cursor := w.cursor + 1))
    || (exists c :: AttemptMade(x, w, w1, route, c) && FailedRetryably(x, capability, c))
  }

  predicate FailedRetryably(x: Task, capability: Capability, c: Event)
    requires c.Closed?
  {
    !Raised(c) && ExitOf(x, c).Failure? && ExitOf(x, c).retryable && !Challenged(x, capability, c)
  }

  /** How a call ends on an attempt that leads nowhere else. */
  predicate EndsOn(x: Task, c: Event, end: End)
    requires c.Closed?
  {
    if c.settlement.Unanswered? then end == InternalError
    else if c.settlement.Impossible? then end == Failing(Failed("provider_protocol_error", false))
    else match ExitOf(x, c)
         case Result(_) =>
           if !x.env(c.call).finalPublic then end == Failing(Failed("unsafe_final_url", false))
           else end == if x.env(c.call).normalizes then Page else InternalError
         case Failure(code, retryable, _) => !retryable && end == Failing(Failed(code, false))
         case Unsafe => end == Failing(Failed("unsafe_final_url", false))
         case Protocol => end == Failing(Failed("provider_protocol_error", false))
         case Defect => end == InternalError
  }

  /** An available route on which nothing could be reserved. */
  predicate NotReserved(x: Task, w: World, w2: World, route: Route, end: End) {
    var at := w.cursor + if route.LocalBrowser? then 1 else 0;
    && Up(x, w, route) && w2.trace == w.trace && (route.LocalBrowser? ==> x.env(w.cursor).navigation)
    && (if ReserveCost(route, x.timeout).None? then end == Failing(Failed("provider_request", false))
        else if x.env(at).dbFails then end == InternalError
        else !HasRoom(x, w, route, at) && end == Unavailable("provider_budget_exhausted"))
  }

  /** What ends a call at a route's turn. */
  ghost predicate Stops(x: Task, capability: Capability, w: World, w2: World, route: Route, end: End)
    decreases if capability.Ordinary? then 1 else 0, 1
  {
    || NotReserved(x, w, w2, route, end)
    || EndsOnAttempt(x, capability, w, w2, route, end)
    || GoesStatic(x, capability, w, w2, route, end)
  }

  /** The attempt on the route ends the call. */
  ghost predicate EndsOnAttempt(x: Task, capability: Capability, w: World, w2: World, route: Route, end: End) {
    exists c :: AttemptMade(x, w, w2, route, c) && EndsOn(x, c, end) && (Raised(c) || !Challenged(x, capability, c))
  }

  /** The attempt on the route is challenged, and the static routes are asked instead. */
  ghost predicate GoesStatic(x: Task, capability: Capability, w: World, w2: World, route: Route, end: End)
    decreases if capability.Ordinary? then 1 else 0, 0
  {
    exists wa, c, inner ::
      && AttemptMade(x, w, wa, route, c) && !Raised(c) && Challenged(x, capability, c)
      && Story(x, StaticBlock, wa, w2, inner)
      && end == if inner.Unavailable? && x.allowHuman then HumanInput else inner
  }

  /** The failure a turn leaves behind, if it leaves one. */
  function Left(x: Task, w: World, w1: World, route: Route, last: Option<Failed>): Option<Failed> {
    if w1 == w then last
    else if w1.trace == w.trace then Some(Failed("browser_budget_exhausted", false))
    else if w1.trace != [] && w1.trace[|w1.trace| - 1].Closed? && ExitOf(x, w1.trace[|w1.trace| - 1]).Failure? then
      var exit := ExitOf(x, w1.trace[|w1.trace| - 1]);
      Some(Failed(exit.code, exit.retryable))
    else last
  }

  /** The last failure that the turns between these worlds leave behind. */
  function LastLeft(x: Task, plan: seq<Route>, worlds: seq<World>, last: Option<Failed>): Option<Failed>
    decreases |plan|
  {
    if plan == [] || |worlds| < 2 then last
    else LastLeft(x, plan[1..], worlds[1..], Left(x, worlds[0], worlds[1], plan[0], last))
  }

  /** A call that has had all its turns: a human is asked about a challenge if that is allowed. */
  predicate HadAllTurns(x: Task, last: Option<Failed>, end: End) {
    if last.None? then end == Unavailable("provider_unavailable")
    else if last.value.code in ["blocked_challenge", "human_input_required"] && x.allowHuman
            && (x.requested == Auto || x.requested == Only(Local)) then end == HumanInput
    else end == Failing(last.value)
  }

  /**
    The turns of a call: `worlds` are those before each turn.  Every turn but the last passes to the next route; and
    the call ends at its last turn, or after the turns of all its routes.
   */
  ghost predicate Told(x: Task, capability: Capability, plan: seq<Route>, w: World, worlds: seq<World>, w2: World,
                       last: Option<Failed>, end: End)
    decreases if capability.Ordinary? then 1 else 0, 2
  {
    && 1 <= |worlds| <= |plan| + 1 && worlds[0] == w
    && (forall i :: 0 <= i < |worlds| - 1 ==> Passes(x, capability, worlds[i], worlds[i + 1], plan[i]))
    && (if |worlds| == |plan| + 1
        then w2 == worlds[|plan|] && HadAllTurns(x, LastLeft(x, plan, worlds, last), end)
        else Stops(x, capability, worlds[|worlds| - 1], w2, plan[|worlds| - 1], end))
  }

  /** A call from `w` to `w2`: its url is public or it fails at once; then its routes have their turns. */
  ghost predicate Story(x: Task, capability: Capability, w: World, w2: World, end: End)
    decreases if capability.Ordinary? then 1 else 0, 3
  {
    var w1 := w.(cursor := w.cursor + 1);
    if !x.env(w.cursor).publicUrl then w2 == w1 && end == Failing(Failed("unsafe_request_url", false))
    else exists worlds :: Told(x, capability, Turns(x, capability), w1, worlds, w2, None, end)
  }

  // ---- one turn -----------------------------------------------------------------------------

  lemma SettledAs(x: Task, w: World, id: nat, route: Route, j: Judged, call: nat) returns (c: Event)
    ensures var (w1, v) := Settle(x, w, id, route, j, call);
            && c.Closed? && c.id == id && c.route == route && c.call == call
            && w1.trace == w.trace + [c] && w1.cursor == w.cursor + 1
            && w1.health == (if c.settlement.Impossible? then w.health[ProviderOf(route) := Unhealthy] else w.health)
            && v == (if c.settlement.Unanswered? then Leave(InternalError)
                     else if c.settlement.Impossible? then Leave(Failing(Failed("provider_protocol_error", false)))
                     else j.verdict)
  {
    hide ApplyAll;
    hide Finish;
    var a := x.env(w.cursor);
    var l := ApplyAll(w.ledger, a.others);
    var settlement := if a.dbFails then Unanswered else Finish(l, id, x.token, j.outcome, j.charge, a.fence).1;
    c := Closed(id, route, j.outcome, j.charge, settlement, call, IsOpen(l, id));
  }

  /** What follows from an attempt: the next route, the static routes, or an end. */
  ghost predicate Follows(x: Task, capability: Capability, c: Event, v: Verdict)
    requires c.Closed?
  {
    match v
    case Go(next) => FailedRetryably(x, capability, c) && next == Some(Failed(ExitOf(x, c).code, ExitOf(x, c).retryable))
    case ToStatic(_) => !Raised(c) && Challenged(x, capability, c)
    case Leave(end) => EndsOn(x, c, end) && (Raised(c) || !Challenged(x, capability, c))
  }

  lemma JudgedSo(x: Task, capability: Capability, c: Event, reserved: Cost)
    requires c.Closed? && !Raised(c)
    ensures Follows(x, capability, c, Judge(x, capability, c.route, reserved, ExitOf(x, c), x.env(c.call)).verdict)
  {
    hide Call;
  }

  lemma JudgedSick(x: Task, capability: Capability, route: Route, reserved: Cost, exit: Exit, a: Answer)
    ensures Judge(x, capability, route, reserved, exit, a).sick
            <==> exit.Protocol? || (exit.Failure? && exit.code == "provider_protocol_error")
  {
  }

  lemma AttemptFollows(x: Task, w: World, capability: Capability, route: Route, id: nat, reserved: Cost) returns (c: Event)
    ensures var (w1, v) := Attempting(x, w, capability, route, id, reserved);
            && c.Closed? && c.id == id && c.route == route && c.call == w.cursor
            && w1.trace == w.trace + [c] && w1.cursor == w.cursor + 2
            && w1.health == (if Sickens(x, c) then w.health[ProviderOf(route) := Unhealthy] else w.health)
            && Follows(x, capability, c, v)
  {
    hide Settle;
    hide Judge;
    hide Call;
    var a := x.env(w.cursor);
    var j := Judge(x, capability, route, reserved, Call(route, x.timeout, a.service), a);
    JudgedSick(x, capability, route, reserved, Call(route, x.timeout, a.service), a);
    var w1 := w.(cursor := w.cursor + 1);
    c := SettledAs(x, if j.sick then Sicken(w1, ProviderOf(route)) else w1, id, route, j, w.cursor);
    if !Raised(c) {
      JudgedSo(x, capability, c, reserved);
    }
  }

  /** The turn of an available route from its reservation on: an attempt and what follows, or nothing reserved. */
  ghost predicate Turned(x: Task, capability: Capability, w: World, w1: World, route: Route, v: Verdict) {
    || (v.Leave? && NotReserved(x, w, w1, route, v.end))
    || (exists c :: AttemptMade(x, w, w1, route, c) && Follows(x, capability, c, v))
  }

  lemma ReservingTurns(x: Task, w0: World, w: World, capability: Capability, route: Route)
    requires Up(x, w0, route) && w == w0.(cursor := w.cursor) && w.cursor == w0.cursor + (if route.LocalBrowser? then 1 else 0)
    requires route.LocalBrowser? ==> x.env(w0.cursor).navigation
    ensures Turned(x, capability, w0, Reserving(x, w, capability, route).0, route, Reserving(x, w, capability, route).1)
  {
    hide ReserveCost;
    hide ApplyAll;
    hide Reserve;
    hide Attempting;
    hide Follows;
    hide ValidCost;
    hide Grantable;
    if ReserveCost(route, x.timeout).Some? && !x.env(w.cursor).dbFails {
      var a, reserved := x.env(w.cursor), ReserveCost(route, x.timeout).value;
      var l0 := ApplyAll(w.ledger, a.others);
      CostsFit(route, x.timeout, a.service);
      GrantedIff(l0, x, route, reserved, a.fence);
      var (l, r) := Reserve(l0, x.id, x.token, route, reserved, x.maxAttempts, a.fence);
      if r.Reserved? {
        var w1 := World(w.cursor + 1, w.health, l, w.trace + [Opened(r.id, route, reserved)]);
        var c := AttemptFollows(x, w1, capability, route, r.id, reserved);
        var w2 := Attempting(x, w1, capability, route, r.id, reserved).0;
        assert w2.trace == w0.trace + [Opened(r.id, route, reserved), c];
        assert AttemptMade(x, w0, w2, route, c);
      }
    }
  }

  lemma GrantedIff(l: Ledger, x: Task, route: Route, reserved: Cost, fence: Fence)
    requires ValidCost(route, reserved)
    ensures var r := Reserve(l, x.id, x.token, route, reserved, x.maxAttempts, fence).1;
            && (r.Reserved? <==> Grantable(l, x.id, route, reserved, x.maxAttempts, fence))
            && (r.Refused? <==> !Grantable(l, x.id, route, reserved, x.maxAttempts, fence))
  {
    hide ValidCost;
    hide Reserve;
    hide Grantable;
    ReservedIff(l, x.id, x.token, route, reserved, x.maxAttempts, fence);
  }

  lemma TryTurns(x: Task, w: World, capability: Capability, route: Route, last: Option<Failed>)
    ensures var (w1, v) := TryRoute(x, w, capability, route, last);
            || (!Up(x, w, route) && w1 == w && v == Go(last))
            || (&& Up(x, w, route) && route.LocalBrowser? && !x.env(w.cursor).navigation && w1 == w.(cursor := w.cursor + 1)
                && v == Go(Some(Failed("browser_budget_exhausted", false))))
            || Turned(x, capability, w, w1, route, v)
  {
    hide Reserving;
    hide Turned;
    if Up(x, w, route) {
      if !route.LocalBrowser? {
        ReservingTurns(x, w, w, capability, route);
      } else if x.env(w.cursor).navigation {
        ReservingTurns(x, w, w.(cursor := w.cursor + 1), capability, route);
      }
    }
  }

  lemma TurnedOn(x: Task, capability: Capability, w: World, w1: World, route: Route, v: Verdict) returns (c: Event)
    requires Turned(x, capability, w, w1, route, v) && v.Go?
    ensures c.Closed? && AttemptMade(x, w, w1, route, c) && FailedRetryably(x, capability, c)
    ensures ExitOf(x, c).Failure? && v.last == Some(Failed(ExitOf(x, c).code, ExitOf(x, c).retryable))
  {
    hide HasRoom;
    hide Sickens;
    hide Up;
    hide ReserveCost;
    hide NotReserved;
    hide ExitOf;
    hide EndsOn;
    hide Challenged;
    c :| AttemptMade(x, w, w1, route, c) && Follows(x, capability, c, v);
  }

  lemma AttemptLeaves(x: Task, w: World, w1: World, route: Route, c: Event, last: Option<Failed>)
    requires AttemptMade(x, w, w1, route, c) && ExitOf(x, c).Failure?
    ensures Left(x, w, w1, route, last) == Some(Failed(ExitOf(x, c).code, ExitOf(x, c).retryable))
  {
    hide ExitOf;
    hide HasRoom;
    hide Sickens;
    hide Up;
    hide ReserveCost;
    assert w1.trace[|w1.trace| - 1] == c;
  }

  /** A turn that goes on passes, and leaves behind the failure the walk carries along. */
  lemma GoingOnPasses(x: Task, w: World, capability: Capability, route: Route, last: Option<Failed>)
    requires TryRoute(x, w, capability, route, last).1.Go?
    ensures var (w1, v) := TryRoute(x, w, capability, route, last);
            Passes(x, capability, w, w1, route) && v.last == Left(x, w, w1, route, last)
  {
    hide TryRoute;
    hide FailedRetryably;
    hide AttemptMade;
    hide Turned;
    hide ExitOf;
    hide Up;
    TryTurns(x, w, capability, route, last);
    var (w1, v) := TryRoute(x, w, capability, route, last);
    if Turned(x, capability, w, w1, route, v) {
      var c := TurnedOn(x, capability, w, w1, route, v);
      RetryableIsFailure(x, capability, c);
      AttemptLeaves(x, w, w1, route, c, last);
    }
  }

  lemma RetryableIsFailure(x: Task, capability: Capability, c: Event)
    requires c.Closed? && FailedRetryably(x, capability, c)
    ensures ExitOf(x, c).Failure?
  {
    hide ExitOf;
  }

  // ---- no provider recovers during a call ---------------------------------------------------

  predicate NoneRecovers(w: World, w1: World) { forall p :: Healthy(w1, p) ==> Healthy(w, p) }

  lemma TryWanes(x: Task, w: World, capability: Capability, route: Route, last: Option<Failed>)
    ensures NoneRecovers(w, TryRoute(x, w, capability, route, last).0)
  {
    hide Reserving;
    ReservingWanes(x, w, capability, route);
    ReservingWanes(x, w.(cursor := w.cursor + 1), capability, route);
  }

  lemma ReservingWanes(x: Task, w: World, capability: Capability, route: Route)
    ensures NoneRecovers(w, Reserving(x, w, capability, route).0)
  {
    hide Attempting;
    hide ReserveCost;
    hide ApplyAll;
    hide Reserve;
    hide Healthy;
    if ReserveCost(route, x.timeout).Some? {
      var a, reserved := x.env(w.cursor), ReserveCost(route, x.timeout).value;
      var (l, r) := Reserve(ApplyAll(w.ledger, a.others), x.id, x.token, route, reserved, x.maxAttempts, a.fence);
      SameHealth(w, World(w.cursor + 1, w.health, l, w.trace));
      SameHealth(w, w.(cursor := w.cursor + 1));
      if r.Reserved? {
        var w1 := World(w.cursor + 1, w.health, l, w.trace + [Opened(r.id, route, reserved)]);
        SameHealth(w, w1);
        AttemptingWanes(x, w1, capability, route, r.id, reserved);
      }
    }
  }

  lemma SameHealth(w: World, w1: World)
    requires w1.health == w.health
    ensures NoneRecovers(w, w1)
  {
  }

  lemma AttemptingWanes(x: Task, w: World, capability: Capability, route: Route, id: nat, reserved: Cost)
    ensures NoneRecovers(w, Attempting(x, w, capability, route, id, reserved).0)
  {
    hide Call;
    hide Judge;
    hide ApplyAll;
    hide Finish;
  }

  // ---- the walk -----------------------------------------------------------------------------

  /** One more turn in front. */
  lemma ToldAfter(x: Task, capability: Capability, route: Route, plan: seq<Route>, w: World, w1: World, worlds: seq<World>,
                  w2: World, last: Option<Failed>, end: End)
    requires Passes(x, capability, w, w1, route)
    requires Told(x, capability, plan, w1, worlds, w2, Left(x, w, w1, route, last), end)
    ensures Told(x, capability, [route] + plan, w, [w] + worlds, w2, last, end)
  {
    hide Passes;
    hide Stops;
    hide Left;
    hide HadAllTurns;
    var all := [w] + worlds;
    assert ([route] + plan)[1..] == plan && all[1..] == worlds;
    forall i | 0 <= i < |all| - 1 ensures Passes(x, capability, all[i], all[i + 1], ([route] + plan)[i]) {
      if i > 0 {
        assert Passes(x, capability, worlds[i - 1], worlds[i], plan[i - 1]);
      }
    }
  }

  lemma ToldStop(x: Task, capability: Capability, plan: seq<Route>, w: World, w2: World, last: Option<Failed>, end: End)
    requires plan != [] && Stops(x, capability, w, w2, plan[0], end)
    ensures Told(x, capability, plan, w, [w], w2, last, end)
  {
    hide Stops;
  }

  lemma ToldAll(x: Task, capability: Capability, w: World, last: Option<Failed>)
    ensures Told(x, capability, [], w, [w], w, last, Exhausted(x, last))
  {
  }

  /** The walk over `walked` goes as told over `routes`. */
  ghost predicate WalkTold(x: Task, w: World, capability: Capability, walked: seq<Route>, routes: seq<Route>,
                           last: Option<Failed>, worlds: seq<World>)
  {
    Told(x, capability, routes, w, worlds, Walk(x, w, capability, walked, last).0, last, Walk(x, w, capability, walked, last).1)
  }

  /** The walk over those of `routes` that were available when it began, told over all of them. */
  lemma {:induction false} WalkTells(x: Task, w0: World, w: World, capability: Capability, routes: seq<Route>,
                                     last: Option<Failed>) returns (worlds: seq<World>)
    requires NoneRecovers(w0, w)
    ensures WalkTold(x, w, capability, Filter(x, w0, routes), routes, last, worlds)
    decreases if capability.Ordinary? then 1 else 0, 0, |routes|, 1
  {
    hide TryRoute;
    hide Told;
    hide Acquire;
    hide AfterStatic;
    hide Passes;
    hide Stops;
    hide Available;
    hide Left;
    hide NoneRecovers;
    hide Exhausted;
    if routes == [] {
      worlds := [w];
      ToldAll(x, capability, w, last);
    } else {
      assert routes == [routes[0]] + routes[1..];
      if !Available(x, w0, routes[0]) {
        assert Filter(x, w0, routes) == Filter(x, w0, routes[1..]);
        worlds := WalkTells(x, w0, w, capability, routes[1..], last);
        var (w2, end) := Walk(x, w, capability, Filter(x, w0, routes[1..]), last);
        DownPasses(x, w0, w, capability, routes[0], last);
        ToldAfter(x, capability, routes[0], routes[1..], w, w, worlds, w2, last, end);
        worlds := [w] + worlds;
      } else {
        worlds := TurnTells(x, w0, w, capability, routes, last);
      }
    }
  }

  lemma DownPasses(x: Task, w0: World, w: World, capability: Capability, route: Route, last: Option<Failed>)
    requires NoneRecovers(w0, w) && !Available(x, w0, route)
    ensures Passes(x, capability, w, w, route) && Left(x, w, w, route, last) == last
  {
  }

  lemma {:induction false} TurnTells(x: Task, w0: World, w: World, capability: Capability, routes: seq<Route>,
                                     last: Option<Failed>) returns (worlds: seq<World>)
    requires NoneRecovers(w0, w) && routes != [] && Available(x, w0, routes[0])
    ensures WalkTold(x, w, capability, Filter(x, w0, routes), routes, last, worlds)
    decreases if capability.Ordinary? then 1 else 0, 0, |routes|, 0
  {
    hide TryRoute;
    hide Told;
    hide Acquire;
    hide AfterStatic;
    hide Passes;
    hide Stops;
    hide Available;
    hide Left;
    hide NoneRecovers;
    hide Walk;
    hide WalkTold;
    var (w1, v) := TryRoute(x, w, capability, routes[0], last);
    assert Filter(x, w0, routes) == [routes[0]] + Filter(x, w0, routes[1..]);
    if v.Leave? {
      worlds := [w];
      LeaveTells(x, w, capability, routes, Filter(x, w0, routes[1..]), last);
    } else if v.Go? {
      WanesOn(w0, w, w1) by { TryWanes(x, w, capability, routes[0], last); }
      var rest := WalkTells(x, w0, w1, capability, routes[1..], v.last);
      worlds := [w] + rest;
      GoTells(x, w, capability, routes, Filter(x, w0, routes[1..]), last, rest);
    } else {
      worlds := [w];
      StaticOnlyIf(x, w, capability, routes[0], last);
      AcquireTells(x, w1, StaticBlock);
      StaticTells(x, w, capability, routes, Filter(x, w0, routes[1..]), last);
    }
  }

  lemma LeaveTells(x: Task, w: World, capability: Capability, routes: seq<Route>, rest: seq<Route>, last: Option<Failed>)
    requires routes != [] && TryRoute(x, w, capability, routes[0], last).1.Leave?
    ensures WalkTold(x, w, capability, [routes[0]] + rest, routes, last, [w])
  {
    hide TryRoute;
    hide Told;
    hide Walk;
    hide Stops;
    WalkStep(x, w, capability, routes[0], rest, last);
    LeavingStops(x, w, capability, routes[0], last);
    var (w1, v) := TryRoute(x, w, capability, routes[0], last);
    ToldStop(x, capability, routes, w, w1, last, v.end);
  }

  lemma GoTells(x: Task, w: World, capability: Capability, routes: seq<Route>, rest: seq<Route>, last: Option<Failed>,
                worlds: seq<World>)
    requires routes != [] && TryRoute(x, w, capability, routes[0], last).1.Go?
    requires var (w1, v) := TryRoute(x, w, capability, routes[0], last);
             WalkTold(x, w1, capability, rest, routes[1..], v.last, worlds)
    ensures WalkTold(x, w, capability, [routes[0]] + rest, routes, last, [w] + worlds)
  {
    hide TryRoute;
    hide Told;
    hide Walk;
    hide Passes;
    hide Left;
    WalkStep(x, w, capability, routes[0], rest, last);
    GoingOnPasses(x, w, capability, routes[0], last);
    var (w1, v) := TryRoute(x, w, capability, routes[0], last);
    assert routes == [routes[0]] + routes[1..];
    ToldAfter(x, capability, routes[0], routes[1..], w, w1, worlds, Walk(x, w1, capability, rest, v.last).0, last,
              Walk(x, w1, capability, rest, v.last).1);
  }

  lemma StaticTells(x: Task, w: World, capability: Capability, routes: seq<Route>, rest: seq<Route>, last: Option<Failed>)
    requires routes != [] && TryRoute(x, w, capability, routes[0], last).1.ToStatic? && capability.Ordinary?
    requires var w1 := TryRoute(x, w, capability, routes[0], last).0;
             Story(x, StaticBlock, w1, Acquire(x, w1, StaticBlock).0, Acquire(x, w1, StaticBlock).1)
    ensures WalkTold(x, w, capability, [routes[0]] + rest, routes, last, [w])
  {
    hide TryRoute;
    hide Told;
    hide Walk;
    hide Stops;
    hide Story;
    hide Acquire;
    WalkStep(x, w, capability, routes[0], rest, last);
    StaticStops(x, w, capability, routes[0], last);
    var w1 := TryRoute(x, w, capability, routes[0], last).0;
    ToldStop(x, capability, routes, w, Acquire(x, w1, StaticBlock).0, last, AfterStatic(x, Acquire(x, w1, StaticBlock).1));
  }

  /** One step of the walk. */
  lemma WalkStep(x: Task, w: World, capability: Capability, route: Route, rest: seq<Route>, last: Option<Failed>)
    requires TryRoute(x, w, capability, route, last).1.ToStatic? ==> capability.Ordinary?
    ensures var (w1, v) := TryRoute(x, w, capability, route, last);
            Walk(x, w, capability, [route] + rest, last) ==
              match v
              case Leave(end) => (w1, end)
              case Go(next) => Walk(x, w1, capability, rest, next)
              case ToStatic(_) => (Acquire(x, w1, StaticBlock).0, AfterStatic(x, Acquire(x, w1, StaticBlock).1))
  {
    hide TryRoute;
    hide Acquire;
    hide AfterStatic;
    assert ([route] + rest)[1..] == rest;
  }

  lemma WanesOn(w0: World, w: World, w1: World)
    requires NoneRecovers(w0, w) && NoneRecovers(w, w1)
    ensures NoneRecovers(w0, w1)
  {
    hide Healthy;
  }

  lemma LeavingStops(x: Task, w: World, capability: Capability, route: Route, last: Option<Failed>)
    requires TryRoute(x, w, capability, route, last).1.Leave?
    ensures var (w1, v) := TryRoute(x, w, capability, route, last); Stops(x, capability, w, w1, route, v.end)
  {
    hide TryRoute;
    hide AttemptMade;
    hide EndsOn;
    hide Challenged;
    hide NotReserved;
    hide FailedRetryably;
    hide Story;
    TryTurns(x, w, capability, route, last);
  }

  lemma StaticOnlyIf(x: Task, w: World, capability: Capability, route: Route, last: Option<Failed>)
    requires TryRoute(x, w, capability, route, last).1.ToStatic?
    ensures capability.Ordinary? && x.requested.Auto?
    ensures var w1 := TryRoute(x, w, capability, route, last).0;
            exists c :: AttemptMade(x, w, w1, route, c) && !Raised(c) && Challenged(x, capability, c)
  {
    hide TryRoute;
    hide AttemptMade;
    hide EndsOn;
    hide NotReserved;
    hide FailedRetryably;
    hide ExitOf;
    TryTurns(x, w, capability, route, last);
  }

  lemma StaticStops(x: Task, w: World, capability: Capability, route: Route, last: Option<Failed>)
    requires TryRoute(x, w, capability, route, last).1.ToStatic?
    requires var w1 := TryRoute(x, w, capability, route, last).0;
             Story(x, StaticBlock, w1, Acquire(x, w1, StaticBlock).0, Acquire(x, w1, StaticBlock).1)
    ensures var w1 := TryRoute(x, w, capability, route, last).0;
            Stops(x, capability, w, Acquire(x, w1, StaticBlock).0, route, AfterStatic(x, Acquire(x, w1, StaticBlock).1))
  {
    hide TryRoute;
    hide AttemptMade;
    hide NotReserved;
    hide EndsOn;
    hide Challenged;
    hide Story;
    hide Acquire;
    StaticOnlyIf(x, w, capability, route, last);
  }

  /**
    Every call, whatever the providers, the database and other workers do, goes as told: after the url check each
    route of the plan has its turn; a route is passed over exactly when it is down, its browser has no budget, or its
    attempt failed retryably; the static routes follow exactly a challenge met by the plain local fetch of an ordinary
    page; a call that has had all its turns ends with the last failure any of them left, or asks a human.
   */
  lemma {:induction false} AcquireTells(x: Task, w: World, capability: Capability)
    ensures Story(x, capability, w, Acquire(x, w, capability).0, Acquire(x, w, capability).1)
    decreases if capability.Ordinary? then 1 else 0, 2, 0, 0
  {
    hide Walk;
    hide Told;
    hide Filter;
    var w1 := w.(cursor := w.cursor + 1);
    if x.env(w.cursor).publicUrl {
      var worlds := RoutesTell(x, w1, capability);
    }
  }

  lemma {:induction false} RoutesTell(x: Task, w: World, capability: Capability) returns (worlds: seq<World>)
    ensures var routes := Routes(x, w, capability);
            var (w2, end) := if routes == [] then (w, Unavailable("provider_unavailable")) else Walk(x, w, capability, routes, None);
            Told(x, capability, Turns(x, capability), w, worlds, w2, None, end)
    decreases if capability.Ordinary? then 1 else 0, 1, 0, 0
  {
    hide Told;
    hide TryRoute;
    hide Acquire;
    worlds := WalkTells(x, w, w, capability, Turns(x, capability), None);
    WalkNone(x, w, capability);
    if x.requested.Only? {
      WalkOne(x, w, capability, Turns(x, capability)[0]);
    }
  }

  lemma WalkNone(x: Task, w: World, capability: Capability)
    ensures Walk(x, w, capability, [], None) == (w, Unavailable("provider_unavailable"))
  {
  }

  /** A single route asked for by its provider: whether it is down is seen at its turn. */
  lemma WalkOne(x: Task, w: World, capability: Capability, route: Route)
    ensures Walk(x, w, capability, [route], None) == Walk(x, w, capability, Filter(x, w, [route]), None)
  {
    hide Reserving;
    hide Acquire;
    assert [route][1..] == [];
    assert Filter(x, w, [route][1..]) == [];
  }

  // ---- a retryable failure is followed by the next route ------------------------------------

  /** The failure a call reports is the retryable one of this attempt, or a human is asked about it. */
  predicate ReportsFailure(x: Task, c: Event, end: End)
    requires c.Closed?
  {
    ExitOf(x, c).Failure? && (end.HumanInput? || end == Failing(Failed(ExitOf(x, c).code, true)))
  }

  /**
    A call that reports the retryable failure of its first route as its own, having tried nothing else, has found its
    second route down, and down it still is.
   */
  lemma OnlyADownRouteIsPassedOver(x: Task, w: World, capability: Capability, c: Event)
    requires |Turns(x, capability)| == 2 && c.Closed? && c.route == Turns(x, capability)[0]
    requires var w2 := Acquire(x, w, capability).0;
             |w2.trace| == |w.trace| + 2 && w.trace <= w2.trace && w2.trace[|w.trace| + 1] == c
    requires FailedRetryably(x, capability, c) && ReportsFailure(x, c, Acquire(x, w, capability).1)
    ensures !Up(x, Acquire(x, w, capability).0, Turns(x, capability)[1])
  {
    hide Acquire;
    hide Told;
    hide FailedRetryably;
    hide ReportsFailure;
    hide Up;
    AcquireTells(x, w, capability);
    var (w2, end) := Acquire(x, w, capability);
    var w1, plan := w.(cursor := w.cursor + 1), Turns(x, capability);
    if x.env(w.cursor).publicUrl {
      var worlds :| Told(x, capability, plan, w1, worlds, w2, None, end);
      ToldOfTwo(x, capability, w1, worlds, w2, end, c);
    }
  }

  lemma ToldOfTwo(x: Task, capability: Capability, w: World, worlds: seq<World>, w2: World, end: End, c: Event)
    requires var plan := Turns(x, capability); |plan| == 2 && Told(x, capability, plan, w, worlds, w2, None, end)
    requires c.Closed? && c.route == Turns(x, capability)[0]
    requires |w2.trace| == |w.trace| + 2 && w.trace <= w2.trace && w2.trace[|w.trace| + 1] == c
    requires FailedRetryably(x, capability, c) && ReportsFailure(x, c, end)
    ensures !Up(x, w2, Turns(x, capability)[1])
  {
    hide Passes;
    hide Stops;
    hide FailedRetryably;
    hide ExitOf;
    hide Up;
    var plan := Turns(x, capability);
    if |worlds| == 1 {
      StopsReportNone(x, capability, w, w2, plan[0], end);
    } else if |worlds| == 2 {
      StopsReportNone(x, capability, worlds[1], w2, plan[1], end);
    } else {
      assert Passes(x, capability, worlds[0], worlds[1], plan[0]);
      assert Passes(x, capability, worlds[1], worlds[2], plan[1]);
      PassesBy(x, capability, w, worlds[1], plan[0]);
      PassesBy(x, capability, worlds[1], w2, plan[1]);
    }
  }

  lemma PassesBy(x: Task, capability: Capability, w: World, w1: World, route: Route)
    requires Passes(x, capability, w, w1, route)
    ensures w.trace <= w1.trace && (|w1.trace| == |w.trace| || |w1.trace| == |w.trace| + 2)
    ensures |w1.trace| == |w.trace| && !route.LocalBrowser? ==> !Up(x, w, route) && w1 == w
    ensures |w1.trace| == |w.trace| + 2 ==> w1.trace[|w1.trace| - 1].Closed? && w1.trace[|w1.trace| - 1].route == route
  {
    hide FailedRetryably;
    hide Up;
  }

  /** What ends a call at a route's turn reports no retryable failure, and asks no human unless the page was ordinary. */
  lemma StopsReportNone(x: Task, capability: Capability, w: World, w2: World, route: Route, end: End)
    requires Stops(x, capability, w, w2, route, end) && !capability.Ordinary?
    ensures !end.HumanInput? && (end.Failing? ==> !end.failure.retryable)
  {
    hide NotReserved;
    hide EndsOnAttempt;
    hide GoesStatic;
    if NotReserved(x, w, w2, route, end) {
      RefusalReportsNone(x, w, w2, route, end);
    } else if EndsOnAttempt(x, capability, w, w2, route, end) {
      AttemptReportsNone(x, capability, w, w2, route, end);
    } else {
      OnlyOrdinaryGoesStatic(x, capability, w, w2, route, end);
    }
  }

  lemma AttemptReportsNone(x: Task, capability: Capability, w: World, w2: World, route: Route, end: End)
    requires EndsOnAttempt(x, capability, w, w2, route, end)
    ensures !end.HumanInput? && (end.Failing? ==> !end.failure.retryable)
  {
    hide HasRoom;
    hide Sickens;
    hide ReserveCost;
    hide Up;
    hide EndsOn;
    hide ExitOf;
    hide Challenged;
    var c :| AttemptMade(x, w, w2, route, c) && EndsOn(x, c, end) && (Raised(c) || !Challenged(x, capability, c));
    EndReportsNone(x, c, end);
  }

  lemma OnlyOrdinaryGoesStatic(x: Task, capability: Capability, w: World, w2: World, route: Route, end: End)
    requires GoesStatic(x, capability, w, w2, route, end)
    ensures capability.Ordinary?
  {
    hide Story;
    hide AttemptMade;
    hide Raised;
    hide ExitOf;
  }

  lemma RefusalReportsNone(x: Task, w: World, w2: World, route: Route, end: End)
    requires NotReserved(x, w, w2, route, end)
    ensures !end.HumanInput? && (end.Failing? ==> !end.failure.retryable)
  {
    hide HasRoom;
    hide Up;
    hide ReserveCost;
  }

  lemma EndReportsNone(x: Task, c: Event, end: End)
    requires c.Closed? && EndsOn(x, c, end)
    ensures !end.HumanInput? && (end.Failing? ==> !end.failure.retryable)
  {
    hide ExitOf;
  }
}
