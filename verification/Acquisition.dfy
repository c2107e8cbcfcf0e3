/**
  Paid acquisition: what each adapter may charge on every exit (app/acquisition/firecrawl.py, brightdata.py,
  browserbase.py, local.py, providers.py), the attempt ledger that reserves and settles those charges
  (app/crawl/repository.py:581-716 and 885-926), and the router that walks the routes of a task
  (app/acquisition/router.py, registry.py).
 */
module ProviderCosts {

  datatype Option<+T> = None | Some(value: T)

  datatype Route = LocalHttp | OwnedProxyHttp | LocalBrowser | Unlocker | Scrape | Interact | Session

  datatype Provider = Local | BrightData | Firecrawl | Browserbase

  datatype Meter = Requests | Credits | BrowserMinutes | ProxyBytes

  type Cost = map<Meter, real>

  function ProviderOf(route: Route): Provider {
    match route
    case Unlocker => BrightData
    case Scrape => Firecrawl
    case Interact => Firecrawl
    case Session => Browserbase
    case _ => Local
  }

  function Meters(route: Route): set<Meter> {
    match route
    case Unlocker => {Requests}
    case Scrape => {Credits}
    case Interact => {Credits}
    case Session => {BrowserMinutes, ProxyBytes}
    case _ => {}
  }

  /** _native_cost: exactly the route's meters, none negative, no managed proxy bytes. */
  predicate ValidCost(route: Route, cost: Cost) {
    && cost.Keys == Meters(route)
    && (forall m :: m in cost ==> cost[m] >= 0.0)
    && (route.Session? && ProxyBytes in cost ==> cost[ProxyBytes] == 0.0)
  }

  predicate Within(actual: Cost, reserved: Cost) {
    forall m :: m in actual ==> m in reserved && actual[m] <= reserved[m]
  }

  /** The cost of a page: numbers on the meters, or a NaN of browser minutes, which no meter can take. */
  datatype Charge = Metered(cost: Cost) | NotANumber

  /** How a call to an adapter ends; Defect is any exception the router does not know. */
  datatype Exit =
    | Result(charge: Charge)
    | Failure(code: string, retryable: bool, cost: Cost)
    | Unsafe
    | Protocol
    | Defect

  // ---- reserve_cost; None is a ValueError ----

  function CeilMinutes(seconds: int): int {
    if seconds <= 0 then -((-seconds) / 60) else (seconds + 59) / 60
  }

  function InteractCredits(timeout: int): int { 2 * (if CeilMinutes(timeout) < 1 then 1 else CeilMinutes(timeout)) }

  predicate SessionTimeout(timeout: int) { 60 <= timeout <= 21600 }

  function ReserveCost(route: Route, timeout: int): Option<Cost> {
    match route
    case Unlocker => Some(map[Requests := 1.0])
    case Scrape => Some(map[Credits := 1.0])
    case Interact => if timeout > 0 then Some(map[Credits := InteractCredits(timeout) as real]) else None
    case Session =>
      if SessionTimeout(timeout) then Some(map[BrowserMinutes := CeilMinutes(timeout) as real, ProxyBytes := 0.0]) else None
    case _ => Some(map[])
  }

  // ---- acquire: every exit and its cost ----

  /**
    What the provider's service does with one request, as far as the exits depend on it.  A reply may also make the
    adapter raise what it does not expect: while it is read (JSON nested too deep, an integer too long) or when its
    page is encoded (a lone surrogate).
   */
  datatype Service = Service(
    configured: bool, publicUrl: bool, transportError: bool, status: int, readingRaises: bool, oversize: bool,
    wellFormed: bool, hasHtml: bool, statusIsInt: bool, encodingRaises: bool, domTooLarge: bool, challenge: bool, finalPublic: bool,
    create: Create, capture: Capture, usage: Usage, local: LocalExit)

  datatype Create = Created | ApiFailure(code: string, retryable: bool) | BadJson | NoConnection | CreateFault

  datatype Capture = Captured | CaptureFault | CaptureDefect

  /** JSON as the client reads it also has NaN and the infinities, which are numbers to it. */
  datatype Usage = Unreported | NotNumeric | NaN | Infinite | Reported(minutes: real)

  datatype LocalExit = LocalPage | LocalFailure(code: string, retryable: bool) | LocalUnsafe | LocalDefect

  function Credit(): Cost { map[Credits := 1.0] }

  function FirecrawlStatus(status: int): Exit {
    if status == 401 || status == 403 then Failure("provider_auth", false, Credit())
    else if status == 402 then Failure("provider_billing", false, Credit())
    else if status == 429 then Failure("provider_rate_limited", true, Credit())
    else if status >= 500 then Failure("provider_failure", true, Credit())
    else Failure("provider_request", false, Credit())
  }

  function FirecrawlExit(route: Route, timeout: int, a: Service): Exit {
    if !a.configured then Failure("provider_unavailable", false, Credit())
    else if !route.Scrape? || timeout <= 0 then Failure("provider_request", false, Credit())
    else if !a.publicUrl then Unsafe
    else if a.transportError then Failure("provider_transport", true, Credit())
    else if !(200 <= a.status < 300) then FirecrawlStatus(a.status)
    else if a.readingRaises then Defect
    else if a.oversize then Failure("response_too_large", false, Credit())
    else if !a.wellFormed || !a.hasHtml || !a.statusIsInt then Failure("provider_protocol_error", false, Credit())
    else if a.encodingRaises then Defect
    else if a.domTooLarge then Failure("response_too_large", false, Credit())
    else if !a.finalPublic then Unsafe
    else Result(Metered(Credit()))
  }

  function Request(sent: bool): Cost { map[Requests := if sent then 1.0 else 0.0] }

  function UnlockerStatus(status: int): Exit {
    if status == 401 || status == 403 then Failure("provider_auth", false, Request(true))
    else if status == 402 then Failure("provider_billing", false, Request(true))
    else if status == 429 then Failure("provider_rate_limited", true, Request(true))
    else if status >= 500 then Failure("provider_failure", true, Request(true))
    else Failure("provider_request", false, Request(true))
  }

  function UnlockerExit(route: Route, timeout: int, a: Service): Exit {
    if !a.configured then Failure("provider_unavailable", false, Request(false))
    else if !route.Unlocker? || timeout <= 0 then Failure("provider_request", false, Request(false))
    else if !a.publicUrl then Failure("unsafe_request_url", false, Request(false))
    else if a.transportError then Failure("provider_transport", true, Request(true))
    else if !(200 <= a.status < 300) then UnlockerStatus(a.status)
    else if a.readingRaises then Defect
    else if a.oversize then Failure("response_too_large", false, Request(true))
    else if !a.wellFormed then Failure("provider_protocol_error", false, Request(true))
    else if a.encodingRaises then Defect
    else if a.domTooLarge then Failure("response_too_large", false, Request(true))
    else if a.challenge then Failure("blocked_challenge", true, Request(true))
    else if !a.finalPublic then Failure("unsafe_final_url", false, Request(true))
    else Result(Metered(Request(true)))
  }

  /** Minutes used: what creation reported, or the whole reservation. */
  function Minutes(usage: Usage, reserved: real): real {
    if usage.Reported? then usage.minutes else reserved
  }

  function SessionExit(route: Route, timeout: int, a: Service): Exit {
    if !route.Session? || !SessionTimeout(timeout) then Defect
    else if !a.publicUrl then Unsafe
    else
      var whole := CeilMinutes(timeout) as real;
      var reserved: Cost := map[BrowserMinutes := whole, ProxyBytes := 0.0];
      match a.create
      case ApiFailure(code, retryable) => Failure(code, retryable, reserved)
      case BadJson => Protocol
      case NoConnection => Protocol
      case CreateFault => Failure("provider_browser_failure", true, reserved)
      case Created =>
        match a.capture
        case CaptureFault => Failure("provider_browser_failure", true, reserved)
        case CaptureDefect => Defect
        case Captured =>
          if !a.finalPublic then Unsafe
          else if a.usage.NotNumeric? || a.usage.Infinite? then Protocol
          else if a.usage.NaN? then Result(NotANumber)
          else if Minutes(a.usage, whole) < 0.0 || Minutes(a.usage, whole) > whole then Protocol
          else Result(Metered(map[BrowserMinutes := Minutes(a.usage, whole), ProxyBytes := 0.0]))
  }

  /** The local adapter charges nothing, and reports every challenge as retryable. */
  function LocalCall(a: LocalExit): Exit {
    match a
    case LocalPage => Result(Metered(map[]))
    case LocalFailure(code, retryable) => Failure(code, retryable || code == "blocked_challenge", map[])
    case LocalUnsafe => Unsafe
    case LocalDefect => Defect
  }

  function Call(route: Route, timeout: int, a: Service): Exit {
    match ProviderOf(route)
    case Firecrawl => FirecrawlExit(route, timeout, a)
    case BrightData => UnlockerExit(route, timeout, a)
    case Browserbase => SessionExit(route, timeout, a)
    case Local => LocalCall(a.local)
  }

  /** A browser session whose page was captured, public, and billed with a NaN. */
  predicate NanReported(route: Route, a: Service) {
    route.Session? && a.publicUrl && a.create.Created? && a.capture.Captured? && a.finalPublic && a.usage.NaN?
  }

  /** What an attempt costs: what the adapter reported, or else everything reserved. */
  function Charged(exit: Exit, reserved: Cost): Charge {
    match exit
    case Result(charge) => charge
    case Failure(_, _, cost) => Metered(cost)
    case _ => Metered(reserved)
  }

  predicate Costed(exit: Exit) { exit.Failure? || (exit.Result? && exit.charge.Metered?) }

  function CostOf(exit: Exit): Cost
    requires Costed(exit)
  {
    if exit.Failure? then exit.cost else exit.charge.cost
  }

  /**
    Whatever the provider answers, a cost it leads to has exactly the route's meters and fits the reservation;
    the one charge that is no cost comes exactly from a NaN in the creation reply of a browser session.
   */
  lemma CostsFit(route: Route, timeout: int, a: Service)
    requires ReserveCost(route, timeout).Some?
    ensures var reserved := ReserveCost(route, timeout).value;
            var exit := Call(route, timeout, a);
            && ValidCost(route, reserved)
            && (Costed(exit) ==> ValidCost(route, CostOf(exit)) && Within(CostOf(exit), reserved))
            && (exit == Result(NotANumber) <==> NanReported(route, a))
  {
    match ProviderOf(route)
    case Firecrawl => FirecrawlFits(route, timeout, a);
    case _ =>
  }

  lemma FirecrawlFits(route: Route, timeout: int, a: Service)
    requires (route.Scrape? || route.Interact?) && ReserveCost(route, timeout).Some?
    ensures ValidCost(route, ReserveCost(route, timeout).value) && ReserveCost(route, timeout).value[Credits] >= 1.0
    ensures Costed(FirecrawlExit(route, timeout, a)) ==> CostOf(FirecrawlExit(route, timeout, a)) == Credit()
    ensures route.Scrape? ==> Charged(FirecrawlExit(route, timeout, a), ReserveCost(route, timeout).value) == Metered(Credit())
  {
  }

  /** What a web provider's answer has to be for a failure to be worth another route. */
  predicate AnswersRetryably(a: Service) {
    a.transportError || a.status == 429 || a.status >= 500
  }

  /**
    The exits that lead to another route: of a web provider, exactly a lost connection, a rate limit or a server error
    after the request went out, and of the unlocker also a challenge page; of a browser session, a fault of the
    browser or what the provider itself calls retryable; of the local adapter, that or a challenge.
   */
  lemma RetryableExactly(route: Route, timeout: int, a: Service)
    ensures var exit, retryable := Call(route, timeout, a), Call(route, timeout, a).Failure? && Call(route, timeout, a).retryable;
            && ((route.Scrape? || route.Interact?) ==>
                  (retryable <==> a.configured && route.Scrape? && timeout > 0 && a.publicUrl && AnswersRetryably(a)))
            && (route.Unlocker? ==>
                  (retryable <==>
                    && a.configured && timeout > 0 && a.publicUrl
                    && (AnswersRetryably(a)
                        || (200 <= a.status < 300 && !a.readingRaises && !a.oversize && a.wellFormed && !a.encodingRaises
                            && !a.domTooLarge && a.challenge))))
            && (route.Session? ==>
                  (retryable <==>
                    && 60 <= timeout <= 21600 && a.publicUrl
                    && (a.create.CreateFault? || (a.create.ApiFailure? && a.create.retryable)
                        || (a.create.Created? && a.capture.CaptureFault?))))
            && (ProviderOf(route).Local? ==>
                  (retryable <==> a.local.LocalFailure? && (a.local.retryable || a.local.code == "blocked_challenge")))
  {
  }

  /** The request went out and what came back can be used: a success, complete, well formed, encodable, small and public. */
  predicate GoodReply(timeout: int, a: Service) {
    && a.configured && timeout > 0 && a.publicUrl && !a.transportError && 200 <= a.status < 300
    && !a.readingRaises && !a.oversize && a.wellFormed && !a.encodingRaises && !a.domTooLarge && a.finalPublic
  }

  /**
    When an adapter delivers a page: a web provider exactly for a good reply, which of a scrape has markup and a whole
    status and of the unlocker is no challenge; a session exactly if it was created, captured a public page and
    reported no impossible usage; an interactive route of a web provider never.
   */
  lemma PageExactly(route: Route, timeout: int, a: Service)
    ensures var page := Call(route, timeout, a).Result?;
            && (route.Scrape? ==> (page <==> GoodReply(timeout, a) && a.hasHtml && a.statusIsInt))
            && (route.Interact? ==> !page)
            && (route.Unlocker? ==> (page <==> GoodReply(timeout, a) && !a.challenge))
            && (route.Session? ==>
                  (page <==> && 60 <= timeout <= 21600 && a.publicUrl && a.create.Created? && a.capture.Captured? && a.finalPublic
                             && (a.usage.Unreported? || a.usage.NaN?
                                 || (a.usage.Reported? && 0.0 <= a.usage.minutes <= ((timeout + 59) / 60) as real))))
            && (ProviderOf(route).Local? ==> (page <==> a.local.LocalPage?))
  {
  }

  /**
    The two codes the router acts on.  A challenge is reported by the unlocker, exactly for a challenge page it could
    read, or by the local adapter or a session's service as their own; a protocol error of a web provider exactly for
    a success it could read in full and not understand.
   */
  lemma CodesExactly(route: Route, timeout: int, a: Service)
    ensures var exit := Call(route, timeout, a);
            var read := && a.configured && timeout > 0 && a.publicUrl && !a.transportError && 200 <= a.status < 300
                        && !a.readingRaises && !a.oversize;
            && ((route.Scrape? || route.Interact?) ==>
                  && !(exit.Failure? && exit.code == "blocked_challenge")
                  && (exit.Failure? && exit.code == "provider_protocol_error" <==>
                        route.Scrape? && read && !(a.wellFormed && a.hasHtml && a.statusIsInt)))
            && (route.Unlocker? ==>
                  && (exit.Failure? && exit.code == "blocked_challenge" <==>
                        read && a.wellFormed && !a.encodingRaises && !a.domTooLarge && a.challenge)
                  && (exit.Failure? && exit.code == "provider_protocol_error" <==> read && !a.wellFormed))
            && (ProviderOf(route).Local? && exit.Failure? ==> a.local.LocalFailure? && exit.code == a.local.code)
            && (route.Session? && exit.Failure? && a.create.ApiFailure? ==> exit.code == a.create.code)
  {
  }

  /** A captured page of a session costs the minutes reported for it, if they fit what was reserved, and all of that if none are. */
  lemma SessionCostsWhatIsReported(timeout: int, a: Service)
    requires 60 <= timeout <= 21600 && a.publicUrl && a.create.Created? && a.capture.Captured? && a.finalPublic
    ensures var exit, whole := Call(Session, timeout, a), ((timeout + 59) / 60) as real;
            && (a.usage.Reported? && 0.0 <= a.usage.minutes <= whole ==>
                  exit == Result(Metered(map[BrowserMinutes := a.usage.minutes, ProxyBytes := 0.0])))
            && (a.usage.Reported? && !(0.0 <= a.usage.minutes <= whole) ==> exit == Protocol)
            && (a.usage.Unreported? ==> exit == Result(Metered(map[BrowserMinutes := whole, ProxyBytes := 0.0])))
  {
  }

  /** The unlocker's attempt costs one request exactly when one was sent, whatever came back, even what no code expects. */
  lemma UnlockerChargesWhatWasSent(timeout: int, a: Service)
    ensures var sent := a.configured && timeout > 0 && a.publicUrl;
            Charged(Call(Unlocker, timeout, a), ReserveCost(Unlocker, timeout).value) == Metered(Request(sent))
  {
  }
}

module AcquisitionLedger {
  import opened ProviderCosts

  datatype Outcome = Succeeded | RetryableFailure | FailedOutcome | Abandoned

  datatype Closing = Closing(outcome: Outcome, actual: Cost)

  datatype Attempt = Attempt(task: nat, token: nat, route: Route, reserved: Cost, closed: Option<Closing>)

  datatype Balance = Balance(limit: real, reserved: real, consumed: real)

  /** The attempts and meters of one job; an attempt's id is its position. */
  datatype Ledger = Ledger(attempts: seq<Attempt>, usage: map<Meter, Balance>)

  /** What a fenced statement sees: the lease is live, was cut by a cancel or the deadline, or is no longer ours. */
  datatype Fence = Live | Cut | Lost

  datatype Reservation = Reserved(id: nat) | Refused | BadCost

  /** What came of a settlement: it took effect, was refused, raised on its charge, or the database failed. */
  datatype Settlement = Settled | Ignored | Impossible | Unanswered

  function Count(attempts: seq<Attempt>, task: nat): nat {
    if attempts == [] then 0
    else Count(attempts[..|attempts| - 1], task) + (if attempts[|attempts| - 1].task == task then 1 else 0)
  }

  function CountRoute(attempts: seq<Attempt>, task: nat, route: Route): nat {
    if attempts == [] then 0
    else
      var a := attempts[|attempts| - 1];
      CountRoute(attempts[..|attempts| - 1], task, route) + (if a.task == task && a.route == route then 1 else 0)
  }

  function TotalCap(maxAttempts: int): int { if maxAttempts < 4 then maxAttempts else 4 }

  function RouteCap(maxAttempts: int): int { if TotalCap(maxAttempts) < 2 then TotalCap(maxAttempts) else 2 }

  predicate Affordable(usage: map<Meter, Balance>, cost: Cost) {
    forall m :: m in cost ==> m in usage && cost[m] <= usage[m].limit - usage[m].reserved - usage[m].consumed
  }

  function Hold(usage: map<Meter, Balance>, cost: Cost): map<Meter, Balance> {
    map m | m in usage :: if m in cost then usage[m].(reserved := usage[m].reserved + cost[m]) else usage[m]
  }

  function Convert(usage: map<Meter, Balance>, reserved: Cost, actual: Cost): map<Meter, Balance> {
    map m | m in usage ::
      if m in actual && m in reserved
      then usage[m].(reserved := usage[m].reserved - reserved[m], consumed := usage[m].consumed + actual[m])
      else usage[m]
  }

  function CloseAttempt(l: Ledger, id: nat, outcome: Outcome, actual: Cost): Ledger
    requires id < |l.attempts|
  {
    var a := l.attempts[id];
    Ledger(l.attempts[id := a.(closed := Some(Closing(outcome, actual)))], Convert(l.usage, a.reserved, actual))
  }

  /** An abandoned attempt is charged its whole reservation. */
  function Abandon(l: Ledger, id: nat): Ledger {
    if id < |l.attempts| && l.attempts[id].closed.None?
    then CloseAttempt(l, id, Abandoned, l.attempts[id].reserved) else l
  }

  /** _reject_inactive_lease abandons every open attempt of the task whose lease it cuts. */
  function AbandonTask(l: Ledger, task: nat, n: nat): Ledger {
    if n == 0 then l
    else
      var l1 := AbandonTask(l, task, n - 1);
      if n - 1 < |l1.attempts| && l1.attempts[n - 1].task == task then Abandon(l1, n - 1) else l1
  }

  function Reserve(l: Ledger, task: nat, token: nat, route: Route, cost: Cost, maxAttempts: int, fence: Fence)
    : (Ledger, Reservation)
  {
    if !ValidCost(route, cost) then (l, BadCost)
    else if fence.Cut? then (AbandonTask(l, task, |l.attempts|), Refused)
    else if fence.Lost? then (l, Refused)
    else if Count(l.attempts, task) >= TotalCap(maxAttempts) then (l, Refused)
    else if CountRoute(l.attempts, task, route) >= RouteCap(maxAttempts) then (l, Refused)
    else if !Affordable(l.usage, cost) then (l, Refused)
    else (Ledger(l.attempts + [Attempt(task, token, route, cost, None)], Hold(l.usage, cost)), Reserved(|l.attempts|))
  }

  function Finish(l: Ledger, id: nat, token: nat, outcome: Outcome, actual: Charge, fence: Fence): (Ledger, Settlement) {
    if id >= |l.attempts| || l.attempts[id].token != token then (l, Ignored)
    else if fence.Cut? then (AbandonTask(l, l.attempts[id].task, |l.attempts|), Ignored)
    else if fence.Lost? || l.attempts[id].closed.Some? then (l, Ignored)
    else if actual.NotANumber? || !ValidCost(l.attempts[id].route, actual.cost) then (l, Impossible)
    else if !Within(actual.cost, l.attempts[id].reserved) || !(actual.cost.Keys <= l.usage.Keys) then (l, Impossible)
    else (CloseAttempt(l, id, outcome, actual.cost), Settled)
  }

  datatype LedgerOp =
    | DoReserve(task: nat, token: nat, route: Route, cost: Cost, maxAttempts: int, fence: Fence)
    | DoFinish(id: nat, token: nat, outcome: Outcome, actual: Charge, fence: Fence)
    | DoAbandon(id: nat)

  function Apply(l: Ledger, op: LedgerOp): Ledger {
    match op
    case DoReserve(task, token, route, cost, maxAttempts, fence) => Reserve(l, task, token, route, cost, maxAttempts, fence).0
    case DoFinish(id, token, outcome, actual, fence) => Finish(l, id, token, outcome, actual, fence).0
    case DoAbandon(id) => Abandon(l, id)
  }

  function ApplyAll(l: Ledger, ops: seq<LedgerOp>): Ledger
    decreases |ops|
  {
    if ops == [] then l else ApplyAll(Apply(l, ops[0]), ops[1..])
  }

  // ---- what can be reserved ----

  /** The attempts of a task, and those of them on one route, by position. */
  function AttemptsOf(attempts: seq<Attempt>, task: nat): set<nat> {
    set i: nat | i < |attempts| && attempts[i].task == task
  }

  function AttemptsOn(attempts: seq<Attempt>, task: nat, route: Route): set<nat> {
    set i: nat | i < |attempts| && attempts[i].task == task && attempts[i].route == route
  }

  lemma {:induction false} CountIs(attempts: seq<Attempt>, task: nat)
    ensures Count(attempts, task) == |AttemptsOf(attempts, task)|
  {
    hide AttemptsOf;
    if attempts == [] {
      NoneOf(task, LocalHttp);
    } else {
      CountIs(attempts[..|attempts| - 1], task);
      LastOf(attempts, task);
    }
  }

  lemma {:induction false} CountRouteIs(attempts: seq<Attempt>, task: nat, route: Route)
    ensures CountRoute(attempts, task, route) == |AttemptsOn(attempts, task, route)|
  {
    hide AttemptsOn;
    if attempts == [] {
      NoneOf(task, route);
    } else {
      CountRouteIs(attempts[..|attempts| - 1], task, route);
      LastOn(attempts, task, route);
    }
  }

  lemma NoneOf(task: nat, route: Route)
    ensures AttemptsOf([], task) == {} && AttemptsOn([], task, route) == {}
  {
  }

  lemma LastOf(attempts: seq<Attempt>, task: nat)
    requires attempts != []
    ensures var n, before := |attempts| - 1, AttemptsOf(attempts[..|attempts| - 1], task);
            n !in before && AttemptsOf(attempts, task) == if attempts[n].task == task then before + {n} else before
  {
  }

  lemma LastOn(attempts: seq<Attempt>, task: nat, route: Route)
    requires attempts != []
    ensures var n, before := |attempts| - 1, AttemptsOn(attempts[..|attempts| - 1], task, route);
            && n !in before
            && AttemptsOn(attempts, task, route)
               == if attempts[n].task == task && attempts[n].route == route then before + {n} else before
  {
  }

  /** A live lease, fewer than four attempts of the task and two on the route, and the cost left on every meter. */
  predicate Grantable(l: Ledger, task: nat, route: Route, cost: Cost, maxAttempts: int, fence: Fence) {
    && fence.Live?
    && |AttemptsOf(l.attempts, task)| < 4 && |AttemptsOf(l.attempts, task)| < maxAttempts
    && |AttemptsOn(l.attempts, task, route)| < 2 && |AttemptsOn(l.attempts, task, route)| < maxAttempts
    && forall m :: m in cost ==> m in l.usage && l.usage[m].reserved + l.usage[m].consumed + cost[m] <= l.usage[m].limit
  }

  /** A reservation is made exactly then; it adds the open attempt and holds its cost, and nothing else. */
  lemma ReservedIff(l: Ledger, task: nat, token: nat, route: Route, cost: Cost, maxAttempts: int, fence: Fence)
    requires ValidCost(route, cost)
    ensures var (l1, r) := Reserve(l, task, token, route, cost, maxAttempts, fence);
            && (Grantable(l, task, route, cost, maxAttempts, fence) ==>
                  && r == Reserved(|l.attempts|) && l1.attempts == l.attempts + [Attempt(task, token, route, cost, None)]
                  && l1.usage.Keys == l.usage.Keys
                  && forall m :: m in l.usage ==>
                       l1.usage[m] == l.usage[m].(reserved := l.usage[m].reserved + if m in cost then cost[m] else 0.0))
            && (!Grantable(l, task, route, cost, maxAttempts, fence) ==> r == Refused && (!fence.Cut? ==> l1 == l))
  {
    hide ValidCost;
    hide AbandonTask;
    hide AttemptsOf;
    hide AttemptsOn;
    hide Count;
    hide CountRoute;
    CountIs(l.attempts, task);
    CountRouteIs(l.attempts, task, route);
  }

  // ---- conservation ----

  function OnMeter(cost: Cost, m: Meter): real { if m in cost then cost[m] else 0.0 }

  function Held(a: Attempt, m: Meter): real { if a.closed.None? then OnMeter(a.reserved, m) else 0.0 }

  function Used(a: Attempt, m: Meter): real { if a.closed.Some? then OnMeter(a.closed.value.actual, m) else 0.0 }

  function Sum(attempts: seq<Attempt>, f: Attempt -> real): real {
    if attempts == [] then 0.0 else Sum(attempts[..|attempts| - 1], f) + f(attempts[|attempts| - 1])
  }

  predicate AttemptOk(a: Attempt, usage: map<Meter, Balance>) {
    && ValidCost(a.route, a.reserved)
    && a.reserved.Keys <= usage.Keys
    && (a.closed.Some? ==> ValidCost(a.route, a.closed.value.actual) && Within(a.closed.value.actual, a.reserved))
  }

  /**
    On every meter: what is reserved is the sum of the open reservations, what is consumed is the sum of the
    charges of the closed attempts, and together they fit the limit.
   */
  ghost predicate BooksOk(l: Ledger) {
    && (forall i :: 0 <= i < |l.attempts| ==> AttemptOk(l.attempts[i], l.usage))
    && forall m :: m in l.usage ==> Balanced(l, m)
  }

  ghost predicate Balanced(l: Ledger, m: Meter)
    requires m in l.usage
  {
    && l.usage[m].reserved == Sum(l.attempts, a => Held(a, m))
    && l.usage[m].consumed == Sum(l.attempts, a => Used(a, m))
    && l.usage[m].reserved + l.usage[m].consumed <= l.usage[m].limit
  }

  lemma {:induction false} SumAppend(attempts: seq<Attempt>, a: Attempt, f: Attempt -> real)
    ensures Sum(attempts + [a], f) == Sum(attempts, f) + f(a)
  {
    assert (attempts + [a])[..|attempts|] == attempts;
  }

  lemma {:induction false} SumUpdate(attempts: seq<Attempt>, i: nat, a: Attempt, f: Attempt -> real)
    requires i < |attempts|
    ensures Sum(attempts[i := a], f) == Sum(attempts, f) - f(attempts[i]) + f(a)
  {
    var n := |attempts| - 1;
    if i == n {
      assert attempts[i := a][..n] == attempts[..n];
    } else {
      SumUpdate(attempts[..n], i, a, f);
      assert attempts[i := a][..n] == attempts[..n][i := a];
    }
  }

  lemma CloseOk(l: Ledger, id: nat, outcome: Outcome, actual: Cost)
    requires BooksOk(l) && id < |l.attempts| && l.attempts[id].closed.None?
    requires ValidCost(l.attempts[id].route, actual) && Within(actual, l.attempts[id].reserved)
    ensures BooksOk(CloseAttempt(l, id, outcome, actual))
  {
    var l1 := CloseAttempt(l, id, outcome, actual);
    var a, a1 := l.attempts[id], l1.attempts[id];
    assert AttemptOk(a, l.usage);
    assert actual.Keys == a.reserved.Keys;
    forall m | m in l1.usage ensures Balanced(l1, m) {
      assert Balanced(l, m);
      SumUpdate(l.attempts, id, a1, x => Held(x, m));
      SumUpdate(l.attempts, id, a1, x => Used(x, m));
    }
  }

  lemma AbandonOk(l: Ledger, id: nat)
    requires BooksOk(l)
    ensures BooksOk(Abandon(l, id))
  {
    if id < |l.attempts| && l.attempts[id].closed.None? {
      assert AttemptOk(l.attempts[id], l.usage);
      CloseOk(l, id, Abandoned, l.attempts[id].reserved);
    }
  }

  lemma {:induction false} AbandonTaskOk(l: Ledger, task: nat, n: nat)
    requires BooksOk(l)
    ensures BooksOk(AbandonTask(l, task, n))
  {
    hide BooksOk;
    hide Abandon;
    if n > 0 {
      AbandonTaskOk(l, task, n - 1);
      AbandonOk(AbandonTask(l, task, n - 1), n - 1);
    }
  }

  lemma HoldOk(l: Ledger, a: Attempt)
    requires BooksOk(l) && ValidCost(a.route, a.reserved) && a.closed.None? && Affordable(l.usage, a.reserved)
    ensures BooksOk(Ledger(l.attempts + [a], Hold(l.usage, a.reserved)))
  {
    var l1 := Ledger(l.attempts + [a], Hold(l.usage, a.reserved));
    forall m | m in l1.usage ensures Balanced(l1, m) {
      assert Balanced(l, m);
      SumAppend(l.attempts, a, x => Held(x, m));
      SumAppend(l.attempts, a, x => Used(x, m));
    }
    forall i | 0 <= i < |l1.attempts| ensures AttemptOk(l1.attempts[i], l1.usage) {
      assert i < |l.attempts| ==> AttemptOk(l.attempts[i], l.usage);
      assert l1.usage.Keys == l.usage.Keys;
    }
  }

  // ---- once closed, an attempt never changes ----

  ghost predicate Grows(l: Ledger, l1: Ledger) {
    && |l.attempts| <= |l1.attempts|
    && forall i :: 0 <= i < |l.attempts| ==> Evolves(l.attempts[i], l1.attempts[i])
  }

  /** The only thing that ever happens to an attempt is that it is closed, once. */
  predicate Evolves(a: Attempt, a1: Attempt) { a1 == a || (a.closed.None? && a1 == a.(closed := a1.closed)) }

  lemma {:induction false} AbandonTaskGrows(l: Ledger, task: nat, n: nat)
    ensures Grows(l, AbandonTask(l, task, n)) && |AbandonTask(l, task, n).attempts| == |l.attempts|
    ensures forall i :: 0 <= i < n && i < |l.attempts| && l.attempts[i].task == task ==>
              AbandonTask(l, task, n).attempts[i].closed.Some?
  {
    if n > 0 {
      AbandonTaskGrows(l, task, n - 1);
    }
  }

  lemma ApplyGrows(l: Ledger, op: LedgerOp)
    ensures Grows(l, Apply(l, op))
  {
    hide Affordable;
    hide ValidCost;
    hide Within;
    hide AbandonTask;
    match op
    case DoReserve(task, _, _, _, _, _) => AbandonTaskGrows(l, task, |l.attempts|);
    case DoFinish(id, _, _, _, _) => if id < |l.attempts| { AbandonTaskGrows(l, l.attempts[id].task, |l.attempts|); }
    case DoAbandon(_) =>
  }

  lemma {:induction false} ApplyAllGrows(l: Ledger, ops: seq<LedgerOp>)
    ensures Grows(l, ApplyAll(l, ops))
    decreases |ops|
  {
    hide Apply;
    if ops != [] {
      ApplyGrows(l, ops[0]);
      ApplyAllGrows(Apply(l, ops[0]), ops[1..]);
    }
  }

  // ---- at most four provider calls for a task, two on one route ----

  ghost predicate CapsOk(attempts: seq<Attempt>) {
    && (forall task: nat :: Count(attempts, task) <= 4)
    && forall task: nat, route: Route :: CountRoute(attempts, task, route) <= 2
  }

  lemma {:induction false} CountsEvolve(attempts: seq<Attempt>, attempts1: seq<Attempt>, task: nat, route: Route)
    requires |attempts| == |attempts1| && forall i :: 0 <= i < |attempts| ==> Evolves(attempts[i], attempts1[i])
    ensures Count(attempts1, task) == Count(attempts, task)
    ensures CountRoute(attempts1, task, route) == CountRoute(attempts, task, route)
  {
    if attempts != [] {
      var n := |attempts| - 1;
      assert Evolves(attempts[n], attempts1[n]);
      CountsEvolve(attempts[..n], attempts1[..n], task, route);
    }
  }

  lemma CapsEvolve(attempts: seq<Attempt>, attempts1: seq<Attempt>)
    requires CapsOk(attempts)
    requires |attempts| == |attempts1| && forall i :: 0 <= i < |attempts| ==> Evolves(attempts[i], attempts1[i])
    ensures CapsOk(attempts1)
  {
    hide Evolves;
    forall task: nat ensures Count(attempts1, task) <= 4 {
      CountsEvolve(attempts, attempts1, task, Scrape);
    }
    forall task: nat, route: Route ensures CountRoute(attempts1, task, route) <= 2 {
      CountsEvolve(attempts, attempts1, task, route);
      assert CountRoute(attempts, task, route) <= 2;
    }
  }

  lemma CapsReserve(attempts: seq<Attempt>, a: Attempt)
    requires CapsOk(attempts) && Count(attempts, a.task) < 4 && CountRoute(attempts, a.task, a.route) < 2
    ensures CapsOk(attempts + [a])
  {
    assert (attempts + [a])[..|attempts|] == attempts;
    forall task: nat, route: Route ensures CountRoute(attempts + [a], task, route) <= 2 {
      assert CountRoute(attempts, task, route) <= 2;
    }
  }

  lemma ApplyCaps(l: Ledger, op: LedgerOp)
    requires CapsOk(l.attempts)
    ensures CapsOk(Apply(l, op).attempts)
  {
    hide CapsOk;
    hide ValidCost;
    hide Affordable;
    hide Within;
    hide AbandonTask;
    hide Evolves;
    ApplyGrows(l, op);
    if |Apply(l, op).attempts| == |l.attempts| {
      CapsEvolve(l.attempts, Apply(l, op).attempts);
    } else if op.DoReserve? {
      AbandonTaskGrows(l, op.task, |l.attempts|);
      CapsReserve(l.attempts, Attempt(op.task, op.token, op.route, op.cost, None));
    } else if op.DoFinish? && op.id < |l.attempts| {
      AbandonTaskGrows(l, l.attempts[op.id].task, |l.attempts|);
    }
  }

  lemma ApplyBooks(l: Ledger, op: LedgerOp)
    requires BooksOk(l)
    ensures BooksOk(Apply(l, op))
  {
    hide BooksOk;
    hide Affordable;
    hide ValidCost;
    hide Within;
    match op
    case DoReserve(task, token, route, cost, _, fence) =>
      AbandonTaskOk(l, task, |l.attempts|);
      if ValidCost(route, cost) && Affordable(l.usage, cost) {
        HoldOk(l, Attempt(task, token, route, cost, None));
      }
    case DoFinish(id, _, outcome, actual, _) =>
      if id < |l.attempts| {
        AbandonTaskOk(l, l.attempts[id].task, |l.attempts|);
        if l.attempts[id].closed.None? && actual.Metered? && ValidCost(l.attempts[id].route, actual.cost)
           && Within(actual.cost, l.attempts[id].reserved) {
          CloseOk(l, id, outcome, actual.cost);
        }
      }
    case DoAbandon(id) => AbandonOk(l, id);
  }

  ghost predicate LedgerOk(l: Ledger) { BooksOk(l) && CapsOk(l.attempts) }

  /** Every ledger operation, by any worker at any time, keeps the books balanced and the caps. */
  lemma ApplyOk(l: Ledger, op: LedgerOp)
    requires LedgerOk(l)
    ensures LedgerOk(Apply(l, op))
  {
    hide BooksOk;
    hide CapsOk;
    hide Apply;
    ApplyBooks(l, op);
    ApplyCaps(l, op);
  }

  lemma {:induction false} ApplyAllOk(l: Ledger, ops: seq<LedgerOp>)
    requires LedgerOk(l)
    ensures LedgerOk(ApplyAll(l, ops))
    decreases |ops|
  {
    hide LedgerOk;
    hide Apply;
    if ops != [] {
      ApplyOk(l, ops[0]);
      ApplyAllOk(Apply(l, ops[0]), ops[1..]);
    }
  }

  /** What a cut does to an attempt: an open one of the task is abandoned at its whole reservation. */
  predicate AbandonedIfOpen(a: Attempt, a1: Attempt, task: nat) {
    a1 == if a.task == task && a.closed.None? then a.(closed := Some(Closing(Abandoned, a.reserved))) else a
  }

  lemma {:induction false} AbandonTaskExactly(l: Ledger, task: nat, n: nat)
    ensures var a := AbandonTask(l, task, n).attempts;
            && |a| == |l.attempts|
            && (forall i :: 0 <= i < |a| && i < n ==> AbandonedIfOpen(l.attempts[i], a[i], task))
            && (forall i :: n <= i < |a| ==> a[i] == l.attempts[i])
  {
    if n > 0 {
      AbandonTaskExactly(l, task, n - 1);
    }
  }

  /**
    A lease cut while an attempt is open abandons every open attempt of the task at once, each charged its whole
    reservation, and no other attempt.
   */
  lemma CutClosesOpenAttempts(l: Ledger, id: nat, outcome: Outcome, actual: Charge)
    requires id < |l.attempts|
    ensures var l1 := Finish(l, id, l.attempts[id].token, outcome, actual, Cut).0;
            && |l1.attempts| == |l.attempts|
            && forall i :: 0 <= i < |l.attempts| ==> AbandonedIfOpen(l.attempts[i], l1.attempts[i], l.attempts[id].task)
  {
    AbandonTaskExactly(l, l.attempts[id].task, |l.attempts|);
  }
}

module RouterModel {
  import opened ProviderCosts
  import opened AcquisitionLedger

  datatype Health = Configured | Degraded | Unhealthy | Disabled

  datatype Capability = Ordinary | StaticBlock | Rendering | Interactive

  datatype Requested = Auto | Only(provider: Provider) | OtherName

  /** What one await sees: ledger operations of other workers, then the answer itself. */
  datatype Answer = Answer(others: seq<LedgerOp>, fence: Fence, dbFails: bool, publicUrl: bool, navigation: bool,
                           service: Service, finalPublic: bool, normalizes: bool)

  /** One leased task.  `offered` are the routes whose adapter is available; `env` answers the awaits in order. */
  datatype Task = Task(id: nat, token: nat, maxAttempts: int, timeout: int, requested: Requested,
                       allowHuman: bool, offered: set<Route>, env: nat -> Answer)

  /** `call`: the await that called the adapter, the settlement's being the next; `open`: the attempt was, as far as others go. */
  datatype Event =
    | Opened(id: nat, route: Route, reserved: Cost)
    | Closed(id: nat, route: Route, outcome: Outcome, charge: Charge, settlement: Settlement, call: nat, open: bool)

  datatype World = World(cursor: nat, health: map<Provider, Health>, ledger: Ledger, trace: seq<Event>)

  datatype Failed = Failed(code: string, retryable: bool)

  datatype End = Page | Failing(failure: Failed) | Unavailable(code: string) | HumanInput | InternalError

  datatype Verdict = Go(last: Option<Failed>) | Leave(end: End) | ToStatic(failure: Failed)

  function RoutesFor(capability: Capability): seq<Route> {
    match capability
    case Ordinary => [LocalHttp]
    case StaticBlock => [OwnedProxyHttp, Unlocker]
    case Rendering => [LocalBrowser, Scrape]
    case Interactive => [Session, Interact]
  }

  predicate Healthy(w: World, p: Provider) { p in w.health && w.health[p].Configured? }

  predicate Available(x: Task, w: World, route: Route) { route in x.offered && Healthy(w, ProviderOf(route)) }

  function Filter(x: Task, w: World, routes: seq<Route>): seq<Route> {
    if routes == [] then []
    else (if Available(x, w, routes[0]) then [routes[0]] else []) + Filter(x, w, routes[1..])
  }

  /** _routes; the empty list stands for ProviderUnavailable, which the caller raises for it. */
  function Routes(x: Task, w: World, capability: Capability): seq<Route> {
    match x.requested
    case Auto => Filter(x, w, RoutesFor(capability))
    case OtherName => []
    case Only(p) =>
      if !Healthy(w, p) then []
      else match p
           case Local => [if capability.Rendering? then LocalBrowser else LocalHttp]
           case BrightData => [Unlocker]
           case Browserbase => [Session]
           case Firecrawl => [if capability.Interactive? then Interact else Scrape]
  }

  function Sicken(w: World, p: Provider): World { w.(health := w.health[p := Unhealthy]) }

  // ---- one attempt ----

  datatype Judged = Judged(charge: Charge, outcome: Outcome, sick: bool, verdict: Verdict)

  predicate Transition(x: Task, capability: Capability, route: Route, code: string) {
    x.requested.Auto? && capability.Ordinary? && route.LocalHttp? && code == "blocked_challenge"
  }

  /** The except clauses, and what the finally clause will report. */
  function Judge(x: Task, capability: Capability, route: Route, reserved: Cost, exit: Exit, a: Answer): Judged {
    match exit
    case Result(charge) =>
      if !a.finalPublic
      then Judged(charge, FailedOutcome, false, Leave(Failing(Failed("unsafe_final_url", false))))
      else Judged(charge, Succeeded, false, Leave(if a.normalizes then Page else InternalError))
    case Failure(code, retryable, cost) =>
      Judged(Metered(cost), if retryable then RetryableFailure else FailedOutcome, code == "provider_protocol_error",
             if Transition(x, capability, route, code) then ToStatic(Failed(code, retryable))
             else if retryable then Go(Some(Failed(code, retryable)))
             else Leave(Failing(Failed(code, retryable))))
    case Unsafe => Judged(Metered(reserved), FailedOutcome, false, Leave(Failing(Failed("unsafe_final_url", false))))
    case Protocol => Judged(Metered(reserved), FailedOutcome, true, Leave(Failing(Failed("provider_protocol_error", false))))
    case Defect => Judged(Metered(reserved), FailedOutcome, false, Leave(InternalError))
  }

  predicate IsOpen(l: Ledger, id: nat) { id < |l.attempts| && l.attempts[id].closed.None? }

  /** The finally clause: one settlement, whose own failure replaces whatever was pending. */
  function Settle(x: Task, w: World, id: nat, route: Route, j: Judged, call: nat): (World, Verdict) {
    var a := x.env(w.cursor);
    var l := ApplyAll(w.ledger, a.others);
    var (l1, settlement) := if a.dbFails then (l, Unanswered) else Finish(l, id, x.token, j.outcome, j.charge, a.fence);
    var w1 := World(w.cursor + 1, w.health, l1,
                    w.trace + [Closed(id, route, j.outcome, j.charge, settlement, call, IsOpen(l, id))]);
    match settlement
    case Unanswered => (w1, Leave(InternalError))
    case Impossible => (Sicken(w1, ProviderOf(route)), Leave(Failing(Failed("provider_protocol_error", false))))
    case _ => (w1, j.verdict)
  }

  function Attempting(x: Task, w: World, capability: Capability, route: Route, id: nat, reserved: Cost): (World, Verdict) {
    var a := x.env(w.cursor);
    var j := Judge(x, capability, route, reserved, Call(route, x.timeout, a.service), a);
    var w1 := w.(cursor := w.cursor + 1);
    Settle(x, if j.sick then Sicken(w1, ProviderOf(route)) else w1, id, route, j, w.cursor)
  }

  function Reserving(x: Task, w: World, capability: Capability, route: Route): (World, Verdict) {
    match ReserveCost(route, x.timeout)
    case None => (w, Leave(Failing(Failed("provider_request", false))))
    case Some(reserved) =>
      var a := x.env(w.cursor);
      if a.dbFails then (w.(cursor := w.cursor + 1), Leave(InternalError)) else
      var (l, reservation) :=
        Reserve(ApplyAll(w.ledger, a.others), x.id, x.token, route, reserved, x.maxAttempts, a.fence);
      var w1 := World(w.cursor + 1, w.health, l, w.trace);
      match reservation
      case Refused => (w1, Leave(Unavailable("provider_budget_exhausted")))
      case BadCost => (w1, Leave(InternalError))
      case Reserved(id) => Attempting(x, w1.(trace := w.trace + [Opened(id, route, reserved)]), capability, route, id, reserved)
  }

  function TryRoute(x: Task, w: World, capability: Capability, route: Route, last: Option<Failed>): (World, Verdict) {
    if !Available(x, w, route) then (w, Go(last))
    else if route.LocalBrowser? then
      var w1 := w.(cursor := w.cursor + 1);
      if !x.env(w.cursor).navigation then (w1, Go(Some(Failed("browser_budget_exhausted", false))))
      else Reserving(x, w1, capability, route)
    else Reserving(x, w, capability, route)
  }

  // ---- the walk over the routes ----

  predicate MayAskHuman(x: Task) { x.allowHuman && (x.requested.Auto? || x.requested == Only(Local)) }

  function Exhausted(x: Task, last: Option<Failed>): End {
    if last.None? then Unavailable("provider_unavailable")
    else if (last.value.code == "blocked_challenge" || last.value.code == "human_input_required") && MayAskHuman(x)
    then HumanInput else Failing(last.value)
  }

  function AfterStatic(x: Task, end: End): End {
    if end.Unavailable? && MayAskHuman(x) then HumanInput else end
  }

  function Walk(x: Task, w: World, capability: Capability, routes: seq<Route>, last: Option<Failed>): (World, End)
    decreases if capability.Ordinary? then 1 else 0, 0, |routes|
  {
    if routes == [] then (w, Exhausted(x, last))
    else
      var (w1, verdict) := TryRoute(x, w, capability, routes[0], last);
      match verdict
      case Leave(end) => (w1, end)
      case Go(next) => Walk(x, w1, capability, routes[1..], next)
      case ToStatic(failure) =>
        if !capability.Ordinary? then (w1, Failing(failure))
        else
          var (w2, end) := Acquire(x, w1, StaticBlock);
          (w2, AfterStatic(x, end))
  }

  function Acquire(x: Task, w: World, capability: Capability): (World, End)
    decreases if capability.Ordinary? then 1 else 0, 1, 0
  {
    var w1 := w.(cursor := w.cursor + 1);
    if !x.env(w.cursor).publicUrl then (w1, Failing(Failed("unsafe_request_url", false)))
    else if Routes(x, w1, capability) == [] then (w1, Unavailable("provider_unavailable"))
    else Walk(x, w1, capability, Routes(x, w1, capability), None)
  }
}

module RouterProofs {
  import opened ProviderCosts
  import opened AcquisitionLedger
  import opened RouterModel

  /** Where a blocked ordinary page may fall back to. */
  function Fallback(x: Task, capability: Capability): seq<Route> {
    if capability.Ordinary? && x.requested.Auto? then RoutesFor(StaticBlock) else []
  }

  /** Every route a call may try, in order. */
  function Plan(x: Task, capability: Capability): seq<Route> {
    match x.requested
    case Auto => RoutesFor(capability) + Fallback(x, capability)
    case OtherName => []
    case Only(Local) => [if capability.Rendering? then LocalBrowser else LocalHttp]
    case Only(BrightData) => [Unlocker]
    case Only(Browserbase) => [Session]
    case Only(Firecrawl) => [if capability.Interactive? then Interact else Scrape]
  }

  /** What the ledger made of a settlement, from the answer it got, whether the attempt was open, and the charge. */
  function Effect(a: Answer, open: bool, charge: Charge): Settlement {
    if a.dbFails then Unanswered
    else if !a.fence.Live? || !open then Ignored
    else if charge.NotANumber? then Impossible
    else Settled
  }

  /** What an attempt came to: a page is a success if its final url is public, and a failure may be retryable. */
  function Verdicted(exit: Exit, finalPublic: bool): Outcome {
    if exit.Result? && finalPublic then Succeeded
    else if exit.Failure? && exit.retryable then RetryableFailure
    else FailedOutcome
  }

  /**
    A reservation and its own settlement: same attempt; the charge the adapter reported or else the reservation, a
    cost of the route's meters within what was reserved, or the NaN of a browser session; the outcome of what the
    service did; and the settlement took effect exactly when the database answered, the lease was live, the attempt
    was still open and the charge a cost.
   */
  predicate Pair(x: Task, o: Event, c: Event) {
    && o.Opened? && c.Closed? && o.id == c.id && o.route == c.route && ValidCost(o.route, o.reserved)
    && (c.charge.Metered? ==> ValidCost(c.route, c.charge.cost) && Within(c.charge.cost, o.reserved))
    && (c.charge.NotANumber? <==> NanReported(c.route, x.env(c.call).service))
    && c.charge == Charged(Call(c.route, x.timeout, x.env(c.call).service), o.reserved)
    && c.outcome == Verdicted(Call(c.route, x.timeout, x.env(c.call).service), x.env(c.call).finalPublic)
    && c.settlement == Effect(x.env(c.call + 1), c.open, c.charge)
  }

  /**
    A disciplined trace: each reservation is followed at once by its settlement; the routes come in the
    order of the plan, each at most once; and only a retryable failure leads on to another attempt.
   */
  predicate Disciplined(x: Task, t: seq<Event>, plan: seq<Route>)
    decreases |plan|
  {
    if t == [] then true
    else if plan == [] then false
    else || Disciplined(x, t, plan[1..])
         || (|t| >= 2 && Pair(x, t[0], t[1]) && t[0].route == plan[0] && Disciplined(x, t[2..], plan[1..])
             && (|t| > 2 ==> t[1].outcome.RetryableFailure?))
  }

  /** The settlement may have left its attempt open: it raised, got no answer, or the lease was another's by then. */
  predicate LeftOpen(x: Task, c: Event)
    requires c.Closed?
  {
    c.settlement.Unanswered? || c.settlement.Impossible? || x.env(c.call + 1).fence.Lost?
  }

  /** What a settlement in the trace means for the books: it is there for good, and its attempt is closed. */
  predicate OnBooks(x: Task, c: Event, l: Ledger)
    requires c.Closed?
  {
    && c.id < |l.attempts| && l.attempts[c.id].route == c.route
    && (c.settlement.Settled? ==> c.charge.Metered? && l.attempts[c.id].closed == Some(Closing(c.outcome, c.charge.cost)))
    && (!LeftOpen(x, c) ==> l.attempts[c.id].closed.Some?)
  }

  ghost predicate Booked(x: Task, t: seq<Event>, l: Ledger) {
    forall i :: 0 <= i < |t| && t[i].Closed? ==> OnBooks(x, t[i], l)
  }

  /** No provider recovers. */
  predicate Wanes(w: World, w1: World) {
    w1.health.Keys == w.health.Keys && forall p :: p in w.health && !w.health[p].Configured? ==> !w1.health[p].Configured?
  }

  ghost predicate UsesHealthy(t: seq<Event>, w: World) {
    forall i :: 0 <= i < |t| && t[i].Opened? ==> Healthy(w, ProviderOf(t[i].route))
  }

  /** What an attempt that came to a page leads to. */
  function AfterSuccess(x: Task, c: Event): End
    requires c.Closed?
  {
    match c.settlement
    case Unanswered => InternalError
    case Impossible => Failing(Failed("provider_protocol_error", false))
    case _ => if x.env(c.call).normalizes then Page else InternalError
  }

  /** The call returns a page exactly when its last attempt came to one that could be used and its settlement did not raise. */
  predicate EndsWell(x: Task, t: seq<Event>, end: End) {
    if t != [] && t[|t| - 1].Closed? && t[|t| - 1].outcome.Succeeded? then end == AfterSuccess(x, t[|t| - 1]) else !end.Page?
  }

  function Ext(w: World, w1: World): seq<Event>
    requires w.trace <= w1.trace
  {
    w1.trace[|w.trace|..]
  }

  // ---- one attempt ----

  lemma BookedGrows(x: Task, t: seq<Event>, l: Ledger, l1: Ledger)
    requires Booked(x, t, l) && Grows(l, l1)
    ensures Booked(x, t, l1)
  {
    forall i | 0 <= i < |t| && t[i].Closed? ensures OnBooks(x, t[i], l1) {
      assert OnBooks(x, t[i], l);
      assert Evolves(l.attempts[t[i].id], l1.attempts[t[i].id]);
    }
  }

  lemma GrowsTrans(l: Ledger, l1: Ledger, l2: Ledger)
    requires Grows(l, l1) && Grows(l1, l2)
    ensures Grows(l, l2)
  {
    forall i | 0 <= i < |l.attempts| ensures Evolves(l.attempts[i], l2.attempts[i]) {
      assert Evolves(l.attempts[i], l1.attempts[i]) && Evolves(l1.attempts[i], l2.attempts[i]);
    }
  }

  /** The attempt `id` of this task, as reserved. */
  predicate Mine(x: Task, l: Ledger, id: nat, route: Route, reserved: Cost) {
    && id < |l.attempts|
    && l.attempts[id].route == route && l.attempts[id].reserved == reserved && l.attempts[id].token == x.token
  }

  lemma FinishBooks(x: Task, l: Ledger, id: nat, route: Route, reserved: Cost, outcome: Outcome, charge: Charge, fence: Fence)
    requires LedgerOk(l) && Mine(x, l, id, route, reserved)
    requires charge.Metered? ==> ValidCost(route, charge.cost) && Within(charge.cost, reserved)
    ensures var (l1, s) := Finish(l, id, x.token, outcome, charge, fence);
            && LedgerOk(l1) && Grows(l, l1) && id < |l1.attempts| && l1.attempts[id].route == route
            && s == (if !fence.Live? || !IsOpen(l, id) then Ignored else if charge.NotANumber? then Impossible else Settled)
            && (s.Settled? ==> l1.attempts[id].closed == Some(Closing(outcome, charge.cost)))
            && (fence.Lost? || s.Impossible? || l1.attempts[id].closed.Some?)
  {
    hide ValidCost;
    hide Within;
    hide LedgerOk;
    hide AbandonTask;
    var op := DoFinish(id, x.token, outcome, charge, fence);
    ReservedFits(l, id);
    if charge.Metered? {
      CostKeys(route, reserved, charge.cost);
    }
    ApplyOk(l, op);
    ApplyGrows(l, op);
    assert Evolves(l.attempts[id], Apply(l, op).attempts[id]);
    AbandonTaskGrows(l, l.attempts[id].task, |l.attempts|);
  }

  lemma ReservedFits(l: Ledger, id: nat)
    requires LedgerOk(l) && id < |l.attempts|
    ensures ValidCost(l.attempts[id].route, l.attempts[id].reserved) && l.attempts[id].reserved.Keys <= l.usage.Keys
  {
    assert AttemptOk(l.attempts[id], l.usage);
  }

  lemma CostKeys(route: Route, reserved: Cost, actual: Cost)
    requires ValidCost(route, reserved) && ValidCost(route, actual)
    ensures actual.Keys == reserved.Keys
  {
  }

  /**
    What the router makes of an adapter's exit: a charge the ledger accepts unless it is the NaN of a session; the
    outcome of what the service did; the next route or the static ones only after a retryable failure; and a page
    only for a success that could be used.
   */
  lemma JudgeFits(x: Task, capability: Capability, route: Route, reserved: Cost, a: Answer)
    requires ReserveCost(route, x.timeout) == Some(reserved)
    ensures var j := Judge(x, capability, route, reserved, Call(route, x.timeout, a.service), a);
            && ValidCost(route, reserved)
            && (j.charge.Metered? ==> ValidCost(route, j.charge.cost) && Within(j.charge.cost, reserved))
            && (j.charge.NotANumber? <==> NanReported(route, a.service))
            && j.charge == Charged(Call(route, x.timeout, a.service), reserved)
            && j.outcome == Verdicted(Call(route, x.timeout, a.service), a.finalPublic)
            && (j.verdict.Go? ==> j.outcome.RetryableFailure? && j.verdict.last.Some?)
            && (j.verdict.ToStatic? ==> j.outcome.RetryableFailure? && capability.Ordinary? && x.requested.Auto?)
            && (j.outcome.Succeeded? ==> j.verdict == Leave(if a.normalizes then Page else InternalError))
            && (!j.outcome.Succeeded? ==> j.verdict != Leave(Page)) && j.verdict != Leave(HumanInput)
  {
    hide Call;
    CostsFit(route, x.timeout, a.service);
    if route.LocalHttp? {
      LocalChallengesRetry(route, x.timeout, a.service);
    }
  }

  lemma LocalChallengesRetry(route: Route, timeout: int, a: Service)
    requires route.LocalHttp?
    ensures Call(route, timeout, a).Failure? && Call(route, timeout, a).code == "blocked_challenge" ==>
              Call(route, timeout, a).retryable
  {
  }

  lemma GrowsRefl(l: Ledger)
    ensures Grows(l, l)
  {
  }

  /** What one attempt may do: add nothing to the trace, or one pair that its verdict agrees with. */
  ghost predicate OneAttempt(x: Task, w: World, w1: World, route: Route, v: Verdict) {
    && w.trace <= w1.trace
    && LedgerOk(w1.ledger) && Grows(w.ledger, w1.ledger) && Wanes(w, w1) && Booked(x, Ext(w, w1), w1.ledger)
    && v != Leave(HumanInput)
    && (v.Go? || v.ToStatic? || v == Leave(Page) ==> Ext(w, w1) != [])
    && (Ext(w, w1) != [] ==>
          && |Ext(w, w1)| == 2 && Pair(x, Ext(w, w1)[0], Ext(w, w1)[1]) && Ext(w, w1)[0].route == route
          && Leads(x, Ext(w, w1)[1], v))
  }

  /** The verdict that goes with a settlement. */
  predicate Leads(x: Task, c: Event, v: Verdict)
    requires c.Closed?
  {
    && (v.Go? || v.ToStatic? ==> c.outcome.RetryableFailure?)
    && (if c.outcome.Succeeded? then v == Leave(AfterSuccess(x, c)) else v != Leave(Page))
  }

  lemma SettleOk(x: Task, w: World, id: nat, route: Route, reserved: Cost, j: Judged, call: nat)
    requires LedgerOk(w.ledger) && Mine(x, w.ledger, id, route, reserved)
    requires j.charge.Metered? ==> ValidCost(route, j.charge.cost) && Within(j.charge.cost, reserved)
    requires ProviderOf(route) in w.health && w.cursor == call + 1
    ensures var (w1, v) := Settle(x, w, id, route, j, call);
            && LedgerOk(w1.ledger) && Grows(w.ledger, w1.ledger) && Wanes(w, w1)
            && |w1.trace| == |w.trace| + 1 && w.trace <= w1.trace
            && var c := w1.trace[|w.trace|];
               && c.Closed? && c == Closed(id, route, j.outcome, j.charge, Effect(x.env(call + 1), c.open, j.charge), call, c.open)
               && OnBooks(x, c, w1.ledger)
               && v == (match c.settlement
                        case Unanswered => Leave(InternalError)
                        case Impossible => Leave(Failing(Failed("provider_protocol_error", false)))
                        case _ => j.verdict)
  {
    hide LedgerOk;
    hide ValidCost;
    hide Within;
    hide Finish;
    hide Apply;
    var a := x.env(w.cursor);
    ApplyAllOk(w.ledger, a.others);
    ApplyAllGrows(w.ledger, a.others);
    var l := ApplyAll(w.ledger, a.others);
    assert Evolves(w.ledger.attempts[id], l.attempts[id]);
    FinishBooks(x, l, id, route, reserved, j.outcome, j.charge, a.fence);
    GrowsTrans(w.ledger, l, Finish(l, id, x.token, j.outcome, j.charge, a.fence).0);
  }

  lemma AttemptingOk(x: Task, w: World, capability: Capability, route: Route, id: nat, reserved: Cost)
    requires LedgerOk(w.ledger) && Mine(x, w.ledger, id, route, reserved) && ReserveCost(route, x.timeout) == Some(reserved)
    requires Healthy(w, ProviderOf(route))
    requires w.trace != [] && w.trace[|w.trace| - 1] == Opened(id, route, reserved)
    ensures OneAttempt(x, w.(trace := w.trace[..|w.trace| - 1]), Attempting(x, w, capability, route, id, reserved).0, route,
                       Attempting(x, w, capability, route, id, reserved).1)
    ensures Attempting(x, w, capability, route, id, reserved).1.ToStatic? ==> capability.Ordinary? && x.requested.Auto?
  {
    hide LedgerOk;
    hide ValidCost;
    hide Within;
    hide Call;
    hide Judge;
    hide ReserveCost;
    hide Settle;
    hide Grows;
    hide Mine;
    hide NanReported;
    hide Verdicted;
    hide Charged;
    hide OnBooks;
    var a := x.env(w.cursor);
    var j := Judge(x, capability, route, reserved, Call(route, x.timeout, a.service), a);
    JudgeFits(x, capability, route, reserved, a);
    var w1 := w.(cursor := w.cursor + 1);
    var w2 := if j.sick then Sicken(w1, ProviderOf(route)) else w1;
    SettleOk(x, w2, id, route, reserved, j, w.cursor);
    var w3 := Settle(x, w2, id, route, j, w.cursor).0;
    var w0 := w.(trace := w.trace[..|w.trace| - 1]);
    assert Ext(w0, w3) == [Opened(id, route, reserved), w3.trace[|w.trace|]];
    BookedPair(x, Opened(id, route, reserved), w3.trace[|w.trace|], w3.ledger);
  }

  lemma BookedPair(x: Task, o: Event, c: Event, l: Ledger)
    requires o.Opened? && c.Closed? && OnBooks(x, c, l)
    ensures Booked(x, [o, c], l)
  {
  }

  /** A reservation that is refused or raises adds nothing to the trace. */
  lemma NoAttempt(x: Task, w: World, w1: World, route: Route, end: End)
    requires LedgerOk(w1.ledger) && Grows(w.ledger, w1.ledger) && w1.trace == w.trace && w1.health == w.health
    requires !end.Page? && !end.HumanInput?
    ensures OneAttempt(x, w, w1, route, Leave(end))
  {
    hide LedgerOk;
    hide Grows;
  }

  lemma ReservingOk(x: Task, w: World, capability: Capability, route: Route)
    requires LedgerOk(w.ledger) && Healthy(w, ProviderOf(route))
    ensures OneAttempt(x, w, Reserving(x, w, capability, route).0, route, Reserving(x, w, capability, route).1)
    ensures Reserving(x, w, capability, route).1.ToStatic? ==> capability.Ordinary? && x.requested.Auto?
  {
    hide LedgerOk;
    hide Attempting;
    hide ReserveCost;
    hide ApplyAll;
    hide Apply;
    hide Affordable;
    hide ValidCost;
    hide AbandonTask;
    hide Count;
    hide CountRoute;
    hide Grows;
    hide Within;
    hide OneAttempt;
    hide Mine;
    GrowsRefl(w.ledger);
    var refused := Unavailable("provider_budget_exhausted");
    NoAttempt(x, w, w, route, Failing(Failed("provider_request", false)));
    NoAttempt(x, w, w.(cursor := w.cursor + 1), route, InternalError);
    if ReserveCost(route, x.timeout).Some? {
      var reserved := ReserveCost(route, x.timeout).value;
      CostsFit(route, x.timeout, x.env(0).service);
      var a := x.env(w.cursor);
      var l := ApplyAll(w.ledger, a.others);
      ApplyAllOk(w.ledger, a.others);
      ApplyAllGrows(w.ledger, a.others);
      ReserveBooks(l, x, route, reserved, a.fence);
      var (l1, reservation) := Reserve(l, x.id, x.token, route, reserved, x.maxAttempts, a.fence);
      GrowsTrans(w.ledger, l, l1);
      NoAttempt(x, w, World(w.cursor + 1, w.health, l1, w.trace), route, refused);
      NoAttempt(x, w, World(w.cursor + 1, w.health, l1, w.trace), route, InternalError);
      if reservation.Reserved? && !a.dbFails {
        var w1 := World(w.cursor + 1, w.health, l1, w.trace + [Opened(reservation.id, route, reserved)]);
        AttemptingOk(x, w1, capability, route, reservation.id, reserved);
        assert w1.trace[..|w1.trace| - 1] == w.trace;
        OneAttemptFrom(x, w, w1.(trace := w.trace), Attempting(x, w1, capability, route, reservation.id, reserved).0, route,
                       Attempting(x, w1, capability, route, reservation.id, reserved).1);
      }
    }
  }

  lemma OneAttemptFrom(x: Task, w: World, w1: World, w2: World, route: Route, v: Verdict)
    requires OneAttempt(x, w1, w2, route, v) && w1.trace == w.trace && Grows(w.ledger, w1.ledger) && w1.health == w.health
    ensures OneAttempt(x, w, w2, route, v)
  {
    GrowsTrans(w.ledger, w1.ledger, w2.ledger);
  }

  lemma ReserveBooks(l: Ledger, x: Task, route: Route, reserved: Cost, fence: Fence)
    requires LedgerOk(l) && ValidCost(route, reserved)
    ensures var (l1, r) := Reserve(l, x.id, x.token, route, reserved, x.maxAttempts, fence);
            && LedgerOk(l1) && Grows(l, l1) && !r.BadCost?
            && (r.Reserved? ==> Mine(x, l1, r.id, route, reserved))
  {
    hide LedgerOk;
    hide ValidCost;
    hide Affordable;
    hide Grows;
    hide AbandonTask;
    var op := DoReserve(x.id, x.token, route, reserved, x.maxAttempts, fence);
    ApplyOk(l, op);
    ApplyGrows(l, op);
  }

  // ---- the walk ----

  ghost predicate WellRun(x: Task, w: World, w1: World, plan: seq<Route>, end: End) {
    && w.trace <= w1.trace
    && LedgerOk(w1.ledger) && Grows(w.ledger, w1.ledger) && Booked(x, Ext(w, w1), w1.ledger)
    && Wanes(w, w1) && UsesHealthy(Ext(w, w1), w)
    && Disciplined(x, Ext(w, w1), plan)
    && EndsWell(x, Ext(w, w1), end)
    && (end.HumanInput? ==> MayAskHuman(x))
  }

  lemma {:induction false} DisciplinedLater(x: Task, t: seq<Event>, skipped: seq<Route>, plan: seq<Route>)
    requires Disciplined(x, t, plan)
    ensures Disciplined(x, t, skipped + plan)
  {
    if skipped == [] {
      assert skipped + plan == plan;
    } else {
      assert (skipped + plan)[1..] == skipped[1..] + plan;
      DisciplinedLater(x, t, skipped[1..], plan);
    }
  }

  lemma {:induction false} DisciplinedFilter(x: Task, w: World, t: seq<Event>, routes: seq<Route>, rest: seq<Route>)
    requires Disciplined(x, t, Filter(x, w, routes) + rest)
    ensures Disciplined(x, t, routes + rest)
    decreases |routes|
  {
    if routes == [] {
    } else {
      assert (routes + rest)[1..] == routes[1..] + rest;
      if Available(x, w, routes[0]) {
        var f := Filter(x, w, routes);
        assert f == [routes[0]] + Filter(x, w, routes[1..]);
        assert (f + rest)[1..] == Filter(x, w, routes[1..]) + rest;
        if t != [] {
          if Disciplined(x, t, (f + rest)[1..]) {
            DisciplinedFilter(x, w, t, routes[1..], rest);
          } else {
            DisciplinedFilter(x, w, t[2..], routes[1..], rest);
          }
        }
      } else {
        assert Filter(x, w, routes) + rest == Filter(x, w, routes[1..]) + rest;
        DisciplinedFilter(x, w, t, routes[1..], rest);
      }
    }
  }

  /** An attempt followed by a well-run rest is a well-run whole. */
  lemma Join(x: Task, w: World, w1: World, w2: World, route: Route, v: Verdict, plan: seq<Route>, end: End)
    requires v.Go? || v.ToStatic?
    requires || (OneAttempt(x, w, w1, route, v) && Healthy(w, ProviderOf(route)))
             || (w1.trace == w.trace && w1.ledger == w.ledger && w1.health == w.health)
    requires WellRun(x, w1, w2, plan, end)
    ensures WellRun(x, w, w2, [route] + plan, end)
  {
    hide LedgerOk;
    hide Grows;
    hide Pair;
    hide UsesHealthy;
    hide Booked;
    hide Healthy;
    NothingYet(x, w, w.ledger);
    NothingYet(x, w, w2.ledger);
    WanesTrans(w, w1, w2);
    var first, rest, all := Ext(w, w1), Ext(w1, w2), Ext(w, w2);
    assert all == first + rest;
    assert ([route] + plan)[1..] == plan;
    GrowsTrans2(w, w1, w2);
    if first != [] {
      UsesPair(x, first, w, route);
    }
    UsesBoth(first, rest, w, w1);
    if first != [] {
      BookedGrows(x, first, w1.ledger, w2.ledger);
      assert all[2..] == rest;
    }
    BookedBoth(x, first, rest, w2.ledger);
    if rest != [] {
      assert all[|all| - 1] == rest[|rest| - 1];
    }
  }

  lemma BookedBoth(x: Task, a: seq<Event>, b: seq<Event>, l: Ledger)
    requires (a == [] || Booked(x, a, l)) && Booked(x, b, l)
    ensures Booked(x, a + b, l)
  {
    hide OnBooks;
    forall i | 0 <= i < |a + b| && (a + b)[i].Closed? ensures OnBooks(x, (a + b)[i], l) {
      if i < |a| {
        assert (a + b)[i] == a[i];
      } else {
        assert (a + b)[i] == b[i - |a|];
      }
    }
  }

  lemma NothingYet(x: Task, w: World, l: Ledger)
    ensures UsesHealthy([], w) && Booked(x, [], l) && Wanes(w, w)
  {
  }

  lemma WanesTrans(w: World, w1: World, w2: World)
    requires (Wanes(w, w1) || w1.health == w.health) && Wanes(w1, w2)
    ensures Wanes(w, w1) && Wanes(w, w2)
  {
  }

  lemma UsesPair(x: Task, t: seq<Event>, w: World, route: Route)
    requires |t| == 2 && Pair(x, t[0], t[1]) && t[0].route == route && Healthy(w, ProviderOf(route))
    ensures UsesHealthy(t, w)
  {
  }

  lemma UsesBoth(a: seq<Event>, b: seq<Event>, w: World, w1: World)
    requires UsesHealthy(a, w) && UsesHealthy(b, w1) && Wanes(w, w1)
    ensures UsesHealthy(a + b, w)
  {
    forall i | 0 <= i < |a + b| && (a + b)[i].Opened? ensures Healthy(w, ProviderOf((a + b)[i].route)) {
      if i < |a| {
        assert (a + b)[i] == a[i];
      } else {
        assert (a + b)[i] == b[i - |a|];
      }
    }
  }

  lemma GrowsTrans2(w: World, w1: World, w2: World)
    requires (Grows(w.ledger, w1.ledger) || w1.ledger == w.ledger) && Grows(w1.ledger, w2.ledger)
    ensures Grows(w.ledger, w2.ledger)
  {
    if Grows(w.ledger, w1.ledger) {
      GrowsTrans(w.ledger, w1.ledger, w2.ledger);
    }
  }

  lemma OnePairDisciplined(x: Task, t: seq<Event>, route: Route, plan: seq<Route>)
    requires t == [] || (|t| == 2 && Pair(x, t[0], t[1]) && t[0].route == route)
    ensures Disciplined(x, t, [route] + plan)
  {
    hide Pair;
    assert ([route] + plan)[1..] == plan;
    if t != [] {
      assert t[2..] == [];
      assert Disciplined(x, [], plan);
    }
  }

  /** A last attempt, after which the walk ends. */
  lemma LastAttempt(x: Task, w: World, w1: World, route: Route, plan: seq<Route>, end: End)
    requires OneAttempt(x, w, w1, route, Leave(end)) && Healthy(w, ProviderOf(route))
    ensures WellRun(x, w, w1, [route] + plan, end)
  {
    hide LedgerOk;
    hide Grows;
    hide Booked;
    hide Disciplined;
    hide Pair;
    NothingYet(x, w, w1.ledger);
    var t := Ext(w, w1);
    OnePairDisciplined(x, t, route, plan);
    if t != [] {
      UsesPair(x, t, w, route);
      PairEnds(x, t[0], t[1]);
    }
    assert EndsWell(x, t, end);
  }

  lemma Standstill(x: Task, w: World, w1: World, plan: seq<Route>, end: End)
    requires LedgerOk(w.ledger) && w1.trace == w.trace && w1.ledger == w.ledger && w1.health == w.health
    requires !end.Page? && (end.HumanInput? ==> MayAskHuman(x))
    ensures WellRun(x, w, w1, plan, end)
  {
    GrowsRefl(w.ledger);
  }

  lemma Renamed(x: Task, w: World, w1: World, plan: seq<Route>, end: End)
    requires WellRun(x, w, w1, plan, end)
    ensures WellRun(x, w, w1, plan, AfterStatic(x, end))
  {
    hide LedgerOk;
    hide Grows;
    hide Booked;
    hide Disciplined;
    hide UsesHealthy;
  }

  lemma TryRouteOk(x: Task, w: World, capability: Capability, route: Route, last: Option<Failed>)
    requires LedgerOk(w.ledger)
    ensures var (w1, v) := TryRoute(x, w, capability, route, last);
            && (|| (OneAttempt(x, w, w1, route, v) && Healthy(w, ProviderOf(route)))
                || (v.Go? && w1.trace == w.trace && w1.ledger == w.ledger && w1.health == w.health))
            && (v.ToStatic? ==> capability.Ordinary? && x.requested.Auto?)
  {
    hide LedgerOk;
    hide Reserving;
    hide Grows;
    hide Booked;
    hide Pair;
    if Available(x, w, route) {
      ReservingOk(x, w, capability, route);
      var w1 := w.(cursor := w.cursor + 1);
      ReservingOk(x, w1, capability, route);
      var (w2, v) := Reserving(x, w1, capability, route);
      GrowsRefl(w.ledger);
      OneAttemptFrom(x, w, w1, w2, route, v);
    }
  }

  lemma {:induction false} WalkOk(x: Task, w: World, capability: Capability, routes: seq<Route>, last: Option<Failed>)
    requires LedgerOk(w.ledger)
    ensures WellRun(x, w, Walk(x, w, capability, routes, last).0, routes + Fallback(x, capability),
                    Walk(x, w, capability, routes, last).1)
    decreases if capability.Ordinary? then 1 else 0, 0, |routes|
  {
    hide LedgerOk;
    hide TryRoute;
    hide OneAttempt;
    hide WellRun;
    hide Acquire;
    hide Fallback;
    hide Healthy;
    hide AfterStatic;
    if routes == [] {
      Standstill(x, w, w, routes + Fallback(x, capability), Exhausted(x, last));
    } else {
      var (w1, v) := TryRoute(x, w, capability, routes[0], last);
      var plan := routes[1..] + Fallback(x, capability);
      assert routes + Fallback(x, capability) == [routes[0]] + plan;
      TryRouteOk(x, w, capability, routes[0], last);
      match v
      case Leave(end) => LastAttempt(x, w, w1, routes[0], plan, end);
      case Go(next) =>
        LedgerStays(x, w, w1, routes[0], v);
        WalkOk(x, w1, capability, routes[1..], next);
        var (w2, end) := Walk(x, w1, capability, routes[1..], next);
        Join(x, w, w1, w2, routes[0], v, plan, end);
      case ToStatic(_) =>
        LedgerStays(x, w, w1, routes[0], v);
        AcquireOk(x, w1, StaticBlock);
        var (w2, end) := Acquire(x, w1, StaticBlock);
        StaticPlan(x, w1, w2, capability, routes[1..], end);
        Join(x, w, w1, w2, routes[0], v, plan, end);
        Renamed(x, w, w2, [routes[0]] + plan, end);
    }
  }

  lemma LedgerStays(x: Task, w: World, w1: World, route: Route, v: Verdict)
    requires LedgerOk(w.ledger) && (OneAttempt(x, w, w1, route, v) || w1.ledger == w.ledger)
    ensures LedgerOk(w1.ledger)
  {
    hide LedgerOk;
  }

  lemma StaticPlan(x: Task, w: World, w1: World, capability: Capability, routes: seq<Route>, end: End)
    requires WellRun(x, w, w1, Plan(x, StaticBlock), end) && capability.Ordinary? && x.requested.Auto?
    ensures WellRun(x, w, w1, routes + Fallback(x, capability), end)
  {
    hide LedgerOk;
    hide Grows;
    hide Booked;
    hide Disciplined;
    assert Plan(x, StaticBlock) == Fallback(x, capability);
    DisciplinedLater(x, Ext(w, w1), routes, Fallback(x, capability));
  }

  lemma PlanCovers(x: Task, w: World, w1: World, w2: World, capability: Capability, end: End)
    requires w1 == w.(cursor := w.cursor + 1) && Routes(x, w1, capability) != []
    requires WellRun(x, w1, w2, Routes(x, w1, capability) + Fallback(x, capability), end)
    ensures WellRun(x, w, w2, Plan(x, capability), end)
  {
    hide LedgerOk;
    hide Grows;
    hide Booked;
    hide Disciplined;
    hide Filter;
    if x.requested.Auto? {
      DisciplinedFilter(x, w1, Ext(w, w2), RoutesFor(capability), Fallback(x, capability));
    } else {
      assert Routes(x, w1, capability) + Fallback(x, capability) == Plan(x, capability);
    }
  }

  lemma {:induction false} AcquireOk(x: Task, w: World, capability: Capability)
    requires LedgerOk(w.ledger)
    ensures WellRun(x, w, Acquire(x, w, capability).0, Plan(x, capability), Acquire(x, w, capability).1)
    decreases if capability.Ordinary? then 1 else 0, 1, 0
  {
    hide LedgerOk;
    hide WellRun;
    hide Walk;
    hide Routes;
    var w1 := w.(cursor := w.cursor + 1);
    if !x.env(w.cursor).publicUrl {
      Standstill(x, w, w1, Plan(x, capability), Failing(Failed("unsafe_request_url", false)));
    } else if Routes(x, w1, capability) == [] {
      Standstill(x, w, w1, Plan(x, capability), Unavailable("provider_unavailable"));
    } else {
      WalkOk(x, w1, capability, Routes(x, w1, capability), None);
      PlanCovers(x, w, w1, Acquire(x, w, capability).0, capability, Acquire(x, w, capability).1);
    }
  }

  // ---- main results ----

  predicate Ended(e: Event, outcome: Outcome) { e.Closed? && e.outcome == outcome }

  /** At most `n` attempts, each settled before the next is reserved; all but the last a retryable failure. */
  predicate EachSettledOnce(x: Task, t: seq<Event>, n: nat) {
    && |t| <= 2 * n && |t| % 2 == 0
    && (forall k :: 0 <= k < |t| && k % 2 == 0 ==> Pair(x, t[k], t[k + 1]))
    && (forall k :: 0 <= k < |t| - 2 && k % 2 == 1 ==> Ended(t[k], RetryableFailure))
  }

  lemma {:induction false} DisciplinedSize(x: Task, t: seq<Event>, plan: seq<Route>)
    requires Disciplined(x, t, plan)
    ensures EachSettledOnce(x, t, |plan|)
    decreases |plan|
  {
    hide Pair;
    hide EachSettledOnce;
    if t == [] {
      NoAttempts(x, t, |plan|);
    } else if Disciplined(x, t, plan[1..]) {
      DisciplinedSize(x, t, plan[1..]);
      OneMoreAllowed(x, t, |plan| - 1);
    } else {
      DisciplinedSize(x, t[2..], plan[1..]);
      OneMore(x, t, |plan| - 1);
    }
  }

  lemma NoAttempts(x: Task, t: seq<Event>, n: nat)
    ensures t == [] ==> EachSettledOnce(x, t, n)
  {
  }

  lemma OneMoreAllowed(x: Task, t: seq<Event>, n: nat)
    requires EachSettledOnce(x, t, n)
    ensures EachSettledOnce(x, t, n + 1)
  {
    hide Pair;
  }

  lemma OneMore(x: Task, t: seq<Event>, n: nat)
    requires |t| >= 2 && Pair(x, t[0], t[1]) && EachSettledOnce(x, t[2..], n)
    requires |t| > 2 ==> t[1].outcome.RetryableFailure?
    ensures EachSettledOnce(x, t, n + 1)
  {
    hide Pair;
    PairEnds(x, t[0], t[1]);
    forall k | 2 <= k < |t| && k % 2 == 0 ensures Pair(x, t[k], t[k + 1]) {
      assert Pair(x, t[2..][k - 2], t[2..][k - 1]);
    }
    forall k | 2 <= k < |t| - 2 && k % 2 == 1 ensures Ended(t[k], RetryableFailure) {
      assert Ended(t[2..][k - 2], RetryableFailure);
    }
  }

  lemma PairEnds(x: Task, o: Event, c: Event)
    requires Pair(x, o, c)
    ensures o.Opened? && c.Closed?
  {
  }

  lemma UpToThree(x: Task, t: seq<Event>, n: nat)
    requires EachSettledOnce(x, t, n) && n <= 3
    ensures EachSettledOnce(x, t, 3)
  {
    hide Pair;
  }

  lemma AllClosed(x: Task, t: seq<Event>, l: Ledger, n: nat)
    requires EachSettledOnce(x, t, n) && Booked(x, t, l)
    ensures forall k :: 0 <= k < |t| && k % 2 == 0 ==> k + 1 < |t| && t[k + 1].Closed?
    ensures forall k :: 0 <= k < |t| && k % 2 == 0 && !LeftOpen(x, t[k + 1]) ==>
              t[k].Opened? && t[k].id < |l.attempts| && l.attempts[t[k].id].closed.Some?
  {
    hide ValidCost;
    hide Within;
    hide NanReported;
    hide Verdicted;
    hide Charged;
    hide Effect;
    hide LeftOpen;
    forall k | 0 <= k < |t| && k % 2 == 0
      ensures k + 1 < |t| && Pair(x, t[k], t[k + 1]) && OnBooks(x, t[k + 1], l)
    {
    }
  }

  /**
    Whatever the providers, the database and other workers do: a call reserves at most three attempts, each
    followed at once by its one settlement; that takes effect exactly when the database answers, the lease is
    live, the attempt still open and the charge no NaN, and unless it got no answer, raised on a NaN or found the
    lease another's, the attempt is closed for good.  Every attempt but the last ended in a retryable failure; the
    call returns a page exactly when the last one came to a usable page and its settlement did not raise; it uses
    only healthy providers; and the books stay balanced.
   */
  lemma AcquireSettlesEachAttemptOnce(x: Task, w: World, w1: World, capability: Capability, end: End)
    requires LedgerOk(w.ledger) && (w1, end) == Acquire(x, w, capability)
    ensures w.trace <= w1.trace && EachSettledOnce(x, Ext(w, w1), 3)
    ensures EndsWell(x, Ext(w, w1), end) && (end.HumanInput? ==> MayAskHuman(x))
    ensures Booked(x, Ext(w, w1), w1.ledger) && UsesHealthy(Ext(w, w1), w)
    ensures forall k :: 0 <= k < |Ext(w, w1)| && k % 2 == 0 && !LeftOpen(x, Ext(w, w1)[k + 1]) ==>
              Ext(w, w1)[k].id < |w1.ledger.attempts| && w1.ledger.attempts[Ext(w, w1)[k].id].closed.Some?
    ensures LedgerOk(w1.ledger) && Grows(w.ledger, w1.ledger) && Wanes(w, w1)
  {
    hide LedgerOk;
    hide Grows;
    hide Acquire;
    hide UsesHealthy;
    hide Disciplined;
    hide EachSettledOnce;
    hide Booked;
    hide EndsWell;
    hide LeftOpen;
    AcquireOk(x, w, capability);
    DisciplinedSize(x, Ext(w, w1), Plan(x, capability));
    UpToThree(x, Ext(w, w1), |Plan(x, capability)|);
    AllClosed(x, Ext(w, w1), w1.ledger, 3);
  }

  /** A settlement raises exactly when it is answered under the live lease of a still open attempt with the NaN of a session. */
  lemma RaisesExactlyOnNaN(x: Task, w: World, w1: World, capability: Capability, end: End, k: nat)
    requires LedgerOk(w.ledger) && (w1, end) == Acquire(x, w, capability)
    requires |w.trace| <= k < |w1.trace| && w1.trace[k].Closed?
    ensures var c := w1.trace[k];
            c.settlement.Impossible? <==>
              && !x.env(c.call + 1).dbFails && x.env(c.call + 1).fence.Live? && c.open
              && NanReported(c.route, x.env(c.call).service)
  {
    hide LedgerOk;
    hide Grows;
    hide Acquire;
    hide UsesHealthy;
    hide Booked;
    hide ValidCost;
    hide Within;
    hide Call;
    hide NanReported;
    AcquireSettlesEachAttemptOnce(x, w, w1, capability, end);
    ClosedIsSecond(x, Ext(w, w1), 3, k - |w.trace|);
  }

  lemma ClosedIsSecond(x: Task, t: seq<Event>, n: nat, k: nat)
    requires EachSettledOnce(x, t, n) && k < |t| && t[k].Closed?
    ensures k >= 1 && Pair(x, t[k - 1], t[k])
  {
    hide Pair;
    forall j | 0 <= j < |t| && j % 2 == 0 ensures t[j].Opened? {
      PairEnds(x, t[j], t[j + 1]);
    }
    assert k % 2 == 1;
  }

  /**
    A call whose last attempt is booked as succeeded ends without a page exactly when the provider delivered a
    public page at a real cost, the settlement was answered under a live lease for the open attempt, and the page
    could not be turned into a result; the call then ends in an internal error, with the success on the books.
   */
  lemma UnusablePageIsBookedAsSuccess(x: Task, w: World, w1: World, capability: Capability, end: End)
    requires LedgerOk(w.ledger) && (w1, end) == Acquire(x, w, capability) && |w1.trace| > |w.trace|
    ensures var c := w1.trace[|w1.trace| - 1];
            && c.Closed?
            && var call, settling := x.env(c.call), x.env(c.call + 1);
               var exit := Call(c.route, x.timeout, call.service);
               && (c.settlement.Settled? && c.outcome.Succeeded? && !end.Page? <==>
                     && exit.Result? && exit.charge.Metered? && call.finalPublic && !call.normalizes
                     && !settling.dbFails && settling.fence.Live? && c.open)
               && (c.settlement.Settled? && c.outcome.Succeeded? && !end.Page? ==>
                     && end == InternalError && c.id < |w1.ledger.attempts|
                     && w1.ledger.attempts[c.id].closed == Some(Closing(Succeeded, exit.charge.cost)))
               && (c.settlement.Unanswered? && c.outcome.Succeeded? ==> end == InternalError)
  {
    hide LedgerOk;
    hide Grows;
    hide Acquire;
    hide UsesHealthy;
    hide ValidCost;
    hide Within;
    hide Call;
    AcquireSettlesEachAttemptOnce(x, w, w1, capability, end);
    var t := Ext(w, w1);
    var n := |t| - 2;
    assert Pair(x, t[n], t[n + 1]);
    assert OnBooks(x, t[n + 1], w1.ledger);
  }
}

module AcquisitionRouter {
  import opened ProviderCosts
  import opened AcquisitionLedger
  import opened RouterModel
  import opened RouterProofs
  import RouterOutcomes

  /** registry.py: health only ever leaves `configured`. */
  class Registry {
    var health: map<Provider, Health>

    constructor (installed: map<Provider, bool>)
      ensures health.Keys == installed.Keys
      ensures forall p :: p in installed ==> health[p] == if installed[p] then Configured else Disabled
    {
      health := map p | p in installed :: if installed[p] then Configured else Disabled;
    }

    /** disable, degrade and unhealthy; an unknown provider is refused. */
    method Demote(p: Provider, h: Health) returns (known: bool)
      requires !h.Configured?
      modifies this
      ensures known <==> p in old(health)
      ensures health == if known then old(health)[p := h] else old(health)
    {
      known := p in health;
      if known {
        health := health[p := h];
      }
    }
  }

  lemma FinishAnswers(l: Ledger, id: nat, token: nat, outcome: Outcome, charge: Charge, fence: Fence)
    ensures !Finish(l, id, token, outcome, charge, fence).1.Unanswered?
  {
  }

  class Router {
    const x: Task
    const registry: Registry
    var cursor: nat
    var ledger: Ledger
    var trace: seq<Event>

    ghost function View(): World
      reads this, registry
    {
      World(cursor, registry.health, ledger, trace)
    }

    constructor (x: Task, registry: Registry, ledger: Ledger)
      ensures this.x == x && this.registry == registry && View() == World(0, registry.health, ledger, [])
    {
      this.x, this.registry, this.ledger := x, registry, ledger;
      cursor, trace := 0, [];
    }

    method Await() returns (a: Answer)
      modifies this`cursor
      ensures a == x.env(old(cursor)) && cursor == old(cursor) + 1
    {
      a := x.env(cursor);
      cursor := cursor + 1;
    }

    /** The finally clause. */
    method SettleAttempt(id: nat, route: Route, j: Judged, call: nat) returns (verdict: Verdict)
      requires ProviderOf(route) in registry.health
      modifies this`cursor, this`ledger, this`trace, registry
      ensures (View(), verdict) == Settle(x, old(View()), id, route, j, call)
    {
      hide ApplyAll;
      hide Finish;
      verdict := j.verdict;
      var a := Await();
      ledger := ApplyAll(ledger, a.others);
      var open, settlement := IsOpen(ledger, id), Unanswered;
      if a.dbFails {
        verdict := Leave(InternalError);
      } else {
        var (l, s) := Finish(ledger, id, x.token, j.outcome, j.charge, a.fence);
        FinishAnswers(ledger, id, x.token, j.outcome, j.charge, a.fence);
        ledger, settlement := l, s;
        if settlement.Impossible? {
          var _ := registry.Demote(ProviderOf(route), Unhealthy);
          verdict := Leave(Failing(Failed("provider_protocol_error", false)));
        }
      }
      trace := trace + [Closed(id, route, j.outcome, j.charge, settlement, call, open)];
    }

    /** The except clauses, and what the finally clause will report. */
    method Classify(capability: Capability, route: Route, reserved: Cost, exit: Exit, a: Answer) returns (j: Judged)
      ensures j == Judge(x, capability, route, reserved, exit, a)
    {
      var charge, outcome, sick, verdict := Metered(reserved), FailedOutcome, false, Leave(InternalError);
      match exit {
        case Result(c) =>
          charge := c;
          if !a.finalPublic {
            verdict := Leave(Failing(Failed("unsafe_final_url", false)));
          } else {
            outcome := Succeeded;
            if a.normalizes { verdict := Leave(Page); }
          }
        case Failure(code, retryable, cost) =>
          charge := Metered(cost);
          if retryable { outcome := RetryableFailure; }
          sick := code == "provider_protocol_error";
          if Transition(x, capability, route, code) {
            verdict := ToStatic(Failed(code, retryable));
          } else if retryable {
            verdict := Go(Some(Failed(code, retryable)));
          } else {
            verdict := Leave(Failing(Failed(code, retryable)));
          }
        case Unsafe =>
          verdict := Leave(Failing(Failed("unsafe_final_url", false)));
        case Protocol =>
          sick := true;
          verdict := Leave(Failing(Failed("provider_protocol_error", false)));
        case Defect =>
      }
      j := Judged(charge, outcome, sick, verdict);
    }

    /** The try, whose except and finally clauses follow whatever happened. */
    method CallAdapter(capability: Capability, route: Route, id: nat, reserved: Cost) returns (verdict: Verdict)
      requires ProviderOf(route) in registry.health
      modifies this`cursor, this`ledger, this`trace, registry
      ensures (View(), verdict) == Attempting(x, old(View()), capability, route, id, reserved)
    {
      hide Call;
      hide Settle;
      hide Judge;
      var call := cursor;
      var a := Await();
      var exit := Call(route, x.timeout, a.service);
      var j := Classify(capability, route, reserved, exit, a);
      if j.sick {
        var _ := registry.Demote(ProviderOf(route), Unhealthy);
      }
      verdict := SettleAttempt(id, route, j, call);
    }

    /** One turn of the loop over the routes. */
    method AttemptRoute(capability: Capability, route: Route, last: Option<Failed>) returns (verdict: Verdict)
      modifies this`cursor, this`ledger, this`trace, registry
      ensures (View(), verdict) == TryRoute(x, old(View()), capability, route, last)
    {
      hide ApplyAll;
      hide Reserve;
      hide ReserveCost;
      hide Attempting;
      if route !in x.offered || ProviderOf(route) !in registry.health || !registry.health[ProviderOf(route)].Configured? {
        return Go(last);
      }
      if route.LocalBrowser? {
        var a := Await();
        if !a.navigation {
          return Go(Some(Failed("browser_budget_exhausted", false)));
        }
      }
      var reserved := ReserveCost(route, x.timeout);
      if reserved.None? {
        return Leave(Failing(Failed("provider_request", false)));
      }
      var a := Await();
      if a.dbFails {
        return Leave(InternalError);
      }
      var (l, reservation) :=
        Reserve(ApplyAll(ledger, a.others), x.id, x.token, route, reserved.value, x.maxAttempts, a.fence);
      ledger := l;
      match reservation
      case Refused => return Leave(Unavailable("provider_budget_exhausted"));
      case BadCost => return Leave(InternalError);
      case Reserved(id) =>
        trace := trace + [Opened(id, route, reserved.value)];
        verdict := CallAdapter(capability, route, id, reserved.value);
    }

    /** acquire: walks the routes, and re-enters itself once for a blocked ordinary page. */
    method AcquirePage(capability: Capability) returns (end: End)
      modifies this`cursor, this`ledger, this`trace, registry
      ensures (View(), end) == Acquire(x, old(View()), capability)
      ensures old(LedgerOk(ledger)) ==>
                LedgerOk(ledger) && old(trace) <= trace && EachSettledOnce(x, trace[|old(trace)|..], 3)
      ensures RouterOutcomes.Story(x, capability, old(View()), View(), end)
      decreases if capability.Ordinary? then 1 else 0
    {
      hide TryRoute;
      hide LedgerOk;
      hide EachSettledOnce;
      hide RouterOutcomes.Story;
      ghost var w := View();
      var a := Await();
      if !a.publicUrl {
        end := Failing(Failed("unsafe_request_url", false));
      } else {
        var routes := Routes(x, World(cursor, registry.health, ledger, trace), capability);
        if routes == [] {
          end := Unavailable("provider_unavailable");
        } else {
          end := WalkRoutes(capability, routes);
        }
      }
      RouterOutcomes.AcquireTells(x, w, capability);
      if LedgerOk(w.ledger) {
        AcquireSettlesEachAttemptOnce(x, w, View(), capability, end);
      }
    }

    method WalkRoutes(capability: Capability, routes: seq<Route>) returns (end: End)
      modifies this`cursor, this`ledger, this`trace, registry
      ensures (View(), end) == Walk(x, old(View()), capability, routes, None)
      decreases if capability.Ordinary? then 1 else 0, 0
    {
      hide TryRoute;
      hide LedgerOk;
      hide EachSettledOnce;
      var last: Option<Failed> := None;
      var i := 0;
      ghost var goal := Walk(x, View(), capability, routes, None);
      while i < |routes|
        invariant i <= |routes|
        invariant goal == Walk(x, View(), capability, routes[i..], last)
      {
        assert routes[i..][1..] == routes[i + 1..];
        var verdict := AttemptRoute(capability, routes[i], last);
        match verdict {
          case Leave(e) => return e;
          case Go(next) => last := next;
          case ToStatic(failure) =>
            if !capability.Ordinary? { return Failing(failure); }
            end := AcquirePage(StaticBlock);
            if end.Unavailable? && MayAskHuman(x) { end := HumanInput; }
            return end;
        }
        i := i + 1;
      }
      end := Exhausted(x, last);
    }
  }
}
