/**
  The crawl frontier: workers that share a queue, a visited set and a pending mirror, with
  checkpoints, process crashes and resume (app/crawler.py).  Every function between two await
  points of a worker is one atomic step.
 */
module FrontierModel {

  datatype Option<+T> = None | Some(value: T)

  type Url = string
  type Key = string

  /** norm is normalize_url, the identity under which pages are visited once. */
  datatype Config = Config(limit: int, maxDepth: int, norm: Url -> Key)

  datatype Entry = Entry(url: Url, depth: int)

  /** Where a worker is; Failing is between an exception and its error record. */
  datatype Worker = Idle | Got(entry: Entry) | Scraping(entry: Entry) | Failing(entry: Entry) | Recorded(entry: Entry)

  datatype Snapshot = Snapshot(visited: set<Key>, pending: seq<Entry>, results: seq<Url>, errors: seq<Url>)

  /** `unfinished` is the counter behind queue.join(); `disk` is the last checkpoint written. */
  datatype State = State(visited: set<Key>, pending: seq<Entry>, queue: seq<Entry>,
                         results: seq<Url>, errors: seq<Url>, workers: seq<Worker>,
                         unfinished: int, disk: Option<Snapshot>)

  datatype Event =
    | Get(w: nat)
    | Claim(w: nat)
    | Success(w: nat, links: seq<Url>)
    | ErrorResult(w: nat)
    | Raise(w: nat)
    | RaiseAfterResult(w: nat, links: seq<Url>)
    | RecordFailure(w: nat)
    | Finish(w: nat, write: bool)
    | CrashAndResume(write: bool)

  function Snap(s: State): Snapshot { Snapshot(s.visited, s.pending, s.results, s.errors) }

  function Checkpoint(s: State, write: bool): State { if write then s.(disk := Some(Snap(s))) else s }

  /** list.remove: the first equal entry, if there is one. */
  function RemoveFirst(pending: seq<Entry>, e: Entry): (r: seq<Entry>)
    ensures multiset(r) == multiset(pending) - multiset{e}
  {
    if pending == [] then []
    else if pending[0] == e then
      assert pending == [pending[0]] + pending[1..];
      pending[1..]
    else
      assert pending == [pending[0]] + pending[1..];
      [pending[0]] + RemoveFirst(pending[1..], e)
  }

  function Fresh(links: seq<Url>, depth: int, visited: set<Key>, norm: Url -> Key): seq<Entry> {
    if links == [] then []
    else (if norm(links[0]) in visited then [] else [Entry(links[0], depth)]) + Fresh(links[1..], depth, visited, norm)
  }

  function Discovered(cfg: Config, s: State, e: Entry, links: seq<Url>): seq<Entry> {
    if e.depth < cfg.maxDepth && |s.visited| < cfg.limit then Fresh(links, e.depth + 1, s.visited, cfg.norm) else []
  }

  function KeysOf(urls: seq<Url>, norm: Url -> Key): set<Key> {
    set i | 0 <= i < |urls| :: norm(urls[i])
  }

  /** A fresh crawl: the base page, then the sitemap seeds that are not the base page. */
  function Start(cfg: Config, base: Url, seeds: seq<Url>, workers: nat, write: bool): State {
    var pending := [Entry(base, 0)] + Fresh(seeds, 1, {cfg.norm(base)}, cfg.norm);
    Checkpoint(State({}, pending, pending, [], [], seq(workers, _ => Idle), |pending|, None), write)
  }

  /** Restore from disk and resume: unprocessed claims free their slots but are not queued again. */
  function Resume(cfg: Config, sn: Snapshot, workers: nat): State {
    var processed := KeysOf(sn.results, cfg.norm) + KeysOf(sn.errors, cfg.norm);
    State(sn.visited * processed, sn.pending, sn.pending, sn.results, sn.errors,
          seq(workers, _ => Idle), |sn.pending|, Some(sn))
  }

  predicate Enabled(s: State, ev: Event) {
    match ev
    case Get(w) => w < |s.workers| && s.workers[w].Idle? && s.queue != []
    case Claim(w) => w < |s.workers| && s.workers[w].Got?
    case Success(w, _) => w < |s.workers| && s.workers[w].Scraping?
    case ErrorResult(w) => w < |s.workers| && s.workers[w].Scraping?
    case Raise(w) => w < |s.workers| && s.workers[w].Scraping?
    case RaiseAfterResult(w, _) => w < |s.workers| && s.workers[w].Scraping?
    case RecordFailure(w) => w < |s.workers| && s.workers[w].Failing?
    case Finish(w, _) => w < |s.workers| && s.workers[w].Recorded?
    case CrashAndResume(_) => s.disk.Some?
  }

  function Move(s: State, w: nat, to: Worker): State
    requires w < |s.workers|
  {
    s.(workers := s.workers[w := to])
  }

  /** The page's result, and its links on the frontier: all of them, or those before an exception. */
  function Listed(cfg: Config, s: State, w: nat, links: seq<Url>): State
    requires w < |s.workers| && s.workers[w].Scraping?
  {
    var e := s.workers[w].entry;
    var found := Discovered(cfg, s, e, links);
    s.(results := s.results + [e.url], pending := s.pending + found, queue := s.queue + found,
       unfinished := s.unfinished + |found|)
  }

  function Step(cfg: Config, s: State, ev: Event): State
    requires Enabled(s, ev)
  {
    match ev
    case Get(w) => Move(s, w, Got(s.queue[0])).(queue := s.queue[1..])
    case Claim(w) =>
      var e := s.workers[w].entry;
      var s' := s.(pending := RemoveFirst(s.pending, e));
      if cfg.norm(e.url) in s.visited || |s.visited| >= cfg.limit
      then Move(s', w, Idle).(unfinished := s.unfinished - 1)
      else Move(s', w, Scraping(e)).(visited := s.visited + {cfg.norm(e.url)})
    case Success(w, links) => Move(Listed(cfg, s, w, links), w, Recorded(s.workers[w].entry))
    case ErrorResult(w) => Move(s, w, Recorded(s.workers[w].entry)).(errors := s.errors + [s.workers[w].entry.url])
    case Raise(w) => Move(s, w, Failing(s.workers[w].entry))
    case RaiseAfterResult(w, links) => Move(Listed(cfg, s, w, links), w, Failing(s.workers[w].entry))
    case RecordFailure(w) => Move(s, w, Recorded(s.workers[w].entry)).(errors := s.errors + [s.workers[w].entry.url])
    case Finish(w, write) => Checkpoint(Move(s, w, Idle), write).(unfinished := s.unfinished - 1)
    case CrashAndResume(write) => Checkpoint(Resume(cfg, s.disk.value, |s.workers|), write)
  }

  /** Any interleaving; an event that is not enabled does not happen. */
  function Run(cfg: Config, s: State, events: seq<Event>): State
    decreases |events|
  {
    if events == [] then s
    else Run(cfg, if Enabled(s, events[0]) then Step(cfg, s, events[0]) else s, events[1..])
  }
}

module FrontierProofs {
  import opened FrontierModel

  function Cap(cfg: Config): nat { if cfg.limit < 0 then 0 else cfg.limit }

  predicate DistinctKeys(urls: seq<Url>, norm: Url -> Key) {
    forall i, j :: 0 <= i < j < |urls| ==> norm(urls[i]) != norm(urls[j])
  }

  /** What both the live job and every checkpoint satisfy. */
  predicate JobOk(cfg: Config, visited: set<Key>, results: seq<Url>, errors: seq<Url>) {
    && |visited| <= Cap(cfg)
    && DistinctKeys(results, cfg.norm)
    && (forall i :: 0 <= i < |results| ==> cfg.norm(results[i]) in visited)
    && (forall i :: 0 <= i < |errors| ==> cfg.norm(errors[i]) in visited)
  }

  predicate SnapOk(cfg: Config, sn: Snapshot) { JobOk(cfg, sn.visited, sn.results, sn.errors) }

  /** A claimed page is in visited, held by one worker, and has no result yet. */
  predicate ClaimsOk(cfg: Config, s: State) {
    && (forall w :: 0 <= w < |s.workers| && !s.workers[w].Idle? && !s.workers[w].Got? ==>
          cfg.norm(s.workers[w].entry.url) in s.visited)
    && (forall w, i :: 0 <= w < |s.workers| && s.workers[w].Scraping? && 0 <= i < |s.results| ==>
          cfg.norm(s.results[i]) != cfg.norm(s.workers[w].entry.url))
    && (forall w, v :: 0 <= w < v < |s.workers| && s.workers[w].Scraping? && s.workers[v].Scraping? ==>
          cfg.norm(s.workers[w].entry.url) != cfg.norm(s.workers[v].entry.url))
  }

  function Held(w: Worker): multiset<Entry> { if w.Got? then multiset{w.entry} else multiset{} }

  function InHand(workers: seq<Worker>): multiset<Entry> {
    if workers == [] then multiset{} else Held(workers[0]) + InHand(workers[1..])
  }

  /** Number of workers whose item has not been reported done. */
  function Busy(workers: seq<Worker>): nat {
    if workers == [] then 0 else (if workers[0].Idle? then 0 else 1) + Busy(workers[1..])
  }

  /** The pending mirror is the queue plus what was taken off it but not yet claimed. */
  predicate MirrorOk(s: State) { multiset(s.pending) == multiset(s.queue) + InHand(s.workers) }

  /** Every queued or held item is owed exactly one task_done. */
  predicate DoneOk(s: State) { s.unfinished == |s.queue| + Busy(s.workers) }

  predicate Inv(cfg: Config, s: State) {
    && JobOk(cfg, s.visited, s.results, s.errors) && ClaimsOk(cfg, s) && MirrorOk(s) && DoneOk(s)
    && (s.disk.Some? ==> SnapOk(cfg, s.disk.value))
  }

  lemma {:induction false} InHandSplit(workers: seq<Worker>, w: nat)
    requires w < |workers|
    ensures InHand(workers) == InHand(workers[..w]) + InHand(workers[w + 1..]) + Held(workers[w])
  {
    hide Held;
    if w > 0 {
      InHandSplit(workers[1..], w - 1);
      assert workers[..w][1..] == workers[1..][..w - 1];
      assert workers[1..][w..] == workers[w + 1..];
    }
  }

  lemma {:induction false} BusySplit(workers: seq<Worker>, w: nat)
    requires w < |workers|
    ensures Busy(workers) == Busy(workers[..w]) + Busy(workers[w + 1..]) + if workers[w].Idle? then 0 else 1
  {
    if w > 0 {
      BusySplit(workers[1..], w - 1);
      assert workers[..w][1..] == workers[1..][..w - 1];
      assert workers[1..][w..] == workers[w + 1..];
    }
  }

  /** One worker moves between holding and not holding an unclaimed item. */
  lemma {:induction false} MoveWorker(workers: seq<Worker>, w: nat, to: Worker)
    requires w < |workers| && !(workers[w].Got? && to.Got?)
    ensures to.Got? ==> InHand(workers[w := to]) == InHand(workers) + multiset{to.entry}
    ensures workers[w].Got? ==> InHand(workers[w := to]) + multiset{workers[w].entry} == InHand(workers)
    ensures !to.Got? && !workers[w].Got? ==> InHand(workers[w := to]) == InHand(workers)
    ensures Busy(workers[w := to]) + (if workers[w].Idle? then 0 else 1) == Busy(workers) + (if to.Idle? then 0 else 1)
  {
    hide InHand;
    hide Busy;
    var moved := workers[w := to];
    InHandSplit(workers, w);
    InHandSplit(moved, w);
    BusySplit(workers, w);
    BusySplit(moved, w);
    assert moved[..w] == workers[..w] && moved[w + 1..] == workers[w + 1..];
  }

  lemma {:induction false} IdleWorkers(n: nat)
    ensures InHand(seq(n, _ => Idle)) == multiset{} && Busy(seq(n, _ => Idle)) == 0
  {
    if n > 0 {
      IdleWorkers(n - 1);
      assert seq(n, _ => Idle)[1..] == seq(n - 1, _ => Idle);
    }
  }

  lemma {:induction false} StartOk(cfg: Config, base: Url, seeds: seq<Url>, workers: nat, write: bool)
    ensures Inv(cfg, Start(cfg, base, seeds, workers, write))
  {
    IdleWorkers(workers);
  }

  lemma {:induction false} ResumeOk(cfg: Config, sn: Snapshot, workers: nat)
    requires SnapOk(cfg, sn)
    ensures Inv(cfg, Resume(cfg, sn, workers))
  {
    IdleWorkers(workers);
    var processed := KeysOf(sn.results, cfg.norm) + KeysOf(sn.errors, cfg.norm);
    SubsetSize(sn.visited * processed, sn.visited);
  }

  lemma {:induction false} SubsetSize<T>(a: set<T>, b: set<T>)
    requires a <= b
    ensures |a| <= |b|
  {
    assert b == a + (b - a);
  }

  // ---- every step keeps the invariant ---------------------------------------------------

  /** Claims after worker w moves on without touching visited. */
  lemma ClaimsMove(cfg: Config, s: State, w: nat, to: Worker, results: seq<Url>)
    requires w < |s.workers| && ClaimsOk(cfg, s)
    requires to.Scraping? ==> s.workers[w] == to
    requires !to.Idle? && !to.Got? ==> !s.workers[w].Idle? && !s.workers[w].Got? && to.entry == s.workers[w].entry
    requires results == s.results || (s.workers[w].Scraping? && results == s.results + [s.workers[w].entry.url])
    requires to.Scraping? ==> results == s.results
    ensures ClaimsOk(cfg, Move(s, w, to).(results := results))
  {
    var s' := Move(s, w, to).(results := results);
    forall v, i | 0 <= v < |s'.workers| && s'.workers[v].Scraping? && 0 <= i < |results|
      ensures cfg.norm(results[i]) != cfg.norm(s'.workers[v].entry.url)
    {
      if i == |s.results| {
        assert v != w;
      }
    }
  }

  lemma {:induction false} GetKeeps(cfg: Config, s: State, w: nat)
    requires Inv(cfg, s) && Enabled(s, Get(w))
    ensures Inv(cfg, Step(cfg, s, Get(w)))
  {
    hide InHand;
    hide Busy;
    hide JobOk;
    MoveWorker(s.workers, w, Got(s.queue[0]));
    ClaimsMove(cfg, s, w, Got(s.queue[0]), s.results);
    assert s.queue == [s.queue[0]] + s.queue[1..];
    var s' := Step(cfg, s, Get(w));
  }

  lemma {:induction false} ClaimKeeps(cfg: Config, s: State, w: nat)
    requires Inv(cfg, s) && Enabled(s, Claim(w))
    ensures Inv(cfg, Step(cfg, s, Claim(w)))
  {
    hide InHand;
    hide Busy;
    hide JobOk;
    hide ClaimsOk;
    hide MirrorOk;
    hide RemoveFirst;
    var s' := Step(cfg, s, Claim(w));
    MoveWorker(s.workers, w, s'.workers[w]);
    ClaimMirror(s, s', w);
    if cfg.norm(s.workers[w].entry.url) in s.visited || |s.visited| >= cfg.limit {
      ClaimsIgnoreRest(cfg, s, s', w);
    } else {
      NewClaim(cfg, s, s', w);
    }
  }

  lemma ClaimMirror(s: State, s': State, w: nat)
    requires MirrorOk(s) && w < |s.workers| && s.workers[w].Got? && w < |s'.workers| && !s'.workers[w].Got?
    requires s'.workers == s.workers[w := s'.workers[w]] && s'.queue == s.queue
    requires s'.pending == RemoveFirst(s.pending, s.workers[w].entry)
    ensures MirrorOk(s')
  {
    hide InHand;
    MoveWorker(s.workers, w, s'.workers[w]);
    TakeOne(multiset(s.pending), multiset(s.queue), InHand(s.workers), InHand(s'.workers), s.workers[w].entry);
  }

  lemma TakeOne(pending: multiset<Entry>, queue: multiset<Entry>, hand: multiset<Entry>, hand': multiset<Entry>, e: Entry)
    requires pending == queue + hand && hand' + multiset{e} == hand
    ensures pending - multiset{e} == queue + hand'
  {
  }

  lemma ClaimsIgnoreRest(cfg: Config, s: State, s': State, w: nat)
    requires w < |s.workers| && ClaimsOk(cfg, s)
    requires s'.visited == s.visited && s'.results == s.results && s'.workers == s.workers[w := Idle]
    ensures ClaimsOk(cfg, s')
  {
  }

  /** Claiming an unvisited page while there is room. */
  lemma NewClaim(cfg: Config, s: State, s': State, w: nat)
    requires JobOk(cfg, s.visited, s.results, s.errors) && ClaimsOk(cfg, s) && w < |s.workers| && s.workers[w].Got?
    requires cfg.norm(s.workers[w].entry.url) !in s.visited && |s.visited| < cfg.limit
    requires s'.visited == s.visited + {cfg.norm(s.workers[w].entry.url)}
    requires s'.results == s.results && s'.errors == s.errors
    requires s'.workers == s.workers[w := Scraping(s.workers[w].entry)]
    ensures JobOk(cfg, s'.visited, s'.results, s'.errors) && ClaimsOk(cfg, s')
  {
  }

  lemma {:induction false} RecordKeeps(cfg: Config, s: State, ev: Event)
    requires Inv(cfg, s) && Enabled(s, ev)
    requires ev.ErrorResult? || ev.Raise? || ev.RecordFailure? || ev.Finish?
    ensures Inv(cfg, Step(cfg, s, ev))
  {
    hide InHand;
    hide Busy;
    var to := if ev.Raise? then Failing(s.workers[ev.w].entry)
              else if ev.Finish? then Idle else Recorded(s.workers[ev.w].entry);
    MoveWorker(s.workers, ev.w, to);
    ClaimsMove(cfg, s, ev.w, to, s.results);
  }

  lemma {:induction false} ResultKeeps(cfg: Config, s: State, ev: Event)
    requires Inv(cfg, s) && Enabled(s, ev) && (ev.Success? || ev.RaiseAfterResult?)
    ensures Inv(cfg, Step(cfg, s, ev))
  {
    hide InHand;
    hide Busy;
    hide Discovered;
    hide JobOk;
    hide ClaimsOk;
    var e := s.workers[ev.w].entry;
    var to := if ev.Success? then Recorded(e) else Failing(e);
    MoveWorker(s.workers, ev.w, to);
    ResultOk(cfg, s, ev.w);
    ClaimsMove(cfg, s, ev.w, to, s.results + [e.url]);
    ClaimsIgnoreFrontier(cfg, Move(s, ev.w, to).(results := s.results + [e.url]), Step(cfg, s, ev));
    var found := Discovered(cfg, s, e, ev.links);
    assert multiset(s.pending + found) == multiset(s.pending) + multiset(found);
    assert multiset(s.queue + found) == multiset(s.queue) + multiset(found);
  }

  lemma ResultOk(cfg: Config, s: State, w: nat)
    requires JobOk(cfg, s.visited, s.results, s.errors) && ClaimsOk(cfg, s) && w < |s.workers| && s.workers[w].Scraping?
    ensures JobOk(cfg, s.visited, s.results + [s.workers[w].entry.url], s.errors)
  {
  }

  lemma ClaimsIgnoreFrontier(cfg: Config, s: State, s': State)
    requires ClaimsOk(cfg, s) && s'.visited == s.visited && s'.results == s.results && s'.workers == s.workers
    ensures ClaimsOk(cfg, s')
  {
  }

  /** Every atomic step of every worker, every checkpoint, crash and resume keeps the invariant. */
  lemma {:induction false} StepKeeps(cfg: Config, s: State, ev: Event)
    requires Inv(cfg, s) && Enabled(s, ev)
    ensures Inv(cfg, Step(cfg, s, ev))
  {
    match ev
    case Get(w) => GetKeeps(cfg, s, w);
    case Claim(w) => ClaimKeeps(cfg, s, w);
    case Success(_, _) => ResultKeeps(cfg, s, ev);
    case RaiseAfterResult(_, _) => ResultKeeps(cfg, s, ev);
    case CrashAndResume(write) => ResumeOk(cfg, s.disk.value, |s.workers|);
    case _ => RecordKeeps(cfg, s, ev);
  }

  lemma {:induction false} RunKeeps(cfg: Config, s: State, events: seq<Event>)
    requires Inv(cfg, s)
    ensures Inv(cfg, Run(cfg, s, events))
    decreases |events|
  {
    hide Inv;
    hide Step;
    if events != [] {
      if Enabled(s, events[0]) {
        StepKeeps(cfg, s, events[0]);
      }
      RunKeeps(cfg, if Enabled(s, events[0]) then Step(cfg, s, events[0]) else s, events[1..]);
    }
  }

  // ---- what the runs guarantee ----------------------------------------------------------

  lemma {:induction false} DistinctFit(urls: seq<Url>, norm: Url -> Key, keys: set<Key>)
    requires DistinctKeys(urls, norm) && forall i :: 0 <= i < |urls| ==> norm(urls[i]) in keys
    ensures |urls| <= |keys|
    decreases |urls|
  {
    if urls != [] {
      var n := |urls| - 1;
      DistinctFit(urls[..n], norm, keys - {norm(urls[n])});
    }
  }

  /**
    In every interleaving, with any number of crashes and resumes, visited never exceeds the limit,
    results hold each page at most once, and there are never more results than the limit.
   */
  lemma {:induction false} LimitAndUniqueness(cfg: Config, base: Url, seeds: seq<Url>, workers: nat, write: bool,
                                              events: seq<Event>)
    ensures var s := Run(cfg, Start(cfg, base, seeds, workers, write), events);
            && |s.visited| <= Cap(cfg)
            && DistinctKeys(s.results, cfg.norm)
            && |s.results| <= Cap(cfg)
            && (s.disk.Some? ==> |s.disk.value.results| <= Cap(cfg) && DistinctKeys(s.disk.value.results, cfg.norm))
  {
    var s0 := Start(cfg, base, seeds, workers, write);
    StartOk(cfg, base, seeds, workers, write);
    RunKeeps(cfg, s0, events);
    var s := Run(cfg, s0, events);
    DistinctFit(s.results, cfg.norm, s.visited);
    if s.disk.Some? {
      DistinctFit(s.disk.value.results, cfg.norm, s.disk.value.visited);
    }
  }

  /** A checkpoint written at any point of any run holds the queue and everything not yet claimed. */
  lemma {:induction false} CheckpointLosesNothing(cfg: Config, base: Url, seeds: seq<Url>, workers: nat, write: bool,
                                                  events: seq<Event>, w: nat)
    requires Enabled(Run(cfg, Start(cfg, base, seeds, workers, write), events), Finish(w, true))
    ensures var s := Run(cfg, Start(cfg, base, seeds, workers, write), events);
            multiset(Step(cfg, s, Finish(w, true)).disk.value.pending) == multiset(s.queue) + InHand(s.workers)
  {
    hide Run;
    hide Start;
    hide InHand;
    StartOk(cfg, base, seeds, workers, write);
    RunKeeps(cfg, Start(cfg, base, seeds, workers, write), events);
  }

  predicate Done(s: State) { s.unfinished == 0 }

  /** queue.join() returns exactly when nothing is queued and no worker holds an item. */
  lemma {:induction false} DoneIffDrained(cfg: Config, s: State)
    requires Inv(cfg, s)
    ensures Done(s) <==> s.queue == [] && forall w :: 0 <= w < |s.workers| ==> s.workers[w].Idle?
    ensures Done(s) ==> s.pending == []
  {
    BusyZero(s.workers);
    if Done(s) {
      AllIdleHoldNothing(s.workers);
      assert |multiset(s.pending)| == 0;
    }
  }

  lemma {:induction false} BusyZero(workers: seq<Worker>)
    ensures Busy(workers) == 0 <==> forall w :: 0 <= w < |workers| ==> workers[w].Idle?
  {
    if workers != [] {
      BusyZero(workers[1..]);
      assert forall w :: 1 <= w < |workers| ==> workers[w] == workers[1..][w - 1];
    }
  }

  lemma {:induction false} AllIdleHoldNothing(workers: seq<Worker>)
    requires forall w :: 0 <= w < |workers| ==> workers[w].Idle?
    ensures InHand(workers) == multiset{}
  {
    if workers != [] {
      AllIdleHoldNothing(workers[1..]);
    }
  }

  // ---- termination ----------------------------------------------------------------------

  function Weight(w: Worker): nat {
    match w
    case Idle => 0
    case Got(_) => 1
    case Scraping(_) => 0
    case Failing(_) => 2
    case Recorded(_) => 1
  }

  function Weights(workers: seq<Worker>): nat {
    if workers == [] then 0 else Weight(workers[0]) + Weights(workers[1..])
  }

  function InFlight(workers: seq<Worker>): nat {
    if workers == [] then 0 else (if workers[0].Scraping? then 1 else 0) + InFlight(workers[1..])
  }

  function Room(cfg: Config, s: State): nat {
    if |s.visited| <= Cap(cfg) then Cap(cfg) - |s.visited| else 0
  }

  function Left(s: State): nat { 2 * |s.queue| + Weights(s.workers) }

  lemma {:induction false} MoveWeight(workers: seq<Worker>, w: nat, to: Worker)
    requires w < |workers|
    ensures Weights(workers[w := to]) + Weight(workers[w]) == Weights(workers) + Weight(to)
    ensures InFlight(workers[w := to]) + (if workers[w].Scraping? then 1 else 0)
         == InFlight(workers) + (if to.Scraping? then 1 else 0)
  {
    if w > 0 {
      MoveWeight(workers[1..], w - 1, to);
      assert workers[w := to][0] == workers[0] && workers[1..][w - 1] == workers[w];
      assert workers[w := to][1..] == workers[1..][w - 1 := to];
    } else {
      assert workers[w := to][1..] == workers[1..];
    }
  }

  /** Between crashes every step decreases (limit - visited, pages in flight, queued and held items). */
  lemma {:induction false} StepDecreases(cfg: Config, s: State, ev: Event)
    requires Inv(cfg, s) && Enabled(s, ev) && !ev.CrashAndResume?
    ensures var s' := Step(cfg, s, ev);
            || Room(cfg, s') < Room(cfg, s)
            || (Room(cfg, s') == Room(cfg, s) && InFlight(s'.workers) < InFlight(s.workers))
            || (Room(cfg, s') == Room(cfg, s) && InFlight(s'.workers) == InFlight(s.workers) && Left(s') < Left(s))
  {
    hide Weights;
    hide InFlight;
    hide MirrorOk;
    hide DoneOk;
    hide ClaimsOk;
    hide SnapOk;
    hide DistinctKeys;
    hide RemoveFirst;
    hide Discovered;
    var s' := Step(cfg, s, ev);
    MoveWeight(s.workers, ev.w, s'.workers[ev.w]);
    assert s'.workers == s.workers[ev.w := s'.workers[ev.w]];
  }

  /** An event some worker can take whenever the queue is not yet joined. */
  function NextEvent(s: State, w: nat): Event
    requires w < |s.workers|
  {
    match s.workers[w]
    case Idle => Get(w)
    case Got(_) => Claim(w)
    case Scraping(_) => ErrorResult(w)
    case Failing(_) => RecordFailure(w)
    case Recorded(_) => Finish(w, true)
  }

  /** No deadlock: with at least one worker, an unfinished crawl always has an enabled step. */
  lemma {:induction false} NoDeadlock(cfg: Config, s: State) returns (w: nat)
    requires Inv(cfg, s) && !Done(s) && s.workers != []
    ensures w < |s.workers| && Enabled(s, NextEvent(s, w))
  {
    DoneIffDrained(cfg, s);
    if w' :| 0 <= w' < |s.workers| && !s.workers[w'].Idle? {
      w := w';
    } else {
      w := 0;
    }
  }

  /** From any reachable state the crawl can be driven to completion. */
  lemma {:induction false} ReachesDone(cfg: Config, s: State) returns (events: seq<Event>)
    requires Inv(cfg, s) && s.workers != []
    ensures Done(Run(cfg, s, events)) && Inv(cfg, Run(cfg, s, events))
    ensures forall i :: 0 <= i < |events| ==> !events[i].CrashAndResume?
    decreases Room(cfg, s), InFlight(s.workers), Left(s)
  {
    hide Inv;
    hide Step;
    if Done(s) {
      events := [];
    } else {
      var w := NoDeadlock(cfg, s);
      var ev := NextEvent(s, w);
      StepDecreases(cfg, s, ev);
      StepKeeps(cfg, s, ev);
      StepKeepsWorkers(cfg, s, ev);
      var rest := ReachesDone(cfg, Step(cfg, s, ev));
      events := [ev] + rest;
      assert events[1..] == rest;
    }
  }

  lemma StepKeepsWorkers(cfg: Config, s: State, ev: Event)
    requires Enabled(s, ev)
    ensures |Step(cfg, s, ev).workers| == |s.workers|
  {
  }

  // ---- pages that were in flight at a crash ---------------------------------------------

  predicate NoEntry(cfg: Config, entries: seq<Entry>, k: Key) {
    forall i :: 0 <= i < |entries| ==> cfg.norm(entries[i].url) != k
  }

  predicate NoUrl(cfg: Config, urls: seq<Url>, k: Key) {
    forall i :: 0 <= i < |urls| ==> cfg.norm(urls[i]) != k
  }

  /** Page k is neither visited nor anywhere on the frontier, now or in the checkpoint. */
  predicate Avoids(cfg: Config, s: State, k: Key) {
    && k !in s.visited && NoEntry(cfg, s.pending, k) && NoEntry(cfg, s.queue, k)
    && NoUrl(cfg, s.results, k) && NoUrl(cfg, s.errors, k)
    && (forall w :: 0 <= w < |s.workers| && !s.workers[w].Idle? ==> cfg.norm(s.workers[w].entry.url) != k)
    && (s.disk.Some? ==> NoEntry(cfg, s.disk.value.pending, k)
                         && NoUrl(cfg, s.disk.value.results, k) && NoUrl(cfg, s.disk.value.errors, k))
  }

  predicate Offers(cfg: Config, ev: Event, k: Key) {
    (ev.Success? || ev.RaiseAfterResult?) && !NoUrl(cfg, ev.links, k)
  }

  lemma {:induction false} FreshAvoids(cfg: Config, links: seq<Url>, depth: int, visited: set<Key>, k: Key)
    requires NoUrl(cfg, links, k)
    ensures NoEntry(cfg, Fresh(links, depth, visited, cfg.norm), k)
  {
    if links != [] {
      assert NoUrl(cfg, links[1..], k);
      FreshAvoids(cfg, links[1..], depth, visited, k);
    }
  }

  lemma {:induction false} RemoveFirstAvoids(cfg: Config, pending: seq<Entry>, e: Entry, k: Key)
    requires NoEntry(cfg, pending, k)
    ensures NoEntry(cfg, RemoveFirst(pending, e), k)
  {
    if pending != [] {
      assert NoEntry(cfg, pending[1..], k);
      RemoveFirstAvoids(cfg, pending[1..], e, k);
    }
  }

  lemma {:induction false} StepAvoids(cfg: Config, s: State, ev: Event, k: Key)
    requires Avoids(cfg, s, k) && Enabled(s, ev) && !Offers(cfg, ev, k)
    ensures Avoids(cfg, Step(cfg, s, ev), k)
  {
    if ev.Claim? {
      RemoveFirstAvoids(cfg, s.pending, s.workers[ev.w].entry, k);
    }
    if ev.Success? || ev.RaiseAfterResult? {
      FreshAvoids(cfg, ev.links, s.workers[ev.w].entry.depth + 1, s.visited, k);
    }
  }

  /**
    No crash loop: a page that was claimed but not processed when the checkpoint was written, and
    that the checkpointed frontier does not list again, is never visited after the resume, through
    any further crashes, until some page links to it.
   */
  lemma {:induction false} InFlightPageIsSkipped(cfg: Config, sn: Snapshot, workers: nat, events: seq<Event>, k: Key)
    requires NoUrl(cfg, sn.results, k) && NoUrl(cfg, sn.errors, k) && NoEntry(cfg, sn.pending, k)
    requires forall i :: 0 <= i < |events| ==> !Offers(cfg, events[i], k)
    ensures var s := Run(cfg, Resume(cfg, sn, workers), events);
            k !in s.visited && NoUrl(cfg, s.results, k)
  {
    RunAvoids(cfg, Resume(cfg, sn, workers), events, k);
  }

  lemma {:induction false} RunAvoids(cfg: Config, s: State, events: seq<Event>, k: Key)
    requires Avoids(cfg, s, k)
    requires forall i :: 0 <= i < |events| ==> !Offers(cfg, events[i], k)
    ensures Avoids(cfg, Run(cfg, s, events), k)
    decreases |events|
  {
    hide Avoids;
    hide Step;
    if events != [] {
      if Enabled(s, events[0]) {
        StepAvoids(cfg, s, events[0], k);
      }
      RunAvoids(cfg, if Enabled(s, events[0]) then Step(cfg, s, events[0]) else s, events[1..], k);
    }
  }

  // ---- exactly which of them are retried ------------------------------------------------

  /** Page k is visited, or can no longer be, or waits in the queue or in the hands of a worker. */
  predicate Coming(cfg: Config, s: State, k: Key) {
    || k in s.visited || |s.visited| >= cfg.limit || !NoEntry(cfg, s.queue, k)
    || exists w :: 0 <= w < |s.workers| && s.workers[w].Got? && cfg.norm(s.workers[w].entry.url) == k
  }

  lemma StepComing(cfg: Config, s: State, ev: Event, k: Key)
    requires Coming(cfg, s, k) && Enabled(s, ev) && !ev.CrashAndResume?
    ensures Coming(cfg, Step(cfg, s, ev), k)
  {
    hide RemoveFirst;
    hide Discovered;
    var s1 := Step(cfg, s, ev);
    if i :| 0 <= i < |s.queue| && cfg.norm(s.queue[i].url) == k {
      if ev.Get? {
        assert i > 0 ==> s1.queue[i - 1] == s.queue[i];
        assert i == 0 ==> s1.workers[ev.w].Got? && s1.workers[ev.w].entry == s.queue[0];
      } else {
        assert s1.queue[i] == s.queue[i];
      }
    } else if w :| 0 <= w < |s.workers| && s.workers[w].Got? && cfg.norm(s.workers[w].entry.url) == k {
      assert ev.w != w ==> s1.workers[w] == s.workers[w];
    }
  }

  lemma {:induction false} RunComing(cfg: Config, s: State, events: seq<Event>, k: Key)
    requires Coming(cfg, s, k) && forall i :: 0 <= i < |events| ==> !events[i].CrashAndResume?
    ensures Coming(cfg, Run(cfg, s, events), k)
    decreases |events|
  {
    hide Coming;
    hide Step;
    if events != [] {
      if Enabled(s, events[0]) {
        StepComing(cfg, s, events[0], k);
      }
      RunComing(cfg, if Enabled(s, events[0]) then Step(cfg, s, events[0]) else s, events[1..], k);
    }
  }

  /**
    A page that was in flight at the crash is visited again by the resumed crawl, if no page links to it and
    the crawl ends below its limit, exactly when the checkpointed frontier still lists it.
   */
  lemma {:induction false} RetriedIffListed(cfg: Config, sn: Snapshot, workers: nat, events: seq<Event>, k: Key)
    requires SnapOk(cfg, sn) && NoUrl(cfg, sn.results, k) && NoUrl(cfg, sn.errors, k)
    requires forall i :: 0 <= i < |events| ==> !events[i].CrashAndResume? && !Offers(cfg, events[i], k)
    requires var s := Run(cfg, Resume(cfg, sn, workers), events); Done(s) && |s.visited| < cfg.limit
    ensures k in Run(cfg, Resume(cfg, sn, workers), events).visited <==> !NoEntry(cfg, sn.pending, k)
  {
    hide Run;
    hide Inv;
    var s := Run(cfg, Resume(cfg, sn, workers), events);
    if NoEntry(cfg, sn.pending, k) {
      InFlightPageIsSkipped(cfg, sn, workers, events, k);
    } else {
      RunComing(cfg, Resume(cfg, sn, workers), events, k);
      ResumeOk(cfg, sn, workers);
      RunKeeps(cfg, Resume(cfg, sn, workers), events);
      DoneIffDrained(cfg, s);
    }
  }

  /** The frontier can list one page twice: links are filtered by what is visited, not by each other. */
  lemma {:induction false} FrontierMayRepeat(u: Url, v: Url, depth: int, visited: set<Key>, norm: Url -> Key)
    requires norm(u) == norm(v) && norm(u) !in visited
    ensures Fresh([u, v], depth, visited, norm) == [Entry(u, depth), Entry(v, depth)]
  {
    assert [u, v][1..] == [v] && [v][1..] == [];
    assert Fresh([v], depth, visited, norm) == [Entry(v, depth)];
  }

  // ---- a page in flight that the checkpoint lists, from the start of a crawl ---------------

  lemma {:induction false} RunJoin(cfg: Config, s: State, a: seq<Event>, b: seq<Event>)
    ensures Run(cfg, s, a + b) == Run(cfg, Run(cfg, s, a), b)
    decreases |a|
  {
    hide Step;
    if a == [] {
      assert a + b == b;
    } else {
      assert (a + b)[1..] == a[1..] + b;
      RunJoin(cfg, if Enabled(s, a[0]) then Step(cfg, s, a[0]) else s, a[1..], b);
    }
  }

  lemma RunThree(cfg: Config, s: State, a: Event, b: Event, c: Event)
    requires Enabled(s, a) && Enabled(Step(cfg, s, a), b) && Enabled(Step(cfg, Step(cfg, s, a), b), c)
    ensures Run(cfg, s, [a, b, c]) == Step(cfg, Step(cfg, Step(cfg, s, a), b), c)
  {
    hide Step;
    hide Enabled;
    var s1 := Step(cfg, s, a);
    var s2 := Step(cfg, s1, b);
    assert [a, b, c][1..] == [b, c] && [b, c][1..] == [c] && [c][1..] == [];
    assert Run(cfg, s1, [b, c]) == Run(cfg, s2, [c]);
    assert Run(cfg, s2, [c]) == Run(cfg, Step(cfg, s2, c), []);
  }

  /** Two workers and a page `b` that links to `u`, to `x`, and to `u` once more as `v`. */
  predicate Twice(cfg: Config, b: Url, u: Url, x: Url, v: Url) {
    && cfg.limit >= 3 && cfg.maxDepth >= 1 && cfg.norm(u) == cfg.norm(v)
    && cfg.norm(b) != cfg.norm(u) && cfg.norm(b) != cfg.norm(x) && cfg.norm(u) != cfg.norm(x)
  }

  function FirstPage(b: Url, u: Url, x: Url, v: Url): seq<Event> { [Get(0), Claim(0), Success(0, [u, x, v])] }

  function TwoClaims(): seq<Event> { [Finish(0, false), Get(0), Claim(0)] + [Get(1), Claim(1), Success(1, [])] }

  function Scraped(cfg: Config, b: Url, u: Url, x: Url, v: Url): State {
    var found := [Entry(u, 1), Entry(x, 1), Entry(v, 1)];
    State({cfg.norm(b)}, found, found, [b], [], [Recorded(Entry(b, 0)), Idle], 4, Some(Snapshot({}, [Entry(b, 0)], [], [])))
  }

  lemma LinksFound(cfg: Config, b: Url, u: Url, x: Url, v: Url)
    requires Twice(cfg, b, u, x, v)
    ensures Fresh([u, x, v], 1, {cfg.norm(b)}, cfg.norm) == [Entry(u, 1), Entry(x, 1), Entry(v, 1)]
  {
    assert [u, x, v][1..] == [x, v] && [x, v][1..] == [v] && [v][1..] == [];
    assert Fresh([v], 1, {cfg.norm(b)}, cfg.norm) == [Entry(v, 1)];
    assert Fresh([x, v], 1, {cfg.norm(b)}, cfg.norm) == [Entry(x, 1), Entry(v, 1)];
  }

  lemma Started(cfg: Config, b: Url)
    ensures Start(cfg, b, [], 2, true)
            == State({}, [Entry(b, 0)], [Entry(b, 0)], [], [], [Idle, Idle], 1, Some(Snapshot({}, [Entry(b, 0)], [], [])))
  {
    assert Fresh([], 1, {cfg.norm(b)}, cfg.norm) == [];
    assert [Entry(b, 0)] + [] == [Entry(b, 0)];
    assert seq(2, _ => Idle) == [Idle, Idle];
  }

  lemma FirstPageRuns(cfg: Config, b: Url, u: Url, x: Url, v: Url)
    requires Twice(cfg, b, u, x, v)
    ensures Run(cfg, Start(cfg, b, [], 2, true), FirstPage(b, u, x, v)) == Scraped(cfg, b, u, x, v)
  {
    hide Run;
    hide Start;
    hide Fresh;
    Started(cfg, b);
    var s0 := Start(cfg, b, [], 2, true);
    var s1 := s0.(queue := [], workers := [Got(Entry(b, 0)), Idle]);
    assert Step(cfg, s0, Get(0)) == s1;
    var s2 := s1.(pending := [], visited := {cfg.norm(b)}, workers := [Scraping(Entry(b, 0)), Idle]);
    assert Step(cfg, s1, Claim(0)) == s2;
    LinksFound(cfg, b, u, x, v);
    assert Step(cfg, s2, Success(0, [u, x, v])) == Scraped(cfg, b, u, x, v);
    RunThree(cfg, s0, Get(0), Claim(0), Success(0, [u, x, v]));
  }

  function BothInFlight(cfg: Config, b: Url, u: Url, x: Url, v: Url): State {
    var s := Scraped(cfg, b, u, x, v);
    s.(visited := {cfg.norm(b), cfg.norm(u), cfg.norm(x)}, pending := [Entry(v, 1)], queue := [Entry(v, 1)], results := [b, x],
       workers := [Scraping(Entry(u, 1)), Recorded(Entry(x, 1))], unfinished := 3)
  }

  function OneInFlight(cfg: Config, b: Url, u: Url, x: Url, v: Url): State {
    Scraped(cfg, b, u, x, v).(visited := {cfg.norm(b), cfg.norm(u)}, pending := [Entry(x, 1), Entry(v, 1)],
                              queue := [Entry(x, 1), Entry(v, 1)], workers := [Scraping(Entry(u, 1)), Idle], unfinished := 3)
  }

  lemma GetTakes(cfg: Config, s: State, w: nat, e: Entry, rest: seq<Entry>)
    requires w < |s.workers| && s.workers[w].Idle? && s.queue == [e] + rest
    ensures Enabled(s, Get(w)) && Step(cfg, s, Get(w)) == s.(queue := rest, workers := s.workers[w := Got(e)])
  {
  }

  lemma ClaimTakes(cfg: Config, s: State, w: nat, e: Entry, rest: seq<Entry>)
    requires w < |s.workers| && s.workers[w] == Got(e) && s.pending == [e] + rest
    requires cfg.norm(e.url) !in s.visited && |s.visited| < cfg.limit
    ensures Enabled(s, Claim(w))
    ensures Step(cfg, s, Claim(w))
            == s.(pending := rest, visited := s.visited + {cfg.norm(e.url)}, workers := s.workers[w := Scraping(e)])
  {
    assert RemoveFirst(s.pending, e) == rest;
  }

  lemma FirstClaimRuns(cfg: Config, b: Url, u: Url, x: Url, v: Url)
    requires Twice(cfg, b, u, x, v)
    ensures Run(cfg, Scraped(cfg, b, u, x, v), [Finish(0, false), Get(0), Claim(0)]) == OneInFlight(cfg, b, u, x, v)
  {
    hide Run;
    hide Step;
    hide Enabled;
    var s0 := Scraped(cfg, b, u, x, v);
    var s1 := s0.(workers := [Idle, Idle], unfinished := 3);
    FinishFrees(cfg, s0, 0);
    assert s0.workers[0 := Idle] == [Idle, Idle];
    assert Step(cfg, s0, Finish(0, false)) == s1;
    var s2 := s1.(queue := [Entry(x, 1), Entry(v, 1)], workers := [Got(Entry(u, 1)), Idle]);
    GetTakes(cfg, s1, 0, Entry(u, 1), [Entry(x, 1), Entry(v, 1)]);
    assert Step(cfg, s1, Get(0)) == s2;
    ClaimTakes(cfg, s2, 0, Entry(u, 1), [Entry(x, 1), Entry(v, 1)]);
    assert s2.visited + {cfg.norm(u)} == {cfg.norm(b), cfg.norm(u)};
    assert Step(cfg, s2, Claim(0)) == OneInFlight(cfg, b, u, x, v);
    RunThree(cfg, s0, Finish(0, false), Get(0), Claim(0));
  }

  lemma FinishFrees(cfg: Config, s: State, w: nat)
    requires w < |s.workers| && s.workers[w].Recorded?
    ensures Enabled(s, Finish(w, false))
    ensures Step(cfg, s, Finish(w, false)) == s.(workers := s.workers[w := Idle], unfinished := s.unfinished - 1)
  {
  }

  lemma SecondClaimRuns(cfg: Config, b: Url, u: Url, x: Url, v: Url)
    requires Twice(cfg, b, u, x, v)
    ensures Run(cfg, OneInFlight(cfg, b, u, x, v), [Get(1), Claim(1), Success(1, [])]) == BothInFlight(cfg, b, u, x, v)
  {
    hide Run;
    var s0 := OneInFlight(cfg, b, u, x, v);
    var s1 := s0.(queue := [Entry(v, 1)], workers := [Scraping(Entry(u, 1)), Got(Entry(x, 1))]);
    assert Step(cfg, s0, Get(1)) == s1;
    assert RemoveFirst(s1.pending, Entry(x, 1)) == [Entry(v, 1)];
    var s2 := s1.(pending := [Entry(v, 1)], visited := {cfg.norm(b), cfg.norm(u), cfg.norm(x)},
                  workers := [Scraping(Entry(u, 1)), Scraping(Entry(x, 1))]);
    assert Step(cfg, s1, Claim(1)) == s2;
    assert Step(cfg, s2, Success(1, [])) == BothInFlight(cfg, b, u, x, v);
    RunThree(cfg, s0, Get(1), Claim(1), Success(1, []));
  }

  /**
    Such a checkpoint is reachable from the start of a crawl: the base page links to one page under two
    urls; the first is in flight when the other worker's page is checkpointed, and the second is still listed.
   */
  lemma {:induction false} InFlightAndListed(cfg: Config, b: Url, u: Url, x: Url, v: Url)
    requires Twice(cfg, b, u, x, v)
    ensures var s := Run(cfg, Start(cfg, b, [], 2, true), FirstPage(b, u, x, v) + TwoClaims() + [Finish(1, true)]);
            && s.disk == Some(Snapshot({cfg.norm(b), cfg.norm(u), cfg.norm(x)}, [Entry(v, 1)], [b, x], []))
            && s.workers == [Scraping(Entry(u, 1)), Idle]
            && InFlightIn(cfg, s.disk.value, cfg.norm(u)) && !NoEntry(cfg, s.disk.value.pending, cfg.norm(u))
  {
    hide Start;
    hide Scraped;
    hide OneInFlight;
    hide Run;
    FirstPageRuns(cfg, b, u, x, v);
    FirstClaimRuns(cfg, b, u, x, v);
    SecondClaimRuns(cfg, b, u, x, v);
    var s0, s1 := Start(cfg, b, [], 2, true), Scraped(cfg, b, u, x, v);
    RunJoin(cfg, s1, [Finish(0, false), Get(0), Claim(0)], [Get(1), Claim(1), Success(1, [])]);
    RunJoin(cfg, s0, FirstPage(b, u, x, v), TwoClaims());
    RunJoin(cfg, s0, FirstPage(b, u, x, v) + TwoClaims(), [Finish(1, true)]);
    LastFinishRuns(cfg, b, u, x, v);
  }

  /** The checkpoint has page k claimed and neither scraped nor in error. */
  predicate InFlightIn(cfg: Config, sn: Snapshot, k: Key) {
    SnapOk(cfg, sn) && k in sn.visited && NoUrl(cfg, sn.results, k) && NoUrl(cfg, sn.errors, k)
  }

  lemma LastFinishRuns(cfg: Config, b: Url, u: Url, x: Url, v: Url)
    requires Twice(cfg, b, u, x, v)
    ensures var s := Run(cfg, BothInFlight(cfg, b, u, x, v), [Finish(1, true)]);
            && s.disk == Some(Snapshot({cfg.norm(b), cfg.norm(u), cfg.norm(x)}, [Entry(v, 1)], [b, x], []))
            && s.workers == [Scraping(Entry(u, 1)), Idle]
            && InFlightIn(cfg, s.disk.value, cfg.norm(u)) && !NoEntry(cfg, s.disk.value.pending, cfg.norm(u))
  {
    var s2 := BothInFlight(cfg, b, u, x, v);
    assert [Finish(1, true)][1..] == [];
    assert Run(cfg, s2, [Finish(1, true)]) == Run(cfg, Step(cfg, s2, Finish(1, true)), []);
    var sn := Step(cfg, s2, Finish(1, true)).disk.value;
    assert sn.pending[0] == Entry(v, 1);
    assert |sn.visited| == 3;
  }
}

/** The same protocol as the crawler writes it: a job object that its workers update in place. */
module CrawlJob {
  import opened FrontierModel
  import opened FrontierProofs
  import FrontierCoverage

  /** The loop over sitemap seeds or page links: keep those whose page is not in `visited`. */
  method KeepFresh(urls: seq<Url>, depth: int, visited: set<Key>, norm: Url -> Key) returns (found: seq<Entry>)
    ensures found == Fresh(urls, depth, visited, norm)
  {
    hide Fresh;
    found := [];
    FreshNone(depth, visited, norm);
    for i := 0 to |urls|
      invariant found == Fresh(urls[..i], depth, visited, norm)
    {
      FreshAppend(urls[..i], urls[i], depth, visited, norm);
      assert urls[..i + 1] == urls[..i] + [urls[i]];
      if norm(urls[i]) !in visited {
        found := found + [Entry(urls[i], depth)];
      }
    }
    assert urls[..|urls|] == urls;
  }

  lemma FreshNone(depth: int, visited: set<Key>, norm: Url -> Key)
    ensures Fresh([], depth, visited, norm) == []
  {
  }

  lemma {:induction false} FreshAppend(urls: seq<Url>, u: Url, depth: int, visited: set<Key>, norm: Url -> Key)
    ensures Fresh(urls + [u], depth, visited, norm) ==
            if norm(u) in visited then Fresh(urls, depth, visited, norm)
            else Fresh(urls, depth, visited, norm) + [Entry(u, depth)]
  {
    if urls == [] {
      assert urls + [u] == [u] && [u][1..] == [];
    } else {
      FreshAppend(urls[1..], u, depth, visited, norm);
      assert (urls + [u])[1..] == urls[1..] + [u];
    }
  }

  class Job {
    const cfg: Config
    var visited: set<Key>
    var pending: seq<Entry>
    var queue: seq<Entry>
    var results: seq<Url>
    var errors: seq<Url>
    var workers: seq<Worker>
    var unfinished: int
    var disk: Option<Snapshot>

    ghost function View(): State
      reads this
    {
      State(visited, pending, queue, results, errors, workers, unfinished, disk)
    }

    /** run_crawl on a fresh job: base page, sitemap seeds, queue, first checkpoint. */
    constructor (cfg: Config, base: Url, seeds: seq<Url>, workerCount: nat, write: bool)
      ensures this.cfg == cfg && View() == Start(cfg, base, seeds, workerCount, write) && Inv(cfg, View())
    {
      hide Inv;
      hide Fresh;
      this.cfg := cfg;
      visited, results, errors, disk := {}, [], [], None;
      workers := seq(workerCount, _ => Idle);
      pending, queue, unfinished := [Entry(base, 0)], [], 0;
      new;
      var seeded := KeepFresh(seeds, 1, {cfg.norm(base)}, cfg.norm);
      pending := pending + seeded;
      queue, unfinished := pending, |pending|;
      WriteCheckpoint(write);
      StartOk(cfg, base, seeds, workerCount, write);
    }

    method WriteCheckpoint(write: bool)
      modifies this`disk
      ensures View() == Checkpoint(old(View()), write)
    {
      if write {
        disk := Some(Snapshot(visited, pending, results, errors));
      }
    }

    method Get(w: nat)
      requires Inv(cfg, View()) && Enabled(View(), Event.Get(w))
      modifies this`queue, this`workers
      ensures View() == Step(cfg, old(View()), Event.Get(w)) && Inv(cfg, View())
    {
      StepKeeps(cfg, View(), Event.Get(w));
      workers := workers[w := Got(queue[0])];
      queue := queue[1..];
    }

    /** The locked claim: off the pending mirror, then either skipped or into visited. */
    method Claim(w: nat)
      requires Inv(cfg, View()) && Enabled(View(), Event.Claim(w))
      modifies this`pending, this`visited, this`workers, this`unfinished
      ensures View() == Step(cfg, old(View()), Event.Claim(w)) && Inv(cfg, View())
    {
      hide Inv;
      hide RemoveFirst;
      StepKeeps(cfg, View(), Event.Claim(w));
      var e := workers[w].entry;
      var normalized := cfg.norm(e.url);
      pending := RemoveFirst(pending, e);
      if normalized in visited || |visited| >= cfg.limit {
        unfinished := unfinished - 1;
        workers := workers[w := Idle];
      } else {
        visited := visited + {normalized};
        workers := workers[w := Scraping(e)];
      }
    }

    /** A page that scraped: record it, then queue its unvisited links if depth and limit allow. */
    method RecordSuccess(w: nat, links: seq<Url>)
      requires Inv(cfg, View()) && Enabled(View(), Event.Success(w, links))
      modifies this`results, this`pending, this`queue, this`unfinished, this`workers
      ensures View() == Step(cfg, old(View()), Event.Success(w, links)) && Inv(cfg, View())
      ensures FrontierCoverage.ListsLinks(cfg, old(View()), View(), old(workers)[w].entry, links)
    {
      hide Inv;
      hide FrontierCoverage.ListsLinks;
      StepKeeps(cfg, View(), Event.Success(w, links));
      FrontierCoverage.RecordingLists(cfg, View(), Event.Success(w, links));
      var e := workers[w].entry;
      results := results + [e.url];
      if e.depth < cfg.maxDepth && |visited| < cfg.limit {
        var found := KeepFresh(links, e.depth + 1, visited, cfg.norm);
        pending := pending + found;
        queue := queue + found;
        unfinished := unfinished + |found|;
      }
      workers := workers[w := Recorded(e)];
    }

    method RecordError(w: nat, raised: bool)
      requires Inv(cfg, View())
      requires Enabled(View(), if raised then Event.RecordFailure(w) else Event.ErrorResult(w))
      modifies this`errors, this`workers
      ensures View() == Step(cfg, old(View()), if raised then Event.RecordFailure(w) else Event.ErrorResult(w))
      ensures Inv(cfg, View())
    {
      hide Inv;
      StepKeeps(cfg, View(), if raised then Event.RecordFailure(w) else Event.ErrorResult(w));
      errors := errors + [workers[w].entry.url];
      workers := workers[w := Recorded(workers[w].entry)];
    }

    /** The finally block: one durability point per page, then task_done. */
    method Finish(w: nat, write: bool)
      requires Inv(cfg, View()) && Enabled(View(), Event.Finish(w, write))
      modifies this`disk, this`workers, this`unfinished
      ensures View() == Step(cfg, old(View()), Event.Finish(w, write)) && Inv(cfg, View())
    {
      hide Inv;
      StepKeeps(cfg, View(), Event.Finish(w, write));
      WriteCheckpoint(write);
      unfinished := unfinished - 1;
      workers := workers[w := Idle];
    }

    /** The process dies; restore_from_checkpoints and resume_crawl rebuild the job from disk. */
    method CrashAndResume(write: bool)
      requires Inv(cfg, View()) && disk.Some?
      modifies this
      ensures View() == Step(cfg, old(View()), Event.CrashAndResume(write)) && Inv(cfg, View())
    {
      hide Inv;
      StepKeeps(cfg, View(), Event.CrashAndResume(write));
      var sn := disk.value;
      results, errors, pending := sn.results, sn.errors, sn.pending;
      var processed := KeysOf(results, cfg.norm) + KeysOf(errors, cfg.norm);
      visited := sn.visited * processed;
      queue, unfinished := pending, |pending|;
      workers := seq(|workers|, _ => Idle);
      WriteCheckpoint(write);
    }
  }
}
