/**
  How far a crawl goes: no entry lies deeper than the depth limit, no link within the limits is lost, and at the end
  every page that was visited has its result or its error.
 */
module FrontierCoverage {
  import opened FrontierModel
  import opened FrontierProofs

  // ---- depth --------------------------------------------------------------------------------

  /** The base page at depth 0, a sitemap seed at depth 1, or a link no deeper than the limit. */
  predicate Shallow(cfg: Config, base: Url, seeds: seq<Url>, e: Entry) {
    || e == Entry(base, 0)
    || (e.depth == 1 && e.url in seeds)
    || 1 <= e.depth <= cfg.maxDepth
  }

  ghost predicate AllShallow(cfg: Config, base: Url, seeds: seq<Url>, entries: seq<Entry>) {
    forall i :: 0 <= i < |entries| ==> Shallow(cfg, base, seeds, entries[i])
  }

  ghost predicate WorkersShallow(cfg: Config, base: Url, seeds: seq<Url>, workers: seq<Worker>) {
    forall w :: 0 <= w < |workers| && !workers[w].Idle? ==> Shallow(cfg, base, seeds, workers[w].entry)
  }

  /** So is everything queued, mirrored, checkpointed or in the hands of a worker. */
  ghost predicate DepthOk(cfg: Config, base: Url, seeds: seq<Url>, s: State) {
    && AllShallow(cfg, base, seeds, s.queue) && AllShallow(cfg, base, seeds, s.pending)
    && WorkersShallow(cfg, base, seeds, s.workers)
    && (s.disk.Some? ==> AllShallow(cfg, base, seeds, s.disk.value.pending))
  }

  /** What a list of links adds: those whose page is not visited, all of them, at the given depth. */
  lemma {:induction false} FreshExactly(links: seq<Url>, depth: int, visited: set<Key>, norm: Url -> Key, e: Entry)
    ensures e in Fresh(links, depth, visited, norm) <==> e.depth == depth && e.url in links && norm(e.url) !in visited
  {
    if links != [] {
      FreshExactly(links[1..], depth, visited, norm, e);
      assert links == [links[0]] + links[1..];
    }
  }

  lemma FreshShallow(cfg: Config, base: Url, seeds: seq<Url>, links: seq<Url>, depth: int, visited: set<Key>)
    requires (depth == 1 && links == seeds) || 1 <= depth <= cfg.maxDepth
    ensures AllShallow(cfg, base, seeds, Fresh(links, depth, visited, cfg.norm))
  {
    var found := Fresh(links, depth, visited, cfg.norm);
    forall i | 0 <= i < |found| ensures Shallow(cfg, base, seeds, found[i]) {
      FreshExactly(links, depth, visited, cfg.norm, found[i]);
    }
  }

  lemma ShallowJoin(cfg: Config, base: Url, seeds: seq<Url>, a: seq<Entry>, b: seq<Entry>)
    requires AllShallow(cfg, base, seeds, a) && AllShallow(cfg, base, seeds, b)
    ensures AllShallow(cfg, base, seeds, a + b)
  {
  }

  lemma {:induction false} RemoveShallow(cfg: Config, base: Url, seeds: seq<Url>, pending: seq<Entry>, e: Entry)
    requires AllShallow(cfg, base, seeds, pending)
    ensures AllShallow(cfg, base, seeds, RemoveFirst(pending, e))
  {
    hide Shallow;
    if pending != [] && pending[0] != e {
      RemoveShallow(cfg, base, seeds, pending[1..], e);
    }
  }

  lemma StartShallow(cfg: Config, base: Url, seeds: seq<Url>, workers: nat, write: bool)
    ensures DepthOk(cfg, base, seeds, Start(cfg, base, seeds, workers, write))
  {
    hide Fresh;
    FreshShallow(cfg, base, seeds, seeds, 1, {cfg.norm(base)});
    ShallowJoin(cfg, base, seeds, [Entry(base, 0)], Fresh(seeds, 1, {cfg.norm(base)}, cfg.norm));
  }

  lemma StepShallow(cfg: Config, base: Url, seeds: seq<Url>, s: State, ev: Event)
    requires DepthOk(cfg, base, seeds, s) && Enabled(s, ev)
    ensures DepthOk(cfg, base, seeds, Step(cfg, s, ev))
  {
    hide Fresh;
    hide RemoveFirst;
    if ev.Claim? {
      RemoveShallow(cfg, base, seeds, s.pending, s.workers[ev.w].entry);
    } else if ev.Success? || ev.RaiseAfterResult? {
      ListedShallow(cfg, base, seeds, s, ev.w, ev.links);
    }
  }

  lemma ListedShallow(cfg: Config, base: Url, seeds: seq<Url>, s: State, w: nat, links: seq<Url>)
    requires DepthOk(cfg, base, seeds, s) && w < |s.workers| && s.workers[w].Scraping?
    ensures AllShallow(cfg, base, seeds, Listed(cfg, s, w, links).queue)
    ensures AllShallow(cfg, base, seeds, Listed(cfg, s, w, links).pending)
  {
    hide Fresh;
    var e := s.workers[w].entry;
    if e.depth < cfg.maxDepth && |s.visited| < cfg.limit {
      FreshShallow(cfg, base, seeds, links, e.depth + 1, s.visited);
    }
    ShallowJoin(cfg, base, seeds, s.queue, Discovered(cfg, s, e, links));
    ShallowJoin(cfg, base, seeds, s.pending, Discovered(cfg, s, e, links));
  }

  lemma {:induction false} RunShallow(cfg: Config, base: Url, seeds: seq<Url>, s: State, events: seq<Event>)
    requires DepthOk(cfg, base, seeds, s)
    ensures DepthOk(cfg, base, seeds, Run(cfg, s, events))
    decreases |events|
  {
    hide DepthOk;
    hide Step;
    if events != [] {
      if Enabled(s, events[0]) {
        StepShallow(cfg, base, seeds, s, events[0]);
      }
      RunShallow(cfg, base, seeds, if Enabled(s, events[0]) then Step(cfg, s, events[0]) else s, events[1..]);
    }
  }

  /**
    In every run, crashes and restarts included, whatever is queued, mirrored, checkpointed or in the hands of a
    worker lies between depth 0 and the depth limit; beyond it lie at most the base page at depth 0 and the seeds of
    the sitemap at depth 1.
   */
  lemma DepthIsBounded(cfg: Config, base: Url, seeds: seq<Url>, workers: nat, write: bool, events: seq<Event>, e: Entry)
    requires var s := Run(cfg, Start(cfg, base, seeds, workers, write), events);
             || e in s.queue || e in s.pending || (s.disk.Some? && e in s.disk.value.pending)
             || exists w :: 0 <= w < |s.workers| && !s.workers[w].Idle? && s.workers[w].entry == e
    ensures 0 <= e.depth && (e.depth <= cfg.maxDepth || e == Entry(base, 0) || (e.depth == 1 && e.url in seeds))
  {
    hide Run;
    hide Start;
    StartShallow(cfg, base, seeds, workers, write);
    RunShallow(cfg, base, seeds, Start(cfg, base, seeds, workers, write), events);
  }

  // ---- links --------------------------------------------------------------------------------

  /**
    A page that is recorded, with or without an exception after its result, lists its links behind what is queued:
    below the depth limit and the page limit exactly those not visited, one deeper than itself; otherwise none.
   */
  lemma LinksAreListed(cfg: Config, s: State, ev: Event, e: Entry)
    requires Enabled(s, ev) && (ev.Success? || ev.RaiseAfterResult?)
    ensures var s', page := Step(cfg, s, ev), s.workers[ev.w].entry;
            && s'.results == s.results + [page.url] && s'.visited == s.visited
            && s.queue <= s'.queue && s.pending <= s'.pending
            && s'.queue[|s.queue|..] == s'.pending[|s.pending|..]
            && (e in s'.queue[|s.queue|..] <==>
                  && page.depth < cfg.maxDepth && |s.visited| < cfg.limit
                  && e.depth == page.depth + 1 && e.url in ev.links && cfg.norm(e.url) !in s.visited)
  {
    hide Fresh;
    var page := s.workers[ev.w].entry;
    FreshExactly(ev.links, page.depth + 1, s.visited, cfg.norm, e);
    var found := Discovered(cfg, s, page, ev.links);
    assert (s.queue + found)[|s.queue|..] == found && (s.pending + found)[|s.pending|..] == found;
  }

  /** Behind what was queued stand exactly the unvisited links of the page, one deeper, if depth and limit allow. */
  ghost predicate ListsLinks(cfg: Config, s: State, s': State, page: Entry, links: seq<Url>) {
    && s.queue <= s'.queue
    && forall e :: e in s'.queue[|s.queue|..] <==>
         && page.depth < cfg.maxDepth && |s.visited| < cfg.limit
         && e.depth == page.depth + 1 && e.url in links && cfg.norm(e.url) !in s.visited
  }

  lemma RecordingLists(cfg: Config, s: State, ev: Event)
    requires Enabled(s, ev) && (ev.Success? || ev.RaiseAfterResult?)
    ensures ListsLinks(cfg, s, Step(cfg, s, ev), s.workers[ev.w].entry, ev.links)
  {
    hide Step;
    LinksAreListed(cfg, s, ev, s.workers[ev.w].entry);
    forall e { LinksAreListed(cfg, s, ev, e); }
  }

  /** A crawl starts with its base page, followed by exactly the seeds that are other pages. */
  lemma SeedsAreListed(cfg: Config, base: Url, seeds: seq<Url>, workers: nat, write: bool, e: Entry)
    ensures var s := Start(cfg, base, seeds, workers, write);
            && s.queue != [] && s.queue[0] == Entry(base, 0) && s.pending == s.queue
            && (e in s.queue[1..] <==> e.depth == 1 && e.url in seeds && cfg.norm(e.url) != cfg.norm(base))
            && (write ==> s.disk == Some(Snapshot({}, s.queue, [], [])))
  {
    hide Fresh;
    FreshExactly(seeds, 1, {cfg.norm(base)}, cfg.norm, e);
    assert Start(cfg, base, seeds, workers, write).queue[1..] == Fresh(seeds, 1, {cfg.norm(base)}, cfg.norm);
  }

  /**
    A crawl that drains without a crash misses nothing: its base page and all its seeds have been visited, unless the
    page limit was reached.
   */
  lemma SeedsAreVisited(cfg: Config, base: Url, seeds: seq<Url>, workers: nat, write: bool, events: seq<Event>, u: Url)
    requires u == base || u in seeds
    requires forall i :: 0 <= i < |events| ==> !events[i].CrashAndResume?
    requires Done(Run(cfg, Start(cfg, base, seeds, workers, write), events))
    ensures var s := Run(cfg, Start(cfg, base, seeds, workers, write), events);
            cfg.norm(u) in s.visited || |s.visited| >= cfg.limit
  {
    hide Run;
    hide Inv;
    hide Start;
    var s0 := Start(cfg, base, seeds, workers, write);
    SeedsAreListed(cfg, base, seeds, workers, write, Entry(u, 1));
    assert s0.queue == [s0.queue[0]] + s0.queue[1..];
    assert Coming(cfg, s0, cfg.norm(u)) by {
      if cfg.norm(u) != cfg.norm(base) {
        var i :| 0 <= i < |s0.queue| && s0.queue[i] == Entry(u, 1);
      }
    }
    StartOk(cfg, base, seeds, workers, write);
    DrainedIsVisited(cfg, s0, events, cfg.norm(u));
  }

  lemma DrainedIsVisited(cfg: Config, s: State, events: seq<Event>, k: Key)
    requires Inv(cfg, s) && Coming(cfg, s, k) && Done(Run(cfg, s, events))
    requires forall i :: 0 <= i < |events| ==> !events[i].CrashAndResume?
    ensures k in Run(cfg, s, events).visited || |Run(cfg, s, events).visited| >= cfg.limit
  {
    hide Run;
    hide Inv;
    RunComing(cfg, s, events, k);
    RunKeeps(cfg, s, events);
    DoneIffDrained(cfg, Run(cfg, s, events));
  }

  /**
    And so is every link of every page it records below the depth limit: from any point of any run, a crawl that
    goes on without a crash until it drains has visited the link's page or reached the page limit.
   */
  lemma LinksAreVisited(cfg: Config, s: State, ev: Event, events: seq<Event>, u: Url)
    requires Inv(cfg, s) && Enabled(s, ev) && (ev.Success? || ev.RaiseAfterResult?)
    requires u in ev.links && s.workers[ev.w].entry.depth < cfg.maxDepth
    requires forall i :: 0 <= i < |events| ==> !events[i].CrashAndResume?
    requires Done(Run(cfg, Step(cfg, s, ev), events))
    ensures var s' := Run(cfg, Step(cfg, s, ev), events); cfg.norm(u) in s'.visited || |s'.visited| >= cfg.limit
  {
    hide Run;
    hide Inv;
    hide Step;
    var e := Entry(u, s.workers[ev.w].entry.depth + 1);
    var s1 := Step(cfg, s, ev);
    LinksAreListed(cfg, s, ev, e);
    StepKeeps(cfg, s, ev);
    assert Coming(cfg, s1, cfg.norm(u)) by {
      if cfg.norm(u) !in s.visited && |s.visited| < cfg.limit {
        var i :| 0 <= i < |s1.queue[|s.queue|..]| && s1.queue[|s.queue|..][i] == e;
        assert s1.queue[|s.queue| + i] == e;
      }
    }
    DrainedIsVisited(cfg, s1, events, cfg.norm(u));
  }

  // ---- the queue ----------------------------------------------------------------------------

  /** How many entries the run takes off the queue. */
  function Taken(cfg: Config, s: State, events: seq<Event>): nat
    decreases |events|
  {
    if events == [] then 0
    else if !Enabled(s, events[0]) then Taken(cfg, s, events[1..])
    else (if events[0].Get? then 1 else 0) + Taken(cfg, Step(cfg, s, events[0]), events[1..])
  }

  /** Entries leave the queue in the order they came: it is what came in, less as many from the front as were taken. */
  lemma {:induction false} FirstInFirstOut(cfg: Config, s: State, events: seq<Event>) returns (added: seq<Entry>)
    requires forall i :: 0 <= i < |events| ==> !events[i].CrashAndResume?
    ensures Taken(cfg, s, events) <= |s.queue + added|
    ensures Run(cfg, s, events).queue == (s.queue + added)[Taken(cfg, s, events)..]
    decreases |events|
  {
    hide Step;
    if events == [] {
      added := [];
    } else if !Enabled(s, events[0]) {
      added := FirstInFirstOut(cfg, s, events[1..]);
    } else {
      var s1 := Step(cfg, s, events[0]);
      var rest := FirstInFirstOut(cfg, s1, events[1..]);
      var found := StepQueue(cfg, s, events[0]);
      added := found + rest;
      var n := if events[0].Get? then 1 else 0;
      assert s.queue + added == (s.queue + found) + rest;
      assert (s.queue + found)[n..] + rest == (s.queue + added)[n..];
    }
  }

  lemma StepQueue(cfg: Config, s: State, ev: Event) returns (found: seq<Entry>)
    requires Enabled(s, ev) && !ev.CrashAndResume?
    ensures (ev.Get? ==> s.queue != [] && found == [])
    ensures Step(cfg, s, ev).queue == (s.queue + found)[if ev.Get? then 1 else 0..]
  {
    hide Discovered;
    hide RemoveFirst;
    found := Step(cfg, s, ev).queue[if ev.Get? then |s.queue| - 1 else |s.queue|..];
  }

  // ---- every visited page is accounted for --------------------------------------------------

  predicate InWork(cfg: Config, w: Worker, k: Key) { (w.Scraping? || w.Failing?) && cfg.norm(w.entry.url) == k }

  /** The page has a result or an error, or a worker is still at it. */
  predicate Accounted(cfg: Config, s: State, k: Key) {
    !NoUrl(cfg, s.results, k) || !NoUrl(cfg, s.errors, k) || exists w :: 0 <= w < |s.workers| && InWork(cfg, s.workers[w], k)
  }

  ghost predicate AllAccounted(cfg: Config, s: State) { forall k :: k in s.visited ==> Accounted(cfg, s, k) }

  lemma StepAccounts(cfg: Config, s: State, ev: Event)
    requires AllAccounted(cfg, s) && Enabled(s, ev)
    ensures AllAccounted(cfg, Step(cfg, s, ev))
  {
    hide Accounted;
    var s' := Step(cfg, s, ev);
    forall k | k in s'.visited ensures Accounted(cfg, s', k) {
      if ev.CrashAndResume? {
        ResumeAccounts(cfg, s.disk.value, |s.workers|, ev.write, k);
      } else if k in s.visited {
        StaysAccounted(cfg, s, ev, k);
      } else {
        ClaimAccounts(cfg, s, ev, k);
      }
    }
  }

  lemma ResumeAccounts(cfg: Config, sn: Snapshot, workers: nat, write: bool, k: Key)
    requires k in Resume(cfg, sn, workers).visited
    ensures Accounted(cfg, Checkpoint(Resume(cfg, sn, workers), write), k)
  {
    if k in KeysOf(sn.results, cfg.norm) {
      var i :| 0 <= i < |sn.results| && cfg.norm(sn.results[i]) == k;
    } else {
      var i :| 0 <= i < |sn.errors| && cfg.norm(sn.errors[i]) == k;
    }
  }

  lemma ClaimAccounts(cfg: Config, s: State, ev: Event, k: Key)
    requires Enabled(s, ev) && !ev.CrashAndResume? && k !in s.visited && k in Step(cfg, s, ev).visited
    ensures Accounted(cfg, Step(cfg, s, ev), k)
  {
    hide RemoveFirst;
    hide Discovered;
    assert InWork(cfg, Step(cfg, s, ev).workers[ev.w], k);
  }

  lemma UrlStays(cfg: Config, urls: seq<Url>, u: Url, k: Key)
    ensures NoUrl(cfg, urls + [u], k) <==> NoUrl(cfg, urls, k) && cfg.norm(u) != k
  {
    if NoUrl(cfg, urls + [u], k) {
      assert (urls + [u])[|urls|] == u;
      forall i | 0 <= i < |urls| ensures cfg.norm(urls[i]) != k {
        assert (urls + [u])[i] == urls[i];
      }
    }
  }

  lemma StaysAccounted(cfg: Config, s: State, ev: Event, k: Key)
    requires Accounted(cfg, s, k) && Enabled(s, ev) && !ev.CrashAndResume?
    ensures Accounted(cfg, Step(cfg, s, ev), k)
  {
    hide RemoveFirst;
    hide Discovered;
    hide NoUrl;
    hide InWork;
    var s', u := Step(cfg, s, ev), if s.workers[ev.w].Idle? then "" else s.workers[ev.w].entry.url;
    UrlStays(cfg, s.results, u, k);
    UrlStays(cfg, s.errors, u, k);
    if w :| 0 <= w < |s.workers| && InWork(cfg, s.workers[w], k) {
      if w != ev.w {
        assert s'.workers[w] == s.workers[w];
      } else {
        OwnWork(cfg, s, ev, k);
      }
    }
  }

  /** A worker at the page stays at it, or records its result or its error. */
  lemma OwnWork(cfg: Config, s: State, ev: Event, k: Key)
    requires Enabled(s, ev) && !ev.CrashAndResume? && InWork(cfg, s.workers[ev.w], k)
    ensures Accounted(cfg, Step(cfg, s, ev), k)
  {
    hide RemoveFirst;
    hide Discovered;
    hide NoUrl;
    var u := s.workers[ev.w].entry.url;
    UrlStays(cfg, s.results, u, k);
    UrlStays(cfg, s.errors, u, k);
    assert ev.Raise? ==> InWork(cfg, Step(cfg, s, ev).workers[ev.w], k);
  }

  lemma {:induction false} RunAccounts(cfg: Config, s: State, events: seq<Event>)
    requires AllAccounted(cfg, s)
    ensures AllAccounted(cfg, Run(cfg, s, events))
    decreases |events|
  {
    hide AllAccounted;
    hide Step;
    if events != [] {
      if Enabled(s, events[0]) {
        StepAccounts(cfg, s, events[0]);
      }
      RunAccounts(cfg, if Enabled(s, events[0]) then Step(cfg, s, events[0]) else s, events[1..]);
    }
  }

  /** When a crawl is done, after any crashes, the pages visited are exactly those with a result or an error. */
  lemma VisitedIsRecorded(cfg: Config, base: Url, seeds: seq<Url>, workers: nat, write: bool, events: seq<Event>, k: Key)
    requires Done(Run(cfg, Start(cfg, base, seeds, workers, write), events))
    ensures var s := Run(cfg, Start(cfg, base, seeds, workers, write), events);
            k in s.visited <==> !NoUrl(cfg, s.results, k) || !NoUrl(cfg, s.errors, k)
  {
    hide Run;
    hide Step;
    var s0 := Start(cfg, base, seeds, workers, write);
    var s := Run(cfg, s0, events);
    StartOk(cfg, base, seeds, workers, write);
    RunKeeps(cfg, s0, events);
    RunAccounts(cfg, s0, events);
    DoneIffDrained(cfg, s);
  }

  /**
    A crash right after a checkpoint loses no result, no error and no queued page; of the visited pages exactly those
    with a result or an error stay visited.
   */
  lemma RestartFromCheckpoint(cfg: Config, s: State, w: nat, write: bool, k: Key)
    requires Inv(cfg, s) && Enabled(s, Finish(w, true))
    ensures var s' := Step(cfg, Step(cfg, s, Finish(w, true)), CrashAndResume(write));
            && s'.results == s.results && s'.errors == s.errors
            && multiset(s'.queue) == multiset(s.queue) + InHand(s.workers) && s'.pending == s'.queue
            && (k in s'.visited <==> !NoUrl(cfg, s.results, k) || !NoUrl(cfg, s.errors, k))
  {
    hide InHand;
    hide Busy;
    hide ClaimsOk;
    hide DistinctKeys;
    ProcessedIff(cfg, s.results, k);
    ProcessedIff(cfg, s.errors, k);
  }

  lemma ProcessedIff(cfg: Config, urls: seq<Url>, k: Key)
    ensures k in KeysOf(urls, cfg.norm) <==> !NoUrl(cfg, urls, k)
  {
  }
}
