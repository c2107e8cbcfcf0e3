/**
  Which pages a research run reads more than once, and how much its counters can forget (app/research.py:107-133,
  260-303), over whole histories of replies, crashes, restarts and resumes.
 */
module ResearchReads {
  import opened ResearchModel
  import opened ResearchProofs

  // ---- reads and lists --------------------------------------------------------------------

  function Names(norm: Url -> Key, urls: seq<Url>): (r: seq<Key>)
    ensures |r| == |urls| && forall i :: 0 <= i < |r| ==> r[i] == norm(urls[i])
  {
    seq(|urls|, i requires 0 <= i < |urls| => norm(urls[i]))
  }

  function ReadKeys(claims: seq<ReadClaim>): (r: seq<Key>)
    ensures |r| == |claims| && forall i :: 0 <= i < |r| ==> r[i] == claims[i].key
  {
    seq(|claims|, i requires 0 <= i < |claims| => claims[i].key)
  }

  /** The pages of all the lists, in the order of their commits. */
  function Flat(norm: Url -> Key, lists: seq<seq<Url>>): seq<Key> {
    if lists == [] then [] else Flat(norm, lists[..|lists| - 1]) + Names(norm, lists[|lists| - 1])
  }

  predicate Different(keys: seq<Key>) { forall i, j :: 0 <= i < j < |keys| ==> keys[i] != keys[j] }

  predicate Disjoint(a: seq<Key>, b: seq<Key>) { forall i, j :: 0 <= i < |a| && 0 <= j < |b| ==> a[i] != b[j] }

  /** What is committed and not yet begun. */
  function Rest(norm: Url -> Key, l: Loop): seq<Key> { if l.phase.Read? then Names(norm, l.pending) else [] }

  /** Reads follow the lists: what was committed is what was begun and then what waits. */
  predicate Follows(norm: Url -> Key, past: Past, l: Loop) { Flat(norm, past.lists) == ReadKeys(past.begun) + Rest(norm, l) }

  /** No page is on the lists of two rounds. */
  predicate Apart(norm: Url -> Key, lists: seq<seq<Url>>)
  {
    forall n :: 0 <= n < |lists| ==> Disjoint(Flat(norm, lists[..n]), Names(norm, lists[n]))
  }

  ghost predicate InOrder(c: Config, s: State) {
    s.past.reliable ==>
      && Follows(c.norm, s.past, s.loop)
      && (s.disk.Some? ==> Follows(c.norm, s.past, s.disk.value.loop))
      && Apart(c.norm, s.past.lists)
  }

  /** Nothing that the order depends on has changed. */
  predicate Silent(s: State, s1: State) {
    && s1.loop == s.loop.(round := s1.loop.round) && s1.disk == s.disk
    && s1.past.begun == s.past.begun && s1.past.lists == s.past.lists && s1.past.reliable == s.past.reliable
  }

  lemma SilentKeeps(c: Config, s: State, s1: State)
    requires InOrder(c, s) && Silent(s, s1)
    ensures InOrder(c, s1)
  {
    hide Apart;
    hide Flat;
  }

  lemma WindIsSilent(s: State)
    ensures Silent(s, Wind(s)) && Silent(s, Fail(s))
  {
    hide HasRelevant;
  }

  lemma HeadsAreSilent(c: Config, s: State, r: int)
    ensures Silent(s, RoundHead(c, s, r)) && Silent(s, ReadHead(s, r)) && Silent(s, Begin(c, s)) && Silent(s, LoopHead(c, s))
  {
    hide Wind;
    WindIsSilent(s);
    WindIsSilent(As(s, Planning));
  }

  /** A checkpoint brings the disk level with memory, or fails and ends the promise. */
  lemma SaveOrders(c: Config, s: State, ok: bool)
    requires InOrder(c, s.(disk := None))
    ensures InOrder(c, Save(s, ok))
  {
    hide Apart;
    hide Follows;
  }

  lemma FlatSnoc(norm: Url -> Key, lists: seq<seq<Url>>, urls: seq<Url>)
    ensures Flat(norm, lists + [urls]) == Flat(norm, lists) + Names(norm, urls)
  {
    assert (lists + [urls])[..|lists|] == lists;
  }

  lemma ApartSnoc(norm: Url -> Key, lists: seq<seq<Url>>, urls: seq<Url>)
    requires Apart(norm, lists) && Disjoint(Flat(norm, lists), Names(norm, urls))
    ensures Apart(norm, lists + [urls])
  {
    hide Flat;
    var all := lists + [urls];
    forall n | 0 <= n < |all| ensures Disjoint(Flat(norm, all[..n]), Names(norm, all[n])) {
      assert all[..n] == lists[..n];
      assert n == |lists| ==> lists[..n] == lists;
    }
  }

  /** A round that commits a list of unseen pages, when everything committed before has been read. */
  lemma ListingOrders(c: Config, s: State, urls: seq<Url>)
    requires InOrder(c, s) && Tracked(s) && ClaimsOk(s.loop) && s.loop.phase.Search? && UnseenAll(c.norm, urls, s.loop.seen)
    ensures InOrder(c, Listing(s, urls).(disk := None))
  {
    hide OneRoundEach;
    if s.past.reliable {
      FlatSnoc(c.norm, s.past.lists, urls);
      var read := ReadKeys(s.past.begun);
      assert Flat(c.norm, s.past.lists) == read;
      forall i, j | 0 <= i < |read| && 0 <= j < |urls| ensures read[i] != Names(c.norm, urls)[j] {
        assert s.loop.claims[i].key in s.loop.seen;
        assert urls[j] in urls;
      }
      ApartSnoc(c.norm, s.past.lists, urls);
    }
  }

  lemma CommitOrders(c: Config, s: State, r: int, urls: seq<Url>, saved: bool)
    requires InOrder(c, s) && Tracked(s) && ClaimsOk(s.loop) && s.loop.phase.Search? && UnseenAll(c.norm, urls, s.loop.seen)
    ensures InOrder(c, Commit(s, r, urls, saved))
  {
    hide InOrder;
    hide Tracked;
    hide ClaimsOk;
    hide UnseenAll;
    hide ReadHead;
    var s1 := Save(Listing(s, urls), saved);
    ListingOrders(c, s, urls);
    SaveOrders(c, Listing(s, urls), saved);
    SilentKeeps(c, s1, As(s1, Reading));
    HeadsAreSilent(c, As(s1, Reading), r);
    SilentKeeps(c, As(s1, Reading), Commit(s, r, urls, saved));
  }

  lemma ClaimOrders(c: Config, s: State, r: int, saved: bool)
    requires InOrder(c, s) && s.loop.phase.Read? && s.loop.pending != []
    ensures InOrder(c, Claimed(c, s, r, saved))
  {
    hide Follows;
    hide Apart;
    var claim := ReadClaim(r, c.norm(s.loop.pending[0]));
    var s1 := s.(loop := s.loop.(pending := s.loop.pending[1..], seen := s.loop.seen + {claim.key}, claims := s.loop.claims + [claim]),
                 past := s.past.(begun := s.past.begun + [claim]));
    if s.past.reliable {
      ClaimFollows(c.norm, s.past, s.loop, s1.past, s1.loop, claim);
    }
    SaveOrders(c, s1, saved);
  }

  /** A claim moves the first waiting page to the pages begun. */
  lemma ClaimFollows(norm: Url -> Key, past: Past, l: Loop, past1: Past, l1: Loop, claim: ReadClaim)
    requires Follows(norm, past, l) && l.phase.Read? && l.pending != [] && claim.key == norm(l.pending[0])
    requires past1.lists == past.lists && past1.begun == past.begun + [claim]
    requires l1.phase.Read? && l1.pending == l.pending[1..]
    ensures Follows(norm, past1, l1)
  {
    hide Flat;
    hide Names;
    hide ReadKeys;
    NamesHead(norm, l.pending);
    ReadKeysSnoc(past.begun, claim);
    Regroup(ReadKeys(past.begun), claim.key, Names(norm, l1.pending));
  }

  lemma NamesHead(norm: Url -> Key, urls: seq<Url>)
    requires urls != []
    ensures Names(norm, urls) == [norm(urls[0])] + Names(norm, urls[1..])
  {
  }

  lemma ReadKeysSnoc(claims: seq<ReadClaim>, claim: ReadClaim)
    ensures ReadKeys(claims + [claim]) == ReadKeys(claims) + [claim.key]
  {
  }

  lemma Regroup(a: seq<Key>, k: Key, b: seq<Key>)
    ensures a + ([k] + b) == (a + [k]) + b
  {
  }

  lemma SearchOrders(c: Config, s: State, a: Answer)
    requires Inv(c, s) && Tracked(s) && InOrder(c, s) && (s.pc.Hunt? || s.pc.Select?) && Cancelling(s, a.cancel) == s
    ensures InOrder(c, Reply(c, s, a))
  {
    hide InOrder;
    hide Tracked;
    hide ClaimsOk;
    hide WaitingOk;
    hide Wind;
    hide Fail;
    hide Commit;
    hide Fresh;
    hide Unseen;
    hide Keep;
    hide Without;
    WindIsSilent(s);
    SilentKeeps(c, s, Wind(s));
    SilentKeeps(c, s, Fail(s));
    if a.raises {
    } else if s.pc.Hunt? {
      var unseen := Unseen(c.norm, s.loop.pending, s.loop.seen);
      UnseenIsUnseen(c.norm, s.loop.pending, s.loop.seen);
      var urls := Take(unseen, Budget(c, s.job));
      assert forall u :: u in urls ==> u in unseen;
      CommitOrders(c, s, s.pc.r, urls, a.saved);
      var found := Fresh(c.norm, a.urls, s.loop.seen);
      SilentKeeps(c, s, Spend(s).(pc := Select(s.pc.r, found, urls)));
    } else {
      SelectionOk(c, s.job, s.loop.seen, s.pc.found, s.pc.urls, a.urls);
      var picked := Take(Keep(a.urls, s.pc.found), PickCount(c, s.job, s.pc.urls));
      CommitOrders(c, s, s.pc.r, s.pc.urls + Without(picked, s.pc.urls), a.saved);
    }
  }

  /** Awaits whose answer is followed by a checkpoint. */
  lemma AnswerOrders(c: Config, s: State, a: Answer)
    requires Inv(c, s) && InOrder(c, s) && (s.pc.Entry? || s.pc.Plan? || s.pc.Notes? || s.pc.Assess?)
    requires Cancelling(s, a.cancel) == s
    ensures InOrder(c, Reply(c, s, a))
  {
    hide Apart;
    hide Flat;
    hide Unseen;
    hide Wind;
    hide Fail;
    hide Begin;
    hide LoopHead;
    hide RoundHead;
    hide ReadHead;
    hide ClaimsOk;
    hide WaitingOk;
    hide Bounds;
    var s1 := if s.pc.Entry? then s
              else if s.pc.Plan? then s.(loop := s.loop.(queries := Some(a.queries), pending := Unseen(c.norm, c.seeds, s.loop.seen)))
              else if s.pc.Notes? then Noted(s, s.pc.url, a.flag)
              else s.(loop := s.loop.(queries := Some(a.queries), phase := Search));
    assert Rest(c.norm, s1.loop) == Rest(c.norm, s.loop);
    SaveOrders(c, s1, a.saved);
    Continues(c, s, if s.pc.Assess? then s.pc.r + 1 else if s.pc.Notes? then s.pc.r else 0);
    Continues(c, Save(s1, a.saved), if s.pc.Assess? then s.pc.r + 1 else if s.pc.Notes? then s.pc.r else 0);
  }

  lemma Continues(c: Config, s: State, r: int)
    requires InOrder(c, s)
    ensures InOrder(c, Wind(s)) && InOrder(c, Fail(s)) && InOrder(c, RoundHead(c, s, r)) && InOrder(c, ReadHead(s, r))
    ensures InOrder(c, Begin(c, s)) && InOrder(c, LoopHead(c, s))
  {
    hide InOrder;
    hide Wind;
    hide Fail;
    hide RoundHead;
    hide ReadHead;
    hide Begin;
    hide LoopHead;
    WindIsSilent(s);
    HeadsAreSilent(c, s, r);
    SilentKeeps(c, s, Wind(s));
    SilentKeeps(c, s, Fail(s));
    SilentKeeps(c, s, RoundHead(c, s, r));
    SilentKeeps(c, s, ReadHead(s, r));
    SilentKeeps(c, s, Begin(c, s));
    SilentKeeps(c, s, LoopHead(c, s));
  }

  lemma PageOrders(c: Config, s: State, a: Answer)
    requires Inv(c, s) && InOrder(c, s) && (s.pc.PageTop? || s.pc.Scrape?) && Cancelling(s, a.cancel) == s
    ensures InOrder(c, Reply(c, s, a))
  {
    hide InOrder;
    hide Wind;
    hide ReadHead;
    hide ClaimsOk;
    hide WaitingOk;
    hide Bounds;
    Continues(c, s, s.pc.r);
    if s.pc.PageTop? {
      ClaimOrders(c, s, s.pc.r, a.saved);
      var s1 := Claimed(c, s, s.pc.r, a.saved);
      SilentKeeps(c, s1, s1.(pc := Scrape(s.pc.r, s.loop.pending[0])));
    } else {
      var s1 := Fetched(s);
      SilentKeeps(c, s, s1);
      SilentKeeps(c, s1, Spend(s1).(pc := Notes(s.pc.r, s.pc.url)));
      Continues(c, s1, s.pc.r);
      SavedHead(c, s, s.pc.r, a.saved);
      SavedHead(c, s1, s.pc.r, a.saved);
    }
  }

  lemma SavedHead(c: Config, s: State, r: int, saved: bool)
    requires InOrder(c, s)
    ensures InOrder(c, ReadHead(Save(s, saved), r))
  {
    hide Flat;
    hide Apart;
    hide ReadHead;
    SaveOrders(c, s, saved);
    Continues(c, Save(s, saved), r);
  }

  lemma CheckOrders(c: Config, s: State, a: Answer)
    requires InOrder(c, s) && (s.pc.Top? || s.pc.AssessTop?) && Cancelling(s, a.cancel) == s
    ensures InOrder(c, Reply(c, s, a))
  {
    hide InOrder;
    hide Wind;
    hide Cancelling;
    Continues(c, s, s.pc.r);
    SilentKeeps(c, s, As(s, Planning));
    Continues(c, As(s, Planning), 0);
    SilentKeeps(c, s, Spend(As(s, Planning)).(pc := Assess(s.pc.r)));
    TopIsSilent(c, s, s.pc.r, a);
    if s.pc.Top? {
      SilentKeeps(c, s, AtTop(c, s, s.pc.r, a));
    }
  }

  lemma TopIsSilent(c: Config, s: State, r: int, a: Answer)
    ensures Silent(s, AtTop(c, s, r, a))
  {
    hide Wind;
    WindIsSilent(s);
  }

  lemma EndOrders(c: Config, s: State, a: Answer)
    requires InOrder(c, s)
    requires s.pc.Synth? || s.pc.Archive? || s.pc.Cleanup? || s.pc.Done? || s.pc.Down? || s.pc.Idle? || s.pc.Gone?
    ensures InOrder(c, Reply(c, s, a))
  {
    hide Flat;
    hide Apart;
    hide Follows;
    CancellingIsSilent(c, s, a.cancel);
  }

  lemma CancellingIsSilent(c: Config, s: State, request: bool)
    ensures Silent(s, Cancelling(s, request)) && Cancelling(s, request).pc == s.pc
    ensures Tracked(s) ==> Tracked(Cancelling(s, request))
    ensures Cancelling(Cancelling(s, request), request) == Cancelling(s, request)
    ensures InOrder(c, s) ==> InOrder(c, Cancelling(s, request))
  {
    hide Flat;
    hide Apart;
  }

  lemma ReplyOrders(c: Config, s0: State, a: Answer)
    requires Inv(c, s0) && Tracked(s0) && InOrder(c, s0)
    ensures InOrder(c, Reply(c, s0, a))
  {
    hide Inv;
    hide Tracked;
    hide InOrder;
    hide Cancelling;
    CancellingOk(c, s0, a.cancel);
    CancellingIsSilent(c, s0, a.cancel);
    var s := Cancelling(s0, a.cancel);
    SameReply(c, s0, a);
    match s0.pc
    case Entry => AnswerOrders(c, s, a);
    case Plan => AnswerOrders(c, s, a);
    case Notes(_, _) => AnswerOrders(c, s, a);
    case Assess(_) => AnswerOrders(c, s, a);
    case Hunt(_) => SearchOrders(c, s, a);
    case Select(_, _, _) => SearchOrders(c, s, a);
    case Top(_) => CheckOrders(c, s, a);
    case AssessTop(_) => CheckOrders(c, s, a);
    case PageTop(_) => PageOrders(c, s, a);
    case Scrape(_, _) => PageOrders(c, s, a);
    case _ => EndOrders(c, s0, a);
  }

  lemma SameReply(c: Config, s: State, a: Answer)
    ensures Live(s.pc) ==> Reply(c, Cancelling(s, a.cancel), a) == Reply(c, s, a)
  {
    hide Wind;
    hide Fail;
    hide Planned;
    hide AtTop;
    hide Hunted;
    hide Selected;
    hide AtPage;
    hide Scraped;
    hide AtAssess;
    hide Assessed;
    hide LoopHead;
    hide ReadHead;
    hide Close;
  }

  lemma NextOrders(c: Config, s: State, m: Move)
    requires Inv(c, s) && Tracked(s) && InOrder(c, s)
    ensures InOrder(c, Next(c, s, m)) && Inv(c, Next(c, s, m)) && Tracked(Next(c, s, m))
  {
    hide Inv;
    hide Reply;
    hide Flat;
    hide Apart;
    hide Cancelling;
    NextKeeps(c, s, m);
    match m
    case Replied(a) =>
      ReplyOrders(c, s, a);
      ReplyTracks(c, s, a);
    case Resume(cancel) => CancellingIsSilent(c, s, cancel);
    case _ =>
  }

  lemma {:induction false} HistoryOrders(c: Config, s: State, moves: seq<Move>)
    requires Inv(c, s) && Tracked(s) && InOrder(c, s)
    ensures InOrder(c, History(c, s, moves))
    decreases |moves|
  {
    hide Inv;
    hide Next;
    hide Tracked;
    hide InOrder;
    if moves != [] {
      NextOrders(c, s, moves[0]);
      HistoryOrders(c, Next(c, s, moves[0]), moves[1..]);
    }
  }

  // ---- when every page is read at most once -----------------------------------------------

  /** What has been begun of list i, when n pages have been begun in all. */
  function Part(norm: Url -> Key, lists: seq<seq<Url>>, i: nat, n: nat): seq<Key>
    requires i < |lists|
  {
    var names, before := Names(norm, lists[i]), |Flat(norm, lists[..i])|;
    if n <= before then [] else if n - before <= |names| then names[..n - before] else names
  }

  predicate PartsDiffer(norm: Url -> Key, lists: seq<seq<Url>>, n: nat) {
    forall i :: 0 <= i < |lists| ==> Different(Part(norm, lists, i, n))
  }

  lemma {:induction false} FlatGrows(norm: Url -> Key, lists: seq<seq<Url>>, i: nat)
    requires i < |lists|
    ensures |Flat(norm, lists[..i])| + |lists[i]| <= |Flat(norm, lists)|
  {
    var front := lists[..|lists| - 1];
    if i < |front| {
      assert front[..i] == lists[..i];
      FlatGrows(norm, front, i);
    }
  }

  lemma DifferentJoin(a: seq<Key>, b: seq<Key>)
    requires Disjoint(a, b)
    ensures Different(a + b) <==> Different(a) && Different(b)
  {
    var all := a + b;
    if Different(all) {
      forall i, j | 0 <= i < j < |a| ensures a[i] != a[j] { assert all[i] != all[j]; }
      forall i, j | 0 <= i < j < |b| ensures b[i] != b[j] { assert all[|a| + i] != all[|a| + j]; }
    }
  }

  lemma {:induction false} DifferentIff(norm: Url -> Key, lists: seq<seq<Url>>, n: nat)
    requires Apart(norm, lists) && n <= |Flat(norm, lists)|
    ensures Different(Flat(norm, lists)[..n]) <==> PartsDiffer(norm, lists, n)
  {
    hide Different;
    hide Disjoint;
    if lists == [] {
      NothingDiffers();
    } else {
      hide Flat;
      hide Part;
      hide PartsDiffer;
      var last := |lists| - 1;
      var flat, names := Flat(norm, lists[..last]), Names(norm, lists[last]);
      ApartFront(norm, lists);
      FlatLast(norm, lists);
      var m := if n <= |flat| then n else |flat|;
      DifferentIff(norm, lists[..last], m);
      PartsOfFront(norm, lists, n, m);
      LastPart(norm, lists, n);
      DifferentUpTo(flat, names, n);
    }
  }

  lemma FlatLast(norm: Url -> Key, lists: seq<seq<Url>>)
    requires lists != []
    ensures Flat(norm, lists) == Flat(norm, lists[..|lists| - 1]) + Names(norm, lists[|lists| - 1])
  {
  }

  /** The prefix of two lists is the prefix of the first, and then of the second. */
  function Second(a: seq<Key>, b: seq<Key>, n: nat): seq<Key>
    requires n <= |a| + |b|
  {
    if n <= |a| then [] else b[..n - |a|]
  }

  lemma LastPart(norm: Url -> Key, lists: seq<seq<Url>>, n: nat)
    requires lists != [] && n <= |Flat(norm, lists)|
    ensures var flat, names := Flat(norm, lists[..|lists| - 1]), Names(norm, lists[|lists| - 1]);
            n <= |flat| + |names| && Part(norm, lists, |lists| - 1, n) == Second(flat, names, n)
  {
    hide Flat;
    hide Names;
    FlatLast(norm, lists);
  }

  lemma DifferentUpTo(a: seq<Key>, b: seq<Key>, n: nat)
    requires Disjoint(a, b) && n <= |a| + |b|
    ensures Different((a + b)[..n]) <==> Different(a[..if n <= |a| then n else |a|]) && Different(Second(a, b, n))
  {
    hide Different;
    hide Disjoint;
    NothingDiffers();
    if n <= |a| {
      assert (a + b)[..n] == a[..n];
    } else {
      assert (a + b)[..n] == a + b[..n - |a|] && a[..|a|] == a;
      DisjointPrefix(a, b, n - |a|);
      DifferentJoin(a, b[..n - |a|]);
    }
  }

  lemma NothingDiffers()
    ensures Different([])
  {
  }

  lemma DisjointPrefix(a: seq<Key>, b: seq<Key>, n: nat)
    requires Disjoint(a, b) && n <= |b|
    ensures Disjoint(a, b[..n])
  {
  }

  lemma ApartFront(norm: Url -> Key, lists: seq<seq<Url>>)
    requires Apart(norm, lists) && lists != []
    ensures Apart(norm, lists[..|lists| - 1]) && Disjoint(Flat(norm, lists[..|lists| - 1]), Names(norm, lists[|lists| - 1]))
  {
    var front := lists[..|lists| - 1];
    forall n | 0 <= n < |front| ensures Disjoint(Flat(norm, front[..n]), Names(norm, front[n])) {
      assert front[..n] == lists[..n] && front[n] == lists[n];
    }
  }

  /** All parts are those of the lists before the last, and the last one's. */
  lemma PartsOfFront(norm: Url -> Key, lists: seq<seq<Url>>, n: nat, m: nat)
    requires lists != []
    requires var flat := Flat(norm, lists[..|lists| - 1]); m == if n <= |flat| then n else |flat|
    ensures PartsDiffer(norm, lists, n) <==>
            PartsDiffer(norm, lists[..|lists| - 1], m) && Different(Part(norm, lists, |lists| - 1, n))
  {
    hide Different;
    hide Flat;
    var front := lists[..|lists| - 1];
    forall i | 0 <= i < |front| ensures Part(norm, lists, i, n) == Part(norm, front, i, m) {
      assert front[..i] == lists[..i] && front[i] == lists[i];
      FlatGrows(norm, front, i);
    }
  }

  /**
    In a history whose checkpoints are all saved, pages are begun in the order of the committed lists, and no two
    rounds list the same page: so a page is read twice, crash or no crash, if and only if what has been begun of
    one round's list names it twice.
   */
  lemma ReadTwiceIffListedTwice(c: Config, moves: seq<Move>)
    requires History(c, NewJob(), moves).past.reliable
    ensures var past := History(c, NewJob(), moves).past;
            && ReadKeys(past.begun) <= Flat(c.norm, past.lists) && Apart(c.norm, past.lists)
            && (Different(ReadKeys(past.begun)) <==> PartsDiffer(c.norm, past.lists, |past.begun|))
  {
    hide Inv;
    hide History;
    hide Flat;
    hide Apart;
    hide Different;
    hide PartsDiffer;
    NewJobOk(c);
    NewJobOrdered(c);
    HistoryOrders(c, NewJob(), moves);
    var past := History(c, NewJob(), moves).past;
    var flat := Flat(c.norm, past.lists);
    assert ReadKeys(past.begun) == flat[..|past.begun|];
    DifferentIff(c.norm, past.lists, |past.begun|);
  }

  lemma NewJobOrdered(c: Config)
    ensures InOrder(c, NewJob()) && Tracked(NewJob())
  {
  }

  // ---- a condition on the caller and the answers ------------------------------------------

  /** The seed urls that a run can read at all name no page twice. */
  predicate SeedsDiffer(c: Config) { Different(Names(c.norm, Take(c.seeds, Lim(c.maxPages)))) }

  /** A selection names no page twice, and none that already waits. */
  ghost predicate PicksDiffer(c: Config, s: State, m: Move) {
    s.pc.Select? && m.Replied? ==>
      var picks := Names(c.norm, Keep(m.answer.urls, s.pc.found));
      Different(picks) && Disjoint(Names(c.norm, s.pc.urls), picks)
  }

  ghost predicate AllPicksDiffer(c: Config, s: State, moves: seq<Move>)
    decreases |moves|
  {
    moves == [] || (PicksDiffer(c, s, moves[0]) && AllPicksDiffer(c, Next(c, s, moves[0]), moves[1..]))
  }

  /** Every list so far names each page once, and so does what waits for the next one. */
  ghost predicate ListsDiffer(c: Config, s: State) {
    && (forall i :: 0 <= i < |s.past.lists| ==> Different(Names(c.norm, s.past.lists[i])))
    && WaitingDiffers(c, s.loop)
    && (s.disk.Some? ==> WaitingDiffers(c, s.disk.value.loop))
    && (s.pc.Select? ==> Different(Names(c.norm, s.pc.urls)))
  }

  predicate WaitingDiffers(c: Config, l: Loop) {
    && (l.queries.None? ==> l.seen == {})
    && (l.phase.Search? ==> Different(Names(c.norm, Take(l.pending, Lim(c.maxPages)))) && (l.pending != [] ==> l.seen == {}))
  }

  lemma {:induction false} UnseenKeepsAll(norm: Url -> Key, urls: seq<Url>)
    ensures Unseen(norm, urls, {}) == urls
  {
    if urls != [] {
      UnseenKeepsAll(norm, urls[..|urls| - 1]);
    }
  }

  lemma {:induction false} WithoutDiffers(norm: Url -> Key, urls: seq<Url>, have: seq<Url>)
    requires Different(Names(norm, urls))
    ensures Different(Names(norm, Without(urls, have)))
  {
    if urls != [] {
      var front, u := urls[..|urls| - 1], urls[|urls| - 1];
      NamesFront(norm, urls);
      WithoutDiffers(norm, front, have);
      SnocDiffers(norm, urls, front, Without(front, have), u);
    }
  }

  lemma NamesFront(norm: Url -> Key, urls: seq<Url>)
    requires urls != [] && Different(Names(norm, urls))
    ensures Different(Names(norm, urls[..|urls| - 1]))
  {
    var front := urls[..|urls| - 1];
    forall i, j | 0 <= i < j < |front| ensures Names(norm, front)[i] != Names(norm, front)[j] {
      assert Names(norm, urls)[i] != Names(norm, urls)[j];
    }
  }

  /** Adding the last of a list without repeats to some of those before it adds no repeat. */
  lemma SnocDiffers(norm: Url -> Key, urls: seq<Url>, front: seq<Url>, kept: seq<Url>, u: Url)
    requires urls == front + [u] && Different(Names(norm, urls)) && Different(Names(norm, kept))
    requires forall v :: v in kept ==> v in front
    ensures Different(Names(norm, kept + [u])) && Different(Names(norm, kept))
  {
    forall i | 0 <= i < |kept| ensures norm(kept[i]) != norm(u) {
      assert kept[i] in front;
      var k :| 0 <= k < |front| && front[k] == kept[i];
      assert Names(norm, urls)[k] != Names(norm, urls)[|front|];
    }
  }

  lemma TakeDiffers(norm: Url -> Key, urls: seq<Url>, n: int)
    requires n >= 0 && Different(Names(norm, urls))
    ensures Different(Names(norm, Take(urls, n)))
  {
    var names, taken := Names(norm, urls), Names(norm, Take(urls, n));
    forall i, j | 0 <= i < j < |taken| ensures taken[i] != taken[j] {
      assert taken[i] == names[i] && taken[j] == names[j];
    }
  }

  /** The list a selection commits. */
  lemma PickedDiffer(norm: Url -> Key, urls: seq<Url>, picks: seq<Url>, k: int)
    requires k >= 0 && Different(Names(norm, urls)) && Different(Names(norm, picks))
    requires Disjoint(Names(norm, urls), Names(norm, picks))
    ensures Different(Names(norm, urls + Without(Take(picks, k), urls)))
  {
    var more := Without(Take(picks, k), urls);
    TakeDiffers(norm, picks, k);
    WithoutDiffers(norm, Take(picks, k), urls);
    forall i, j | 0 <= i < |urls| && 0 <= j < |more| ensures Names(norm, urls)[i] != Names(norm, more)[j] {
      assert more[j] in Take(picks, k);
      var m :| 0 <= m < |Take(picks, k)| && Take(picks, k)[m] == more[j];
      assert Names(norm, picks)[m] == norm(more[j]);
    }
    DifferentJoin(Names(norm, urls), Names(norm, more));
    assert Names(norm, urls + more) == Names(norm, urls) + Names(norm, more);
  }

  lemma SilentDiffers(c: Config, s: State, s1: State)
    requires ListsDiffer(c, s) && Silent(s, s1) && !s1.pc.Select?
    ensures ListsDiffer(c, s1)
  {
    hide Different;
  }

  lemma HeadsDoNotSelect(c: Config, s: State, r: int)
    ensures !Wind(s).pc.Select? && !Fail(s).pc.Select? && !ReadHead(s, r).pc.Select?
    ensures !RoundHead(c, s, r).pc.Select? && !Begin(c, s).pc.Select? && !LoopHead(c, s).pc.Select?
  {
    hide HasRelevant;
  }

  lemma ContinuesDiffers(c: Config, s: State, r: int)
    requires ListsDiffer(c, s)
    ensures ListsDiffer(c, Wind(s)) && ListsDiffer(c, Fail(s)) && ListsDiffer(c, RoundHead(c, s, r)) && ListsDiffer(c, ReadHead(s, r))
    ensures ListsDiffer(c, Begin(c, s)) && ListsDiffer(c, LoopHead(c, s))
  {
    hide ListsDiffer;
    hide Wind;
    hide Fail;
    hide RoundHead;
    hide ReadHead;
    hide Begin;
    hide LoopHead;
    WindIsSilent(s);
    HeadsAreSilent(c, s, r);
    HeadsDoNotSelect(c, s, r);
    SilentDiffers(c, s, Wind(s));
    SilentDiffers(c, s, Fail(s));
    SilentDiffers(c, s, RoundHead(c, s, r));
    SilentDiffers(c, s, ReadHead(s, r));
    SilentDiffers(c, s, Begin(c, s));
    SilentDiffers(c, s, LoopHead(c, s));
  }

  lemma SaveDiffers(c: Config, s: State, ok: bool)
    requires ListsDiffer(c, s)
    ensures ListsDiffer(c, Save(s, ok))
  {
    hide Different;
  }

  lemma CommitDiffers(c: Config, s: State, r: int, urls: seq<Url>, saved: bool)
    requires ListsDiffer(c, s) && Different(Names(c.norm, urls))
    ensures ListsDiffer(c, Commit(s, r, urls, saved))
  {
    hide Different;
    hide ReadHead;
    var s1 := Save(Listing(s, urls), saved);
    SaveDiffers(c, Listing(s, urls), saved);
    ContinuesDiffers(c, As(s1, Reading), r);
  }

  lemma SearchDiffers(c: Config, s: State, a: Answer)
    requires Inv(c, s) && ListsDiffer(c, s) && (s.pc.Hunt? || s.pc.Select?) && Cancelling(s, a.cancel) == s
    requires PicksDiffer(c, s, Replied(a))
    ensures ListsDiffer(c, Reply(c, s, a))
  {
    hide ClaimsOk;
    hide WaitingOk;
    hide UnseenAll;
    hide Wind;
    hide Fail;
    hide Commit;
    hide Fresh;
    hide Unseen;
    hide Keep;
    hide Without;
    hide Different;
    hide Disjoint;
    hide Names;
    ContinuesDiffers(c, s, 0);
    if a.raises {
    } else if s.pc.Hunt? {
      var unseen := Unseen(c.norm, s.loop.pending, s.loop.seen);
      UnseenKeepsAll(c.norm, s.loop.pending);
      NoUnseen(c.norm, s.loop.seen);
      var first := Take(s.loop.pending, Lim(c.maxPages));
      TakeDiffers(c.norm, first, Budget(c, s.job));
      NoNames(c.norm);
      assert Take(first, Budget(c, s.job)) == Take(s.loop.pending, Budget(c, s.job));
      CommitDiffers(c, s, s.pc.r, Take(unseen, Budget(c, s.job)), a.saved);
    } else {
      PickedDiffer(c.norm, s.pc.urls, Keep(a.urls, s.pc.found), PickCount(c, s.job, s.pc.urls));
      var picked := Take(Keep(a.urls, s.pc.found), PickCount(c, s.job, s.pc.urls));
      CommitDiffers(c, s, s.pc.r, s.pc.urls + Without(picked, s.pc.urls), a.saved);
    }
  }

  lemma AnswerDiffers(c: Config, s: State, a: Answer)
    requires Inv(c, s) && ListsDiffer(c, s) && (s.pc.Entry? || s.pc.Plan? || s.pc.Notes? || s.pc.Assess?)
    requires Cancelling(s, a.cancel) == s && SeedsDiffer(c)
    ensures ListsDiffer(c, Reply(c, s, a))
  {
    hide Different;
    hide Unseen;
    hide Wind;
    hide Fail;
    hide Begin;
    hide LoopHead;
    hide RoundHead;
    hide ReadHead;
    hide ClaimsOk;
    hide WaitingOk;
    hide Bounds;
    var s1 := if s.pc.Entry? then s
              else if s.pc.Plan? then s.(loop := s.loop.(queries := Some(a.queries), pending := Unseen(c.norm, c.seeds, s.loop.seen)))
              else if s.pc.Notes? then Noted(s, s.pc.url, a.flag)
              else s.(loop := s.loop.(queries := Some(a.queries), phase := Search));
    UnseenKeepsAll(c.norm, c.seeds);
    NoNames(c.norm);
    SaveDiffers(c, s1, a.saved);
    var r := if s.pc.Assess? then s.pc.r + 1 else if s.pc.Notes? then s.pc.r else 0;
    ContinuesDiffers(c, s, r);
    ContinuesDiffers(c, Save(s1, a.saved), r);
  }

  lemma NoUnseen(norm: Url -> Key, seen: set<Key>)
    ensures Unseen(norm, [], seen) == []
  {
  }

  lemma NoNames(norm: Url -> Key)
    ensures Different(Names(norm, []))
  {
  }

  lemma PageDiffers(c: Config, s: State, a: Answer)
    requires Inv(c, s) && ListsDiffer(c, s) && (s.pc.PageTop? || s.pc.Scrape?) && Cancelling(s, a.cancel) == s
    ensures ListsDiffer(c, Reply(c, s, a))
  {
    hide Different;
    hide Wind;
    hide ReadHead;
    hide ClaimsOk;
    hide WaitingOk;
    hide Bounds;
    ContinuesDiffers(c, s, s.pc.r);
    if s.pc.Scrape? {
      var s1 := Fetched(s);
      ContinuesDiffers(c, s1, s.pc.r);
      SaveDiffers(c, s, a.saved);
      SaveDiffers(c, s1, a.saved);
      ContinuesDiffers(c, Save(s, a.saved), s.pc.r);
      ContinuesDiffers(c, Save(s1, a.saved), s.pc.r);
    }
  }

  lemma CheckDiffers(c: Config, s: State, a: Answer)
    requires ListsDiffer(c, s) && (s.pc.Top? || s.pc.AssessTop?) && Cancelling(s, a.cancel) == s
    ensures ListsDiffer(c, Reply(c, s, a))
  {
    hide ListsDiffer;
    hide Wind;
    hide Cancelling;
    ContinuesDiffers(c, s, s.pc.r);
    SilentDiffers(c, s, As(s, Planning));
    ContinuesDiffers(c, As(s, Planning), 0);
    SilentDiffers(c, s, Spend(As(s, Planning)).(pc := Assess(s.pc.r)));
    TopIsSilent(c, s, s.pc.r, a);
    HeadsDoNotSelect(c, s, s.pc.r);
    if s.pc.Top? {
      TopDoesNotSelect(c, s, s.pc.r, a);
      SilentDiffers(c, s, AtTop(c, s, s.pc.r, a));
    }
  }

  lemma TopDoesNotSelect(c: Config, s: State, r: int, a: Answer)
    ensures !AtTop(c, s, r, a).pc.Select?
  {
    hide Wind;
    HeadsDoNotSelect(c, s, r);
  }

  lemma CancellingDiffers(c: Config, s: State, request: bool)
    requires ListsDiffer(c, s)
    ensures ListsDiffer(c, Cancelling(s, request))
  {
    hide Different;
  }

  lemma EndDiffers(c: Config, s: State, a: Answer)
    requires ListsDiffer(c, s)
    requires s.pc.Synth? || s.pc.Archive? || s.pc.Cleanup? || s.pc.Done? || s.pc.Down? || s.pc.Idle? || s.pc.Gone?
    ensures ListsDiffer(c, Reply(c, s, a))
  {
    hide Different;
    CancellingDiffers(c, s, a.cancel);
  }

  lemma ReplyDiffers(c: Config, s0: State, a: Answer)
    requires Inv(c, s0) && ListsDiffer(c, s0) && SeedsDiffer(c) && PicksDiffer(c, s0, Replied(a))
    ensures ListsDiffer(c, Reply(c, s0, a))
  {
    hide Inv;
    hide ListsDiffer;
    hide Different;
    hide Disjoint;
    CancellingOk(c, s0, a.cancel);
    CancellingIsSilent(c, s0, a.cancel);
    CancellingDiffers(c, s0, a.cancel);
    hide Cancelling;
    var s := Cancelling(s0, a.cancel);
    SameReply(c, s0, a);
    hide Reply;
    match s0.pc
    case Entry => AnswerDiffers(c, s, a);
    case Plan => AnswerDiffers(c, s, a);
    case Notes(_, _) => AnswerDiffers(c, s, a);
    case Assess(_) => AnswerDiffers(c, s, a);
    case Hunt(_) => SearchDiffers(c, s, a);
    case Select(_, _, _) => SearchDiffers(c, s, a);
    case Top(_) => CheckDiffers(c, s, a);
    case AssessTop(_) => CheckDiffers(c, s, a);
    case PageTop(_) => PageDiffers(c, s, a);
    case Scrape(_, _) => PageDiffers(c, s, a);
    case _ => EndDiffers(c, s0, a);
  }

  lemma NextDiffers(c: Config, s: State, m: Move)
    requires Inv(c, s) && ListsDiffer(c, s) && SeedsDiffer(c) && PicksDiffer(c, s, m)
    ensures ListsDiffer(c, Next(c, s, m))
  {
    hide Inv;
    hide Reply;
    hide Different;
    hide PicksDiffer;
    hide Cancelling;
    match m
    case Replied(a) => ReplyDiffers(c, s, a);
    case Resume(cancel) => CancellingDiffers(c, s, cancel);
    case _ =>
  }

  lemma {:induction false} HistoryDiffers(c: Config, s: State, moves: seq<Move>)
    requires Inv(c, s) && ListsDiffer(c, s) && SeedsDiffer(c) && AllPicksDiffer(c, s, moves)
    ensures ListsDiffer(c, History(c, s, moves))
    decreases |moves|
  {
    hide Inv;
    hide Next;
    hide ListsDiffer;
    hide PicksDiffer;
    hide Different;
    if moves != [] {
      NextDiffers(c, s, moves[0]);
      NextKeeps(c, s, moves[0]);
      HistoryDiffers(c, Next(c, s, moves[0]), moves[1..]);
    }
  }

  /**
    So when the seed urls within the page budget name no page twice, no selection names a page twice or one that already waits, and every
    checkpoint is saved, each page is read at most once, through any crashes and resumes.
   */
  lemma EachPageReadOnce(c: Config, moves: seq<Move>)
    requires SeedsDiffer(c) && AllPicksDiffer(c, NewJob(), moves)
    requires History(c, NewJob(), moves).past.reliable
    ensures Different(ReadKeys(History(c, NewJob(), moves).past.begun))
  {
    hide Inv;
    hide History;
    hide Flat;
    hide Apart;
    NewJobOk(c);
    HistoryDiffers(c, NewJob(), moves);
    ReadTwiceIffListedTwice(c, moves);
    var past := History(c, NewJob(), moves).past;
    forall i | 0 <= i < |past.lists| ensures Different(Part(c.norm, past.lists, i, |past.begun|)) {
      var names := Names(c.norm, past.lists[i]);
      assert Different(names);
    }
  }
}
