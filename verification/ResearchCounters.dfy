/**
  What a research run's saved counters forget when its process dies (app/research.py:107-133): exactly how many LLM
  calls and pages, over any history, and at which control points.
 */
module ResearchCounters {
  import opened ResearchModel
  import opened ResearchProofs
  import opened ResearchReads

  // ---- the counters fall behind at restarts only ------------------------------------------

  /** A restart that brings the run back from its checkpoint. */
  predicate Restores(s: State, m: Move) { m.Restart? && s.pc.Down? && s.disk.Some? && !Terminal(s.disk.value.job.status) }

  /** What memory had counted and the checkpoint had not. */
  function CallsLost(s: State, m: Move): int { if Restores(s, m) then s.job.llm - s.disk.value.job.llm else 0 }

  function PagesLost(s: State, m: Move): int { if Restores(s, m) then s.job.pages - s.disk.value.job.pages else 0 }

  function CallsForgotten(c: Config, s: State, moves: seq<Move>): int
    decreases |moves|
  {
    if moves == [] then 0 else CallsLost(s, moves[0]) + CallsForgotten(c, Next(c, s, moves[0]), moves[1..])
  }

  function PagesForgotten(c: Config, s: State, moves: seq<Move>): int
    decreases |moves|
  {
    if moves == [] then 0 else PagesLost(s, moves[0]) + PagesForgotten(c, Next(c, s, moves[0]), moves[1..])
  }

  /** The checkpoint counts no more than memory does. */
  predicate Below(s: State) {
    s.disk.Some? ==> s.disk.value.job.llm <= s.job.llm && s.disk.value.job.pages <= s.job.pages
  }

  /** Real and counted amounts change together, and memory stays ahead of the disk. */
  predicate Together(s: State, s1: State) {
    && s1.past.calls - s1.job.llm == s.past.calls - s.job.llm
    && s1.past.fetched - s1.job.pages == s.past.fetched - s.job.pages
    && (Below(s) ==> Below(s1))
  }

  lemma ContinuesTogether(c: Config, s: State, r: int)
    ensures Together(s, Wind(s)) && Together(s, Fail(s)) && Together(s, RoundHead(c, s, r)) && Together(s, ReadHead(s, r))
    ensures Together(s, Begin(c, s)) && Together(s, LoopHead(c, s))
  {
    hide HasRelevant;
  }

  lemma CommitTogether(s: State, r: int, urls: seq<Url>, saved: bool)
    ensures Together(s, Commit(s, r, urls, saved))
  {
  }

  lemma PlannedTogether(c: Config, s: State, a: Answer)
    ensures Together(s, Planned(c, s, a))
  {
    hide Fail;
    hide Begin;
    hide Unseen;
    var s1 := Save(s.(loop := s.loop.(queries := Some(a.queries), pending := Unseen(c.norm, c.seeds, s.loop.seen))), a.saved);
    ContinuesTogether(c, s1, 0);
    ContinuesTogether(c, s, 0);
  }

  lemma HuntedTogether(c: Config, s: State, r: int, a: Answer)
    ensures Together(s, Hunted(c, s, r, a))
  {
    hide Wind;
    hide Fail;
    hide Commit;
    hide Fresh;
    hide Unseen;
    hide Take;
    ContinuesTogether(c, s, 0);
    var urls := if Budget(c, s.job) >= 0 then Take(Unseen(c.norm, s.loop.pending, s.loop.seen), Budget(c, s.job)) else [];
    CommitTogether(s, r, urls, a.saved);
  }

  lemma PageTogether(c: Config, s: State, r: int, a: Answer)
    ensures Together(s, AtPage(c, s, r, a))
  {
    hide Wind;
    ContinuesTogether(c, s, r);
  }

  lemma SavedTogether(c: Config, s: State, s1: State, r: int, saved: bool)
    requires Together(s, s1)
    ensures Together(s, ReadHead(Save(s1, saved), r)) && Together(s, Wind(s1))
  {
    hide Wind;
    hide ReadHead;
    ContinuesTogether(c, s1, r);
    ContinuesTogether(c, Save(s1, saved), r);
  }

  lemma ScrapedTogether(c: Config, s: State, r: int, url: Url, a: Answer)
    ensures Together(s, Scraped(c, s, r, url, a)) && Together(s, ReadHead(Save(Noted(s, url, a.flag), a.saved), r))
  {
    hide Wind;
    hide ReadHead;
    hide Save;
    SavedTogether(c, s, s, r, a.saved);
    SavedTogether(c, s, Fetched(s), r, a.saved);
    SavedTogether(c, s, Noted(s, url, a.flag), r, a.saved);
  }

  lemma CheckTogether(c: Config, s: State, r: int, a: Answer)
    ensures Together(s, AtTop(c, s, r, a)) && Together(s, AtAssess(c, s, r, a))
  {
    hide Wind;
    ContinuesTogether(c, s, r);
    ContinuesTogether(c, As(s, Planning), r);
  }

  lemma AssessedTogether(c: Config, s: State, r: int, a: Answer)
    ensures Together(s, Assessed(c, s, r, a))
  {
    hide Wind;
    hide Fail;
    hide RoundHead;
    ContinuesTogether(c, s, r);
    ContinuesTogether(c, Save(s.(loop := s.loop.(queries := Some(a.queries), phase := Search)), a.saved), r + 1);
  }

  lemma SelectsTogether(c: Config, s: State, r: int, found: seq<Url>, urls: seq<Url>, a: Answer)
    ensures Together(s, Selected(c, s, r, found, urls, a))
  {
    hide Wind;
    hide Commit;
    hide Keep;
    hide Without;
    hide Take;
    ContinuesTogether(c, s.(job := s.job.(error := true)), r);
    var k := PickCount(c, s.job, urls);
    var picked := if k >= 0 then Take(Keep(a.urls, found), k) else [];
    CommitTogether(s, r, urls + Without(picked, urls), a.saved);
  }

  lemma CancellingTogether(s: State, request: bool)
    ensures Together(s, Cancelling(s, request)) && Cancelling(s, request).pc == s.pc
  {
  }

  lemma TogetherTrans(s: State, s1: State, s2: State)
    requires Together(s, s1) && Together(s1, s2)
    ensures Together(s, s2)
  {
  }

  lemma ReplyTogether(c: Config, s0: State, a: Answer)
    ensures Together(s0, Reply(c, s0, a))
  {
    CancellingTogether(s0, a.cancel);
    var s := Cancelling(s0, a.cancel);
    if Live(s0.pc) {
      LiveTogether(c, s, a);
      SameReply(c, s0, a);
      TogetherTrans(s0, s, Reply(c, s, a));
    }
  }

  lemma LiveTogether(c: Config, s: State, a: Answer)
    requires Live(s.pc) && Cancelling(s, a.cancel) == s
    ensures Together(s, Reply(c, s, a))
  {
    hide Wind;
    hide Fail;
    hide Planned;
    hide AtTop;
    hide Hunted;
    hide Selected;
    hide AtPage;
    hide Scraped;
    hide AtAssess;
    hide Assessed;
    hide LoopHead;
    hide ReadHead;
    hide Cancelling;
    match s.pc
    case Entry => ContinuesTogether(c, Save(s, a.saved), 0);
    case Plan => PlannedTogether(c, s, a);
    case Hunt(r) => HuntedTogether(c, s, r, a);
    case Select(r, found, urls) => SelectsTogether(c, s, r, found, urls, a);
    case Top(r) => CheckTogether(c, s, r, a);
    case AssessTop(r) => CheckTogether(c, s, r, a);
    case PageTop(r) => PageTogether(c, s, r, a);
    case Scrape(r, url) => ScrapedTogether(c, s, r, url, a);
    case Notes(r, url) =>
      ScrapedTogether(c, s, r, url, a);
      ContinuesTogether(c, s, r);
    case Assess(r) => AssessedTogether(c, s, r, a);
    case _ =>
  }

  lemma NextForgets(c: Config, s: State, m: Move)
    ensures var s1 := Next(c, s, m);
            && s1.past.calls - s1.job.llm == s.past.calls - s.job.llm + CallsLost(s, m)
            && s1.past.fetched - s1.job.pages == s.past.fetched - s.job.pages + PagesLost(s, m)
            && (Below(s) ==> Below(s1) && CallsLost(s, m) >= 0 && PagesLost(s, m) >= 0)
  {
    hide Reply;
    if m.Replied? {
      ReplyTogether(c, s, m.answer);
    }
  }

  lemma {:induction false} HistoryForgets(c: Config, s: State, moves: seq<Move>)
    requires Below(s)
    ensures var s1 := History(c, s, moves);
            && s1.past.calls - s1.job.llm == s.past.calls - s.job.llm + CallsForgotten(c, s, moves)
            && s1.past.fetched - s1.job.pages == s.past.fetched - s.job.pages + PagesForgotten(c, s, moves)
            && CallsForgotten(c, s, moves) >= 0 && PagesForgotten(c, s, moves) >= 0
    decreases |moves|
  {
    hide Next;
    hide Below;
    hide CallsLost;
    hide PagesLost;
    if moves != [] {
      NextForgets(c, s, moves[0]);
      HistoryForgets(c, Next(c, s, moves[0]), moves[1..]);
    }
  }

  /**
    In every history, whatever is saved or not: the real LLM calls are the counted ones and, for each restart, those
    that memory had counted and the checkpoint had not; the same holds of the pages.
   */
  lemma ForgetsAtRestartsOnly(c: Config, moves: seq<Move>)
    ensures var s := History(c, NewJob(), moves);
            && s.past.calls == s.job.llm + CallsForgotten(c, NewJob(), moves)
            && s.past.fetched == s.job.pages + PagesForgotten(c, NewJob(), moves)
  {
    hide History;
    hide CallsForgotten;
    hide PagesForgotten;
    HistoryForgets(c, NewJob(), moves);
  }

  /** Every restart finds both counters saved as they were. */
  predicate RestartsFindAll(c: Config, s: State, moves: seq<Move>)
    decreases |moves|
  {
    moves == [] || (CallsLost(s, moves[0]) == 0 && PagesLost(s, moves[0]) == 0 && RestartsFindAll(c, Next(c, s, moves[0]), moves[1..]))
  }

  lemma {:induction false} SumsVanish(c: Config, s: State, moves: seq<Move>)
    requires Below(s)
    ensures CallsForgotten(c, s, moves) >= 0 && PagesForgotten(c, s, moves) >= 0
    ensures CallsForgotten(c, s, moves) == 0 && PagesForgotten(c, s, moves) == 0 <==> RestartsFindAll(c, s, moves)
    decreases |moves|
  {
    hide Next;
    hide Below;
    hide CallsLost;
    hide PagesLost;
    if moves != [] {
      NextForgets(c, s, moves[0]);
      SumsVanish(c, Next(c, s, moves[0]), moves[1..]);
    }
  }

  // ---- and by how much, from where the process died ---------------------------------------

  /** The control point the process is at, or died at, and the one from which it began to wind down. */
  datatype Trail = Trail(at: Pc, wound: Pc)

  predicate Winding(pc: Pc) { pc.Synth? || pc.Archive? || pc.Cleanup? || pc.Done? }

  function Follow(s: State, s1: State, t: Trail): Trail {
    if s1.pc.Down? || s1.pc.Gone? then t
    else Trail(s1.pc, if Winding(s1.pc) && !Winding(s.pc) then s.pc else t.wound)
  }

  /** The call whose answer made the run wind down without a checkpoint. */
  function WoundCalls(wound: Pc, l: Loop): int {
    if wound.Select? || wound.Notes? || (wound.Plan? && l.queries.None?) || (wound.Assess? && l.phase.Read?) then 1 else 0
  }

  /** One call while its answer is awaited; when winding down, the last one of the loop and the report's. */
  function CallsOwed(t: Trail, job: Job, l: Loop): int {
    if Winding(t.at) then WoundCalls(t.wound, l) + (if HasRelevant(job.sources) then 1 else 0)
    else if t.at.Plan? || t.at.Select? || t.at.Notes? || t.at.Assess? then 1 else 0
  }

  /** A page whose notes are awaited, or were not taken because they failed or the cap was reached. */
  function PagesOwed(t: Trail): int {
    if t.at.Notes? || (Winding(t.at) && (t.wound.Notes? || t.wound.Scrape?)) then 1 else 0
  }

  predicate Debts(s: State, calls: int, pages: int) {
    s.past.reliable && s.disk.Some? ==>
      s.job.llm == s.disk.value.job.llm + calls && s.job.pages == s.disk.value.job.pages + pages
  }

  predicate Owes(s: State, t: Trail) {
    && (!s.pc.Down? && !s.pc.Gone? ==> t.at == s.pc)
    && Debts(s, CallsOwed(t, s.job, s.loop), PagesOwed(t))
  }

  lemma WindOwes(s: State, t: Trail)
    requires !Winding(s.pc) && Debts(s, WoundCalls(s.pc, s.loop), if s.pc.Notes? || s.pc.Scrape? then 1 else 0)
    ensures Owes(Wind(s), Follow(s, Wind(s), t)) && Owes(Fail(s), Follow(s, Fail(s), t))
  {
    hide HasRelevant;
  }

  lemma HeadsOwe(c: Config, s: State, r: int, t: Trail)
    requires !Winding(s.pc) && Debts(s, 0, 0)
    ensures Owes(ReadHead(s, r), Follow(s, ReadHead(s, r), t))
    ensures WoundCalls(s.pc, s.loop) == 0 && !s.pc.Notes? && !s.pc.Scrape? ==>
              && Owes(RoundHead(c, s, r), Follow(s, RoundHead(c, s, r), t)) && Owes(Begin(c, s), Follow(s, Begin(c, s), t))
              && Owes(LoopHead(c, s), Follow(s, LoopHead(c, s), t))
  {
    hide Wind;
    hide WoundCalls;
    if WoundCalls(s.pc, s.loop) == 0 && !s.pc.Notes? && !s.pc.Scrape? {
      WindOwes(s, t);
      WindOwes(As(s, Planning), t);
    }
  }

  lemma SaveSettles(s: State, ok: bool)
    ensures Debts(Save(s, ok), 0, 0)
  {
  }

  lemma CommitOwes(c: Config, s: State, r: int, urls: seq<Url>, saved: bool, t: Trail)
    requires !Winding(s.pc)
    ensures Owes(Commit(s, r, urls, saved), Follow(s, Commit(s, r, urls, saved), t))
  {
    hide ReadHead;
    SaveSettles(Listing(s, urls), saved);
    HeadsOwe(c, As(Save(Listing(s, urls), saved), Reading), r, t);
  }

  lemma SearchOwes(c: Config, s: State, a: Answer, t: Trail)
    requires Owes(s, t) && (s.pc.Hunt? || s.pc.Select?) && Cancelling(s, a.cancel) == s
    ensures Owes(Reply(c, s, a), Follow(s, Reply(c, s, a), t))
  {
    hide Wind;
    hide Fail;
    hide Commit;
    hide Fresh;
    hide Unseen;
    hide Take;
    hide Keep;
    hide Without;
    hide HasRelevant;
    WindOwes(s, t);
    if s.pc.Hunt? {
      var unseen := Unseen(c.norm, s.loop.pending, s.loop.seen);
      CommitOwes(c, s, s.pc.r, if Budget(c, s.job) >= 0 then Take(unseen, Budget(c, s.job)) else [], a.saved, t);
    } else {
      var k := PickCount(c, s.job, s.pc.urls);
      var picked := if k >= 0 then Take(Keep(a.urls, s.pc.found), k) else [];
      CommitOwes(c, s, s.pc.r, s.pc.urls + Without(picked, s.pc.urls), a.saved, t);
    }
  }

  /** Awaits whose answer is followed by a checkpoint. */
  lemma AnswerOwes(c: Config, s: State, a: Answer, t: Trail)
    requires Inv(c, s) && Owes(s, t) && (s.pc.Entry? || s.pc.Plan? || s.pc.Notes? || s.pc.Assess?)
    requires Cancelling(s, a.cancel) == s
    ensures Owes(Reply(c, s, a), Follow(s, Reply(c, s, a), t))
  {
    hide Unseen;
    hide Wind;
    hide Fail;
    hide Begin;
    hide LoopHead;
    hide RoundHead;
    hide ReadHead;
    hide ClaimsOk;
    hide WaitingOk;
    hide Bounds;
    hide HasRelevant;
    var s1 := if s.pc.Entry? then s
              else if s.pc.Plan? then s.(loop := s.loop.(queries := Some(a.queries), pending := Unseen(c.norm, c.seeds, s.loop.seen)))
              else if s.pc.Notes? then Noted(s, s.pc.url, a.flag)
              else s.(loop := s.loop.(queries := Some(a.queries), phase := Search));
    var r := if s.pc.Assess? then s.pc.r + 1 else if s.pc.Notes? then s.pc.r else 0;
    SaveSettles(s1, a.saved);
    HeadsOwe(c, Save(s1, a.saved), r, t);
    if !s.pc.Entry? {
      WindOwes(s, t);
    } else {
      WindOwes(Save(s1, a.saved), t);
    }
  }

  lemma PageOwes(c: Config, s: State, a: Answer, t: Trail)
    requires Owes(s, t) && (s.pc.PageTop? || s.pc.Scrape?) && Cancelling(s, a.cancel) == s
    ensures Owes(Reply(c, s, a), Follow(s, Reply(c, s, a), t))
  {
    hide Wind;
    hide ReadHead;
    hide HasRelevant;
    if s.pc.PageTop? {
      WindOwes(s, t);
    } else {
      WindOwes(Fetched(s), t);
      SaveSettles(s, a.saved);
      SaveSettles(Fetched(s), a.saved);
      HeadsOwe(c, Save(s, a.saved), s.pc.r, t);
      HeadsOwe(c, Save(Fetched(s), a.saved), s.pc.r, t);
    }
  }

  lemma CheckOwes(c: Config, s: State, a: Answer, t: Trail)
    requires Owes(s, t) && (s.pc.Top? || s.pc.AssessTop?) && Cancelling(s, a.cancel) == s
    ensures Owes(Reply(c, s, a), Follow(s, Reply(c, s, a), t))
  {
    hide Wind;
    hide Cancelling;
    hide HasRelevant;
    WindOwes(s, t);
    WindOwes(As(s, Planning), t);
  }

  lemma EndOwes(c: Config, s: State, a: Answer, t: Trail)
    requires Owes(s, t) && (Winding(s.pc) || s.pc.Down? || s.pc.Idle? || s.pc.Gone?)
    ensures Owes(Reply(c, s, a), Follow(s, Reply(c, s, a), t))
  {
    hide HasRelevant;
  }

  lemma CancellingOwes(s: State, request: bool, t: Trail)
    requires Owes(s, t)
    ensures Owes(Cancelling(s, request), t)
  {
    hide HasRelevant;
  }

  lemma ReplyOwes(c: Config, s0: State, a: Answer, t: Trail)
    requires Inv(c, s0) && Owes(s0, t)
    ensures Owes(Reply(c, s0, a), Follow(s0, Reply(c, s0, a), t))
  {
    hide Inv;
    hide Owes;
    CancellingOk(c, s0, a.cancel);
    CancellingIsSilent(c, s0, a.cancel);
    CancellingOwes(s0, a.cancel, t);
    hide Cancelling;
    var s := Cancelling(s0, a.cancel);
    SameReply(c, s0, a);
    hide Reply;
    match s0.pc
    case Entry => AnswerOwes(c, s, a, t);
    case Plan => AnswerOwes(c, s, a, t);
    case Notes(_, _) => AnswerOwes(c, s, a, t);
    case Assess(_) => AnswerOwes(c, s, a, t);
    case Hunt(_) => SearchOwes(c, s, a, t);
    case Select(_, _, _) => SearchOwes(c, s, a, t);
    case Top(_) => CheckOwes(c, s, a, t);
    case AssessTop(_) => CheckOwes(c, s, a, t);
    case PageTop(_) => PageOwes(c, s, a, t);
    case Scrape(_, _) => PageOwes(c, s, a, t);
    case _ => EndOwes(c, s0, a, t);
  }

  lemma NextOwes(c: Config, s: State, m: Move, t: Trail)
    requires Inv(c, s) && Owes(s, t)
    ensures Owes(Next(c, s, m), Follow(s, Next(c, s, m), t))
  {
    hide Inv;
    hide Reply;
    hide HasRelevant;
    match m
    case Replied(a) => ReplyOwes(c, s, a, t);
    case _ =>
  }

  /** Every restart follows a crash at a point that owes nothing. */
  predicate CrashesOweNothing(c: Config, s: State, moves: seq<Move>, t: Trail)
    decreases |moves|
  {
    moves == [] ||
    (var s1 := Next(c, s, moves[0]);
     && (Restores(s, moves[0]) ==> CallsOwed(t, s.job, s.loop) == 0 && PagesOwed(t) == 0)
     && CrashesOweNothing(c, s1, moves[1..], Follow(s, s1, t)))
  }

  /** What the points of the crashes owe, restart by restart. */
  function OwedCalls(c: Config, s: State, moves: seq<Move>, t: Trail): int
    decreases |moves|
  {
    if moves == [] then 0
    else
      var s1 := Next(c, s, moves[0]);
      (if Restores(s, moves[0]) then CallsOwed(t, s.job, s.loop) else 0) + OwedCalls(c, s1, moves[1..], Follow(s, s1, t))
  }

  function OwedPages(c: Config, s: State, moves: seq<Move>, t: Trail): int
    decreases |moves|
  {
    if moves == [] then 0
    else
      var s1 := Next(c, s, moves[0]);
      (if Restores(s, moves[0]) then PagesOwed(t) else 0) + OwedPages(c, s1, moves[1..], Follow(s, s1, t))
  }

  lemma LossIsDebt(s: State, m: Move, t: Trail)
    requires Owes(s, t) && s.past.reliable
    ensures CallsLost(s, m) == if Restores(s, m) then CallsOwed(t, s.job, s.loop) else 0
    ensures PagesLost(s, m) == if Restores(s, m) then PagesOwed(t) else 0
  {
    hide CallsOwed;
    hide PagesOwed;
  }

  lemma ReliableBefore(c: Config, s: State, m: Move)
    ensures Next(c, s, m).past.reliable ==> s.past.reliable
  {
    hide Reply;
    if m.Replied? {
      ReplyKeepsDoubt(c, s, m.answer);
    }
  }

  lemma ReplyKeepsDoubt(c: Config, s: State, a: Answer)
    ensures Reply(c, s, a).past.reliable ==> s.past.reliable
  {
    hide HasRelevant;
    hide Fresh;
    hide Unseen;
    hide Take;
    hide Keep;
    hide Without;
  }

  lemma {:induction false} HistoryKeepsDoubt(c: Config, s: State, moves: seq<Move>)
    ensures History(c, s, moves).past.reliable ==> s.past.reliable
    decreases |moves|
  {
    hide Next;
    if moves != [] {
      ReliableBefore(c, s, moves[0]);
      HistoryKeepsDoubt(c, Next(c, s, moves[0]), moves[1..]);
    }
  }

  lemma {:induction false} HistoryOwes(c: Config, s: State, moves: seq<Move>, t: Trail)
    requires Inv(c, s) && Owes(s, t) && History(c, s, moves).past.reliable
    ensures CallsForgotten(c, s, moves) == OwedCalls(c, s, moves, t) && PagesForgotten(c, s, moves) == OwedPages(c, s, moves, t)
    ensures RestartsFindAll(c, s, moves) <==> CrashesOweNothing(c, s, moves, t)
    decreases |moves|
  {
    hide Inv;
    hide Owes;
    hide Next;
    hide CallsLost;
    hide PagesLost;
    hide CallsOwed;
    hide PagesOwed;
    hide Follow;
    if moves != [] {
      var s1 := Next(c, s, moves[0]);
      HistoryKeepsDoubt(c, s, moves);
      LossIsDebt(s, moves[0], t);
      NextKeeps(c, s, moves[0]);
      NextOwes(c, s, moves[0], t);
      HistoryOwes(c, s1, moves[1..], Follow(s, s1, t));
    }
  }

  /**
    With every checkpoint saved, what is forgotten is decided by the control points of the crashes: a call for a crash
    while an answer is awaited, a page for one while its notes are; and for one while the run winds down, what the loop
    had not saved by then, and the report's call.  Nothing is forgotten if and only if no restart follows such a crash.
   */
  lemma ForgetsByControlPoint(c: Config, moves: seq<Move>)
    requires History(c, NewJob(), moves).past.reliable
    ensures var s := History(c, NewJob(), moves);
            && s.past.calls == s.job.llm + OwedCalls(c, NewJob(), moves, Trail(Entry, Entry))
            && s.past.fetched == s.job.pages + OwedPages(c, NewJob(), moves, Trail(Entry, Entry))
            && (s.past.calls == s.job.llm && s.past.fetched == s.job.pages <==>
                  CrashesOweNothing(c, NewJob(), moves, Trail(Entry, Entry)))
  {
    hide History;
    hide CallsForgotten;
    hide PagesForgotten;
    hide RestartsFindAll;
    hide CrashesOweNothing;
    hide OwedCalls;
    hide OwedPages;
    hide Inv;
    NewJobOk(c);
    ForgetsAtRestartsOnly(c, moves);
    SumsVanish(c, NewJob(), moves);
    HistoryOwes(c, NewJob(), moves, Trail(Entry, Entry));
  }

  // ---- how many pages there can be at all -------------------------------------------------

  predicate RoundOk(past: Past, l: Loop) {
    && |past.lists| <= l.round
    && (l.phase.Search? && past.lists != [] ==> l.pending == [])
    && (l.queries.None? ==> past.lists == [])
  }

  function Min(a: int, b: int): int { if a < b then a else b }

  /** The first list has at most the page budget, every later one at most the picks of a round too. */
  predicate SizesOk(c: Config, lists: seq<seq<Url>>) {
    forall i :: 0 <= i < |lists| ==> |lists[i]| <= if i == 0 then Lim(c.maxPages) else Min(PICK_PER_ROUND, Lim(c.maxPages))
  }

  /** No list of this round is committed yet. */
  predicate BeforeList(s: State) {
    match s.pc
    case Top(r) => s.loop.phase.Search? ==> |s.past.lists| < r
    case Hunt(r) => |s.past.lists| < r
    case Select(r, _, urls) => |s.past.lists| < r && (s.past.lists != [] ==> urls == [])
    case _ => true
  }

  /** With every checkpoint saved each round commits one list at most. */
  predicate OneListEach(c: Config, s: State) {
    s.past.reliable ==>
      && SizesOk(c, s.past.lists) && |s.past.lists| <= Lim(c.maxRounds)
      && RoundOk(s.past, s.loop) && (s.disk.Some? ==> RoundOk(s.past, s.disk.value.loop))
      && BeforeList(s)
  }

  lemma HeadsList(c: Config, s: State, r: int)
    requires OneListEach(c, s)
    ensures OneListEach(c, Wind(s)) && OneListEach(c, Fail(s)) && OneListEach(c, ReadHead(s, r))
    ensures (s.loop.phase.Search? ==> s.loop.round < r) ==> OneListEach(c, RoundHead(c, s, r))
    ensures OneListEach(c, Begin(c, s)) && OneListEach(c, LoopHead(c, s))
  {
    hide HasRelevant;
    hide SizesOk;
  }

  lemma SaveLists(c: Config, s: State, ok: bool)
    requires OneListEach(c, s.(disk := None))
    ensures OneListEach(c, Save(s, ok))
  {
    hide SizesOk;
  }

  lemma ListingLists(c: Config, s: State, urls: seq<Url>)
    requires OneListEach(c, s) && |s.past.lists| < s.loop.round <= c.maxRounds && s.loop.queries.Some?
    requires s.past.reliable ==> |urls| <= if s.past.lists == [] then Lim(c.maxPages) else Min(PICK_PER_ROUND, Lim(c.maxPages))
    ensures OneListEach(c, Listing(s, urls).(disk := None, pc := AssessTop(0)))
  {
  }

  lemma CommitLists(c: Config, s: State, r: int, urls: seq<Url>, saved: bool)
    requires OneListEach(c, s) && (s.past.reliable ==> |s.past.lists| < r) && r == s.loop.round <= c.maxRounds && s.loop.queries.Some?
    requires s.past.reliable ==> |urls| <= if s.past.lists == [] then Lim(c.maxPages) else Min(PICK_PER_ROUND, Lim(c.maxPages))
    ensures OneListEach(c, Commit(s, r, urls, saved))
  {
    hide SizesOk;
    if s.past.reliable {
      ListingLists(c, s, urls);
      var s1 := Save(Listing(s, urls), saved);
      SaveLists(c, Listing(s, urls).(pc := AssessTop(0)), saved);
      HeadsList(c, As(s1, Reading).(pc := AssessTop(0)), r);
    }
  }

  lemma SearchLists(c: Config, s: State, a: Answer)
    requires Inv(c, s) && OneListEach(c, s) && (s.pc.Hunt? || s.pc.Select?) && Cancelling(s, a.cancel) == s
    ensures OneListEach(c, Reply(c, s, a))
  {
    hide SizesOk;
    hide ClaimsOk;
    hide WaitingOk;
    hide UnseenAll;
    hide Wind;
    hide Fail;
    hide Commit;
    hide Fresh;
    hide Unseen;
    hide Keep;
    hide Without;
    HeadsList(c, s, 0);
    if a.raises {
    } else if s.pc.Hunt? {
      var unseen := Unseen(c.norm, s.loop.pending, s.loop.seen);
      CommitLists(c, s, s.pc.r, Take(unseen, Budget(c, s.job)), a.saved);
    } else {
      var picked := Take(Keep(a.urls, s.pc.found), PickCount(c, s.job, s.pc.urls));
      CommitLists(c, s, s.pc.r, s.pc.urls + Without(picked, s.pc.urls), a.saved);
    }
  }

  /** Awaits whose answer is followed by a checkpoint. */
  lemma AnswerLists(c: Config, s: State, a: Answer)
    requires Inv(c, s) && OneListEach(c, s) && (s.pc.Entry? || s.pc.Plan? || s.pc.Notes? || s.pc.Assess?)
    requires Cancelling(s, a.cancel) == s
    ensures OneListEach(c, Reply(c, s, a))
  {
    hide SizesOk;
    hide Unseen;
    hide Wind;
    hide Fail;
    hide Begin;
    hide LoopHead;
    hide RoundHead;
    hide ReadHead;
    hide ClaimsOk;
    hide WaitingOk;
    hide Bounds;
    var s1 := if s.pc.Entry? then s
              else if s.pc.Plan? then s.(loop := s.loop.(queries := Some(a.queries), pending := Unseen(c.norm, c.seeds, s.loop.seen)))
              else if s.pc.Notes? then Noted(s, s.pc.url, a.flag)
              else s.(loop := s.loop.(queries := Some(a.queries), phase := Search));
    var r := if s.pc.Assess? then s.pc.r + 1 else if s.pc.Notes? then s.pc.r else 0;
    SaveLists(c, s1, a.saved);
    HeadsList(c, s, r);
    HeadsList(c, Save(s1, a.saved), r);
  }

  lemma PageLists(c: Config, s: State, a: Answer)
    requires Inv(c, s) && OneListEach(c, s) && (s.pc.PageTop? || s.pc.Scrape?) && Cancelling(s, a.cancel) == s
    ensures OneListEach(c, Reply(c, s, a))
  {
    hide SizesOk;
    hide Wind;
    hide ReadHead;
    hide ClaimsOk;
    hide WaitingOk;
    hide Bounds;
    HeadsList(c, s, s.pc.r);
    if s.pc.Scrape? {
      HeadsList(c, Fetched(s), s.pc.r);
      SaveLists(c, s, a.saved);
      SaveLists(c, Fetched(s), a.saved);
      HeadsList(c, Save(s, a.saved), s.pc.r);
      HeadsList(c, Save(Fetched(s), a.saved), s.pc.r);
    }
  }

  lemma CheckLists(c: Config, s: State, a: Answer)
    requires Inv(c, s) && OneListEach(c, s) && (s.pc.Top? || s.pc.AssessTop?) && Cancelling(s, a.cancel) == s
    ensures OneListEach(c, Reply(c, s, a))
  {
    hide SizesOk;
    hide Wind;
    hide Cancelling;
    hide ClaimsOk;
    hide WaitingOk;
    hide Bounds;
    HeadsList(c, s, 0);
    HeadsList(c, As(s, Planning), 0);
  }

  lemma EndLists(c: Config, s: State, a: Answer)
    requires OneListEach(c, s) && (Winding(s.pc) || s.pc.Down? || s.pc.Idle? || s.pc.Gone?)
    ensures OneListEach(c, Reply(c, s, a))
  {
    hide SizesOk;
  }

  lemma CancellingLists(c: Config, s: State, request: bool)
    requires OneListEach(c, s)
    ensures OneListEach(c, Cancelling(s, request))
  {
    hide SizesOk;
  }

  lemma ReplyLists(c: Config, s0: State, a: Answer)
    requires Inv(c, s0) && OneListEach(c, s0)
    ensures OneListEach(c, Reply(c, s0, a))
  {
    hide Inv;
    hide OneListEach;
    CancellingOk(c, s0, a.cancel);
    CancellingIsSilent(c, s0, a.cancel);
    CancellingLists(c, s0, a.cancel);
    hide Cancelling;
    var s := Cancelling(s0, a.cancel);
    SameReply(c, s0, a);
    hide Reply;
    match s0.pc
    case Entry => AnswerLists(c, s, a);
    case Plan => AnswerLists(c, s, a);
    case Notes(_, _) => AnswerLists(c, s, a);
    case Assess(_) => AnswerLists(c, s, a);
    case Hunt(_) => SearchLists(c, s, a);
    case Select(_, _, _) => SearchLists(c, s, a);
    case Top(_) => CheckLists(c, s, a);
    case AssessTop(_) => CheckLists(c, s, a);
    case PageTop(_) => PageLists(c, s, a);
    case Scrape(_, _) => PageLists(c, s, a);
    case _ => EndLists(c, s0, a);
  }

  lemma NextLists(c: Config, s: State, m: Move)
    requires Inv(c, s) && OneListEach(c, s)
    ensures OneListEach(c, Next(c, s, m))
  {
    hide Inv;
    hide Reply;
    hide SizesOk;
    match m
    case Replied(a) => ReplyLists(c, s, a);
    case _ =>
  }

  lemma {:induction false} HistoryLists(c: Config, s: State, moves: seq<Move>)
    requires Inv(c, s) && OneListEach(c, s)
    ensures OneListEach(c, History(c, s, moves))
    decreases |moves|
  {
    hide Inv;
    hide OneListEach;
    hide Next;
    if moves != [] {
      NextKeeps(c, s, moves[0]);
      NextLists(c, s, moves[0]);
      HistoryLists(c, Next(c, s, moves[0]), moves[1..]);
    }
  }

  /** Every page fetched was begun before. */
  predicate BegunFirst(s: State) { s.past.fetched + (if s.pc.Scrape? then 1 else 0) <= |s.past.begun| }

  lemma HeadsBegin(c: Config, s: State, r: int)
    requires s.past.fetched <= |s.past.begun|
    ensures BegunFirst(Wind(s)) && BegunFirst(Fail(s)) && BegunFirst(ReadHead(s, r)) && BegunFirst(RoundHead(c, s, r))
    ensures BegunFirst(Begin(c, s)) && BegunFirst(LoopHead(c, s))
  {
    hide HasRelevant;
  }

  lemma CommitBegins(s: State, r: int, urls: seq<Url>, saved: bool)
    requires s.past.fetched <= |s.past.begun|
    ensures BegunFirst(Commit(s, r, urls, saved))
  {
  }

  lemma SearchBegins(c: Config, s: State, a: Answer)
    requires BegunFirst(s) && (s.pc.Hunt? || s.pc.Select?) && Cancelling(s, a.cancel) == s
    ensures BegunFirst(Reply(c, s, a))
  {
    hide Wind;
    hide Fail;
    hide Commit;
    hide Fresh;
    hide Unseen;
    hide Take;
    hide Keep;
    hide Without;
    HeadsBegin(c, s, 0);
    if s.pc.Hunt? {
      var unseen := Unseen(c.norm, s.loop.pending, s.loop.seen);
      CommitBegins(s, s.pc.r, if Budget(c, s.job) >= 0 then Take(unseen, Budget(c, s.job)) else [], a.saved);
    } else {
      var k := PickCount(c, s.job, s.pc.urls);
      var picked := if k >= 0 then Take(Keep(a.urls, s.pc.found), k) else [];
      CommitBegins(s, s.pc.r, s.pc.urls + Without(picked, s.pc.urls), a.saved);
    }
  }

  lemma AnswerBegins(c: Config, s: State, a: Answer)
    requires BegunFirst(s) && (s.pc.Entry? || s.pc.Plan? || s.pc.Notes? || s.pc.Assess?) && Cancelling(s, a.cancel) == s
    ensures BegunFirst(Reply(c, s, a))
  {
    hide Unseen;
    hide Wind;
    hide Fail;
    hide Begin;
    hide LoopHead;
    hide RoundHead;
    hide ReadHead;
    var s1 := if s.pc.Entry? then s
              else if s.pc.Plan? then s.(loop := s.loop.(queries := Some(a.queries), pending := Unseen(c.norm, c.seeds, s.loop.seen)))
              else if s.pc.Notes? then Noted(s, s.pc.url, a.flag)
              else s.(loop := s.loop.(queries := Some(a.queries), phase := Search));
    var r := if s.pc.Assess? then s.pc.r + 1 else if s.pc.Notes? then s.pc.r else 0;
    HeadsBegin(c, s, r);
    HeadsBegin(c, Save(s1, a.saved), r);
  }

  lemma PageBegins(c: Config, s: State, a: Answer)
    requires BegunFirst(s) && (s.pc.PageTop? || s.pc.Scrape? || s.pc.Top? || s.pc.AssessTop?) && Cancelling(s, a.cancel) == s
    ensures BegunFirst(Reply(c, s, a))
  {
    hide Wind;
    hide ReadHead;
    hide Cancelling;
    HeadsBegin(c, s, s.pc.r);
    if s.pc.Scrape? {
      HeadsBegin(c, Fetched(s), s.pc.r);
      HeadsBegin(c, Save(s, a.saved), s.pc.r);
      HeadsBegin(c, Save(Fetched(s), a.saved), s.pc.r);
    } else if s.pc.Top? {
      HeadsBegin(c, As(s.(job := s.job.(rounds := Max(s.job.rounds, s.pc.r)), loop := s.loop.(round := s.pc.r)), Reading), s.pc.r);
    } else if s.pc.AssessTop? {
      HeadsBegin(c, As(s, Planning), 0);
    }
  }

  lemma CancellingBegins(s: State, request: bool)
    requires BegunFirst(s)
    ensures BegunFirst(Cancelling(s, request))
  {
  }

  lemma ReplyBegins(c: Config, s0: State, a: Answer)
    requires BegunFirst(s0)
    ensures BegunFirst(Reply(c, s0, a))
  {
    hide BegunFirst;
    CancellingIsSilent(c, s0, a.cancel);
    CancellingBegins(s0, a.cancel);
    hide Cancelling;
    var s := Cancelling(s0, a.cancel);
    SameReply(c, s0, a);
    hide Reply;
    match s0.pc
    case Entry => AnswerBegins(c, s, a);
    case Plan => AnswerBegins(c, s, a);
    case Notes(_, _) => AnswerBegins(c, s, a);
    case Assess(_) => AnswerBegins(c, s, a);
    case Hunt(_) => SearchBegins(c, s, a);
    case Select(_, _, _) => SearchBegins(c, s, a);
    case Top(_) => PageBegins(c, s, a);
    case AssessTop(_) => PageBegins(c, s, a);
    case PageTop(_) => PageBegins(c, s, a);
    case Scrape(_, _) => PageBegins(c, s, a);
    case _ => EndBegins(c, s0, a);
  }

  lemma EndBegins(c: Config, s: State, a: Answer)
    requires BegunFirst(s) && (Winding(s.pc) || s.pc.Down? || s.pc.Idle? || s.pc.Gone?)
    ensures BegunFirst(Reply(c, s, a))
  {
  }

  lemma NextBegins(c: Config, s: State, m: Move)
    requires BegunFirst(s)
    ensures BegunFirst(Next(c, s, m))
  {
    hide Reply;
    if m.Replied? {
      ReplyBegins(c, s, m.answer);
    }
  }

  lemma {:induction false} HistoryBegins(c: Config, s: State, moves: seq<Move>)
    requires BegunFirst(s)
    ensures BegunFirst(History(c, s, moves))
    decreases |moves|
  {
    hide BegunFirst;
    hide Next;
    if moves != [] {
      NextBegins(c, s, moves[0]);
      HistoryBegins(c, Next(c, s, moves[0]), moves[1..]);
    }
  }

  lemma {:induction false} FlatSize(c: Config, lists: seq<seq<Url>>)
    requires SizesOk(c, lists)
    ensures |Flat(c.norm, lists)| <=
            if lists == [] then 0 else Lim(c.maxPages) + Min(PICK_PER_ROUND, Lim(c.maxPages)) * (|lists| - 1)
  {
    if lists != [] {
      var front := lists[..|lists| - 1];
      assert forall i :: 0 <= i < |front| ==> front[i] == lists[i];
      FlatSize(c, front);
      OneMoreTime(Min(PICK_PER_ROUND, Lim(c.maxPages)), |lists| - 1);
    }
  }

  lemma OneMoreTime(m: int, n: int)
    ensures m * (n - 1) + m == m * n
  {
  }

  lemma TimesGrows(m: int, a: int, b: int)
    requires m >= 0 && a <= b
    ensures m * a <= m * b
  {
  }

  /** What n crashes can add to the page budget: a page each, and no more than the later rounds can list. */
  function MostPages(c: Config, n: int): int {
    Lim(c.maxPages) + Min(n, Min(PICK_PER_ROUND, Lim(c.maxPages)) * Lim(c.maxRounds - 1))
  }

  /** With every checkpoint saved, n crashes let a run fetch at most `MostPages` pages. */
  lemma PagesBounded(c: Config, moves: seq<Move>)
    requires History(c, NewJob(), moves).past.reliable
    ensures var past := History(c, NewJob(), moves).past;
            past.fetched <= MostPages(c, past.crashes)
  {
    hide History;
    hide Inv;
    hide Flat;
    hide Apart;
    NewJobOk(c);
    NewJobOrdered(c);
    RealHistory(c, moves);
    HistoryOrders(c, NewJob(), moves);
    HistoryLists(c, NewJob(), moves);
    HistoryBegins(c, NewJob(), moves);
    var past := History(c, NewJob(), moves).past;
    var m := Min(PICK_PER_ROUND, Lim(c.maxPages));
    FlatSize(c, past.lists);
    if past.lists != [] {
      TimesGrows(m, |past.lists| - 1, Lim(c.maxRounds - 1));
    } else {
      TimesGrows(m, 0, Lim(c.maxRounds - 1));
    }
  }
}
