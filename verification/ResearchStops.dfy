/**
  When a research run stops and when it goes on: a cancel or the deadline lets at most the step in flight finish, and
  at every decision the run goes on exactly under the stated conditions.
 */
module ResearchStops {
  import opened ResearchModel
  import opened ResearchProofs
  import opened ResearchRuns

  // ---- a cancelled run, and one past its deadline -------------------------------------------

  /** The next LLM calls that can still be made, the synthesis included, once a run is to stop. */
  function CallsLeft(s: State): nat {
    match s.pc
    case Entry => if s.loop.queries.None? then 2 else 1
    case Hunt(_) => 2
    case Scrape(_, _) => 2
    case Plan => 1
    case Top(_) => 1
    case Select(_, _, _) => 1
    case PageTop(_) => 1
    case Notes(_, _) => 1
    case AssessTop(_) => 1
    case Assess(_) => 1
    case _ => 0
  }

  /** The page being scraped is counted when its scrape returns. */
  function PagesLeft(s: State): nat { if s.pc.Scrape? then 1 else 0 }

  /** The list of a search in flight is still written down, but not read. */
  function ListsLeft(s: State): nat { if s.pc.Hunt? || s.pc.Select? then 1 else 0 }

  /** No claim is begun between the two, and what else happened fits what was left. */
  predicate OnlyWhatWasLeft(s: State, s': State) {
    && s'.past.begun == s.past.begun
    && s.past.calls <= s'.past.calls && s'.past.calls + CallsLeft(s') <= s.past.calls + CallsLeft(s)
    && s.past.fetched <= s'.past.fetched && s'.past.fetched + PagesLeft(s') <= s.past.fetched + PagesLeft(s)
    && s.past.lists <= s'.past.lists && |s'.past.lists| + ListsLeft(s') <= |s.past.lists| + ListsLeft(s)
  }

  /** Searching, reading and assessing all begin at one of these awaits. */
  predicate Working(pc: Pc) { pc.Hunt? || pc.Scrape? || pc.Assess? }

  lemma WindLeaves(s: State)
    ensures var s' := Wind(s);
            && s'.past == s.past.(calls := s'.past.calls) && s'.job.cancel == s.job.cancel && s'.loop == s.loop && s'.disk == s.disk
            && s'.past.calls == s.past.calls + (if s'.pc.Synth? then 1 else 0)
            && (s'.pc.Synth? || s'.pc.Archive?)
            && (s'.pc.Synth? <==> exists i :: 0 <= i < |s.job.sources| && s.job.sources[i].relevant)
  {
  }

  lemma ReplyStops(c: Config, s: State, a: Answer)
    requires s.job.cancel || a.expired
    ensures var s' := Reply(c, s, a);
            OnlyWhatWasLeft(s, s') && (s.job.cancel ==> s'.job.cancel) && (Working(s'.pc) ==> s' == s)
  {
    hide Wind;
    hide HasRelevant;
    hide Fresh;
    hide Unseen;
    hide Keep;
    hide Without;
    match s.pc
    case Entry => EntryStops(c, s, a);
    case Hunt(_) => HuntStops(c, s, a);
    case Select(_, _, _) => SelectStops(c, s, a);
    case Scrape(_, _) => ScrapeStops(c, s, a);
    case Notes(_, _) => NotesStops(c, s, a);
    case Plan => PlanStops(c, s, a);
    case Assess(_) => AssessStops(c, s, a);
    case Top(_) => CheckStops(c, s, a);
    case PageTop(_) => CheckStops(c, s, a);
    case AssessTop(_) => CheckStops(c, s, a);
    case _ =>
  }

  lemma EntryStops(c: Config, s: State, a: Answer)
    requires s.pc.Entry? && (s.job.cancel || a.expired)
    ensures var s' := Reply(c, s, a); OnlyWhatWasLeft(s, s') && (s.job.cancel ==> s'.job.cancel) && !Working(s'.pc)
  {
    hide Wind;
    var s1 := Save(Cancelling(s, a.cancel), a.saved);
    WindLeaves(s1);
    WindLeaves(As(s1, Planning));
  }

  lemma HuntStops(c: Config, s: State, a: Answer)
    requires s.pc.Hunt?
    ensures var s' := Reply(c, s, a); OnlyWhatWasLeft(s, s') && (s.job.cancel ==> s'.job.cancel) && !Working(s'.pc)
  {
    hide HasRelevant;
    hide Fresh;
    hide Unseen;
    hide Take;
  }

  lemma SelectStops(c: Config, s: State, a: Answer)
    requires s.pc.Select?
    ensures var s' := Reply(c, s, a); OnlyWhatWasLeft(s, s') && (s.job.cancel ==> s'.job.cancel) && !Working(s'.pc)
  {
    hide HasRelevant;
    hide Keep;
    hide Without;
    hide Take;
  }

  /** What a scrape in flight comes to: the page is counted, and the notes or the report are the next call. */
  predicate FinishesPage(s: State, s': State) {
    && s'.past.begun == s.past.begun && s'.past.lists == s.past.lists
    && s.past.fetched <= s'.past.fetched <= s.past.fetched + 1
    && s'.past.calls == s.past.calls + (if s'.pc.Notes? || s'.pc.Synth? then 1 else 0)
    && (s'.pc.AssessTop? || s'.pc.PageTop? || s'.pc.Notes? || s'.pc.Synth? || s'.pc.Archive?)
    && (s.job.cancel ==> s'.job.cancel)
  }

  lemma ScrapeFinishes(c: Config, s: State, a: Answer)
    requires s.pc.Scrape?
    ensures FinishesPage(s, Reply(c, s, a))
  {
    hide HasRelevant;
  }

  lemma ScrapeStops(c: Config, s: State, a: Answer)
    requires s.pc.Scrape?
    ensures var s' := Reply(c, s, a); OnlyWhatWasLeft(s, s') && (s.job.cancel ==> s'.job.cancel) && !Working(s'.pc)
  {
    hide Reply;
    ScrapeFinishes(c, s, a);
  }

  lemma NotesStops(c: Config, s: State, a: Answer)
    requires s.pc.Notes?
    ensures var s' := Reply(c, s, a); OnlyWhatWasLeft(s, s') && (s.job.cancel ==> s'.job.cancel) && !Working(s'.pc)
  {
    hide HasRelevant;
    hide Unseen;
  }

  lemma PlanStops(c: Config, s: State, a: Answer)
    requires s.pc.Plan?
    ensures var s' := Reply(c, s, a); OnlyWhatWasLeft(s, s') && (s.job.cancel ==> s'.job.cancel) && !Working(s'.pc)
  {
    hide Wind;
    hide Unseen;
    var s1 := Cancelling(s, a.cancel);
    WindLeaves(s1.(job := s1.job.(error := true)));
    WindLeaves(Save(s1.(loop := s1.loop.(queries := Some(a.queries), pending := Unseen(c.norm, c.seeds, s1.loop.seen))), a.saved));
  }

  lemma AssessStops(c: Config, s: State, a: Answer)
    requires s.pc.Assess?
    ensures var s' := Reply(c, s, a); OnlyWhatWasLeft(s, s') && (s.job.cancel ==> s'.job.cancel) && !Working(s'.pc)
  {
    hide Wind;
    var s1 := Cancelling(s, a.cancel);
    WindLeaves(s1);
    WindLeaves(s1.(job := s1.job.(error := true)));
    WindLeaves(Save(s1.(loop := s1.loop.(queries := Some(a.queries), phase := Search)), a.saved));
  }

  lemma CheckStops(c: Config, s: State, a: Answer)
    requires (s.pc.Top? || s.pc.PageTop? || s.pc.AssessTop?) && (s.job.cancel || a.expired)
    ensures var s' := Reply(c, s, a); OnlyWhatWasLeft(s, s') && (s.job.cancel ==> s'.job.cancel) && !Working(s'.pc)
  {
    hide HasRelevant;
    hide Claimed;
  }

  /** The stop is requested, or every answer finds the deadline passed. */
  predicate Stopping(s: State, answers: seq<Answer>) {
    s.job.cancel || forall i :: 0 <= i < |answers| ==> answers[i].expired
  }

  lemma {:induction false} RepliesStop(c: Config, s: State, answers: seq<Answer>)
    requires Stopping(s, answers)
    ensures var s' := Replies(c, s, answers);
            OnlyWhatWasLeft(s, s') && (s.job.cancel ==> s'.job.cancel) && (Working(s'.pc) ==> s' == s)
    decreases |answers|
  {
    hide Reply;
    hide OnlyWhatWasLeft;
    hide Working;
    if answers == [] {
      NothingLeft(s);
    } else {
      var mid := Reply(c, s, answers[0]);
      ReplyStops(c, s, answers[0]);
      RepliesStop(c, mid, answers[1..]);
      LeftJoins(s, mid, Replies(c, mid, answers[1..]));
    }
  }

  lemma NothingLeft(s: State)
    ensures OnlyWhatWasLeft(s, s)
  {
  }

  lemma LeftJoins(s: State, mid: State, s': State)
    requires OnlyWhatWasLeft(s, mid) && OnlyWhatWasLeft(mid, s')
    ensures OnlyWhatWasLeft(s, s')
  {
  }

  /**
    A run that is cancelled, at any point of any history, begins no search, no page and no assessment any more, for
    as long as its process lives: what it still does is at most to finish the await in flight, with the one call and
    the one page that may follow from it, and to synthesize.  So does a run whose deadline has passed.
   */
  lemma StopsForGood(c: Config, moves: seq<Move>, answers: seq<Answer>)
    requires Stopping(History(c, NewJob(), moves), answers)
    ensures var s, s' := History(c, NewJob(), moves), Replies(c, History(c, NewJob(), moves), answers);
            && s'.past.begun == s.past.begun
            && s'.past.calls <= s.past.calls + 2
            && (s'.past.calls == s.past.calls + 2 ==> s.pc.Hunt? || s.pc.Scrape? || (s.pc.Entry? && s.loop.queries.None?))
            && s'.past.fetched <= s.past.fetched + (if s.pc.Scrape? then 1 else 0)
            && |s'.past.lists| <= |s.past.lists| + (if s.pc.Hunt? || s.pc.Select? then 1 else 0)
            && (s'.pc.Hunt? || s'.pc.Scrape? || s'.pc.Assess? ==> s' == s)
  {
    hide Replies;
    hide History;
    RepliesStop(c, History(c, NewJob(), moves), answers);
  }

  /** And a cancelled run that is not killed ends: with its report, and as cancelled unless it failed. */
  lemma CancelledEnds(c: Config, s: State, answers: seq<Answer>)
    requires Inv(c, s) && s.job.cancel && Replies(c, s, answers).pc.Done?
    ensures var job := Replies(c, s, answers).job; job.report && job.status == if job.error then Failed else Cancelled
  {
    hide Replies;
    hide Inv;
    RepliesStop(c, s, answers);
    RepliesInv(c, s, answers);
    DoneIsFinished(c, Replies(c, s, answers));
  }

  lemma DoneIsFinished(c: Config, s: State)
    requires Inv(c, s) && s.pc.Done?
    ensures Finished(s.job)
  {
  }

  lemma {:induction false} RepliesInv(c: Config, s: State, answers: seq<Answer>)
    requires Inv(c, s)
    ensures Inv(c, Replies(c, s, answers))
    decreases |answers|
  {
    hide Inv;
    hide Reply;
    if answers != [] {
      ReplyKeeps(c, s, answers[0]);
      RepliesInv(c, Reply(c, s, answers[0]), answers[1..]);
    }
  }

  // ---- a crash can forget a cancel ----------------------------------------------------------

  /** A run that restarts is cancelled exactly when the checkpoint it comes from says so. */
  lemma RestartedAsSaved(s: State)
    requires s.pc.Down? && s.disk.Some? && !Terminal(s.disk.value.job.status)
    ensures Restarting(s).pc.Idle? && Restarting(s).job.cancel == s.disk.value.job.cancel
  {
  }

  function ForgottenMoves(): seq<Move> { [Replied(Plain(Success)), Replied(Plain(Success)), Replied(Plain(Success).(cancel := true))] }

  /**
    A cancel is not written down when it is requested: a run that has been cancelled and has wound down as cancelled,
    and whose process dies before the archive is written, restarts with the cancel forgotten.
   */
  lemma CancelIsForgotten(c: Config)
    requires RealJob(c)
    ensures var s := History(c, NewJob(), ForgottenMoves());
            && s.pc.Archive? && s.job.cancel && s.job.status.Cancelled? && s.job.report
            && var s' := History(c, s, [Crash, Restart]);
               s'.pc.Idle? && s'.job.status.Interrupted? && !s'.job.cancel && !s'.job.report
  {
    hide Unseen;
    var s0, a := NewJob(), Plain(Success);
    assert ForgottenMoves()[1..] == [Replied(a), Replied(a.(cancel := true))];
    assert ForgottenMoves()[1..][1..] == [Replied(a.(cancel := true))];
    assert ForgottenMoves()[1..][1..][1..] == [];
    var s1 := Reply(c, s0, a);
    var s2 := Reply(c, s1, a);
    var s3 := Reply(c, s2, a.(cancel := true));
    assert s1.pc.Plan? && s2.pc == Top(1) && s3.pc.Archive?;
    assert History(c, s2, [Replied(a.(cancel := true))]) == s3;
    assert History(c, s0, ForgottenMoves()) == s3;
    assert [Crash, Restart][1..] == [Restart] && [Restart][1..] == [];
    assert History(c, s3, [Crash, Restart]) == Restarting(Crashing(s3));
  }

  // ---- where a run goes on, and where it does not -------------------------------------------

  /** Whether a cancel has been requested by the time the answer arrives. */
  predicate CancelledBy(s: State, a: Answer) {
    s.job.cancel || (a.cancel && !s.job.status.Completed? && !s.job.status.Failed? && !s.job.status.Cancelled?)
  }

  predicate WindsDown(s: State, s': State) {
    && (s'.pc.Synth? || s'.pc.Archive?)
    && (s'.pc.Synth? <==> exists i :: 0 <= i < |s'.job.sources| && s'.job.sources[i].relevant)
    && s'.past.begun == s.past.begun && s'.past.lists == s.past.lists && s'.loop == s.loop
  }

  /**
    At the three checks: a round begins exactly if nobody has cancelled, the deadline is to come and pages are left; a
    page is read exactly then; and a round is assessed if calls are left instead of pages.  Otherwise the run winds
    down, with a synthesis exactly if it has found a relevant source.
   */
  lemma ChecksDecide(c: Config, s: State, a: Answer)
    requires Inv(c, s)
    ensures var s' := Reply(c, s, a);
            var open := !CancelledBy(s, a) && !a.expired;
            && (s.pc.Top? ==>
                  if open && s.job.pages < c.maxPages
                  then && s'.loop.round == s.pc.r && s'.job.rounds >= s.pc.r
                       && s'.pc == (if s.loop.phase.Search? then Hunt(s.pc.r)
                                    else if s.loop.pending != [] then PageTop(s.pc.r) else AssessTop(s.pc.r))
                  else WindsDown(s, s'))
            && (s.pc.PageTop? ==>
                  if open && s.job.pages < c.maxPages
                  then && s'.pc == Scrape(s.pc.r, s.loop.pending[0]) && s'.loop.pending == s.loop.pending[1..]
                       && s'.loop.seen == s.loop.seen + {c.norm(s.loop.pending[0])}
                       && s'.past.begun == s.past.begun + [ReadClaim(s.pc.r, c.norm(s.loop.pending[0]))]
                       && (a.saved ==> s'.disk == Some(Snapshot(s'.job, s'.loop)))
                  else WindsDown(s, s'))
            && (s.pc.AssessTop? ==>
                  if open && s.job.llm < c.cap
                  then s'.pc == Assess(s.pc.r) && s'.past.calls == s.past.calls + 1
                  else WindsDown(s, s'))
  {
    hide ClaimsOk;
    hide WaitingOk;
    hide UnseenAll;
  }

  /**
    After an assessment another round begins exactly if it came back, found the sources not enough, has new queries,
    and a round is left; the new queries are then searched for.  A first planning begins exactly if the deadline is to
    come, nothing is planned yet and calls are left.
   */
  lemma RoundsDecide(c: Config, s: State, a: Answer)
    requires Inv(c, s)
    ensures var s' := Reply(c, s, a);
            && (s.pc.Assess? ==>
                  if !a.raises && !a.flag && a.queries != [] && s.pc.r < c.maxRounds
                  then s'.pc == Top(s.pc.r + 1) && s'.loop.phase.Search? && s'.loop.queries == Some(a.queries)
                  else (s'.pc.Synth? || s'.pc.Archive?) && (a.raises <==> s'.job.error))
            && (s.pc.Entry? ==> (s'.pc.Plan? <==> !a.expired && s.loop.queries.None? && s.job.llm < c.cap))
            && (s.pc.Entry? && !a.expired && s.loop.queries.Some? ==>
                  var r := if s.loop.phase.Read? then s.loop.round else s.loop.round + 1;
                  if r <= c.maxRounds then s'.pc == Top(r) && s'.loop == s.loop else s'.pc.Synth? || s'.pc.Archive?)
            && (s.pc.Plan? && !a.raises && c.maxRounds >= 1 && s.loop.round == 0 ==>
                  s'.pc == Top(1) && s'.loop.queries == Some(a.queries)
                  && s'.loop.pending == Unseen(c.norm, c.seeds, s.loop.seen))
  {
    hide ClaimsOk;
    hide WaitingOk;
    hide UnseenAll;
    hide Unseen;
  }

  /**
    A search lists what is waiting first: the unseen pages that were pending, in their order, as many as pages are
    left; a selection is asked for exactly if something new was found and pages and calls are left beside them.
   */
  lemma SearchesDecide(c: Config, s: State, a: Answer)
    requires Inv(c, s) && s.pc.Hunt? && !a.raises
    ensures var s' := Reply(c, s, a);
            var waiting, found := Unseen(c.norm, s.loop.pending, s.loop.seen), Fresh(c.norm, a.urls, s.loop.seen);
            var left := c.maxPages - s.job.pages;
            var urls := if |waiting| <= left then waiting else waiting[..left];
            && left > 0
            && (if found == [] || |waiting| >= left
                then && s'.past.lists == s.past.lists + [urls] && s'.loop.pending == urls && s'.loop.phase.Read?
                     && s'.pc == (if urls == [] then AssessTop(s.pc.r) else PageTop(s.pc.r))
                else if s.job.llm < c.cap then s'.pc == Select(s.pc.r, found, urls) && s'.past.calls == s.past.calls + 1
                else WindsDown(s, s'))
  {
    hide ClaimsOk;
    hide WaitingOk;
    hide UnseenAll;
    hide Unseen;
    hide Fresh;
  }

  /** A selection adds to the waiting pages every page it names of those offered, in its order, up to six and the budget. */
  lemma SelectionAddsPicks(c: Config, s: State, a: Answer, u: Url)
    requires Inv(c, s) && s.pc.Select? && !a.raises
    ensures var s' := Reply(c, s, a);
            && s'.past.lists != [] && s'.past.lists[..|s'.past.lists| - 1] == s.past.lists
            && var list := s'.past.lists[|s.past.lists|];
               && s.pc.urls <= list && s'.loop.pending == list && s'.loop.phase.Read?
               && (u in list ==> u in s.pc.urls || (u in s.pc.found && u in a.urls))
               && |list| <= c.maxPages - s.job.pages && |list| <= |s.pc.urls| + 6
               && var named := |Keep(a.urls, s.pc.found)|;
                  named <= 6 && |s.pc.urls| + named <= c.maxPages - s.job.pages && u in s.pc.found && u in a.urls ==> u in list
  {
    hide ClaimsOk;
    hide WaitingOk;
    hide Keep;
    hide Without;
    hide UnseenAll;
    SelectionOk(c, s.job, s.loop.seen, s.pc.found, s.pc.urls, a.urls);
    KeepsAll(a.urls, s.pc.found, u);
    WithoutKeeps(Take(Keep(a.urls, s.pc.found), PickCount(c, s.job, s.pc.urls)), s.pc.urls, u);
  }

  lemma {:induction false} KeepsAll(urls: seq<Url>, allowed: seq<Url>, u: Url)
    ensures u in Keep(urls, allowed) <==> u in urls && u in allowed
  {
    if urls != [] {
      KeepsAll(urls[..|urls| - 1], allowed, u);
      assert urls == urls[..|urls| - 1] + [urls[|urls| - 1]];
    }
  }

  lemma {:induction false} WithoutKeeps(urls: seq<Url>, have: seq<Url>, u: Url)
    ensures u in Without(urls, have) <==> u in urls && u !in have
  {
    if urls != [] {
      WithoutKeeps(urls[..|urls| - 1], have, u);
      assert urls == urls[..|urls| - 1] + [urls[|urls| - 1]];
    }
  }

  /** A page that was scraped counts; one that was scraped with success is noted if calls are left, and its notes kept. */
  lemma PagesDecide(c: Config, s: State, a: Answer)
    requires Inv(c, s)
    ensures var s' := Reply(c, s, a);
            && (s.pc.Scrape? ==>
                  && s'.job.pages == s.job.pages + (if a.outcome.Crashed? then 0 else 1)
                  && (if !a.outcome.Success?
                      then s'.pc == if s.loop.pending == [] then AssessTop(s.pc.r) else PageTop(s.pc.r)
                      else if s.job.llm < c.cap then s'.pc == Notes(s.pc.r, s.pc.url) else s'.pc.Synth? || s'.pc.Archive?))
            && (s.pc.Notes? ==>
                  if a.raises then s'.job.error && (s'.pc.Synth? || s'.pc.Archive?)
                  else && s'.job.sources == s.job.sources + [Source(|s.job.sources| + 1, s.pc.url, a.flag)]
                       && s'.pc == (if s.loop.pending == [] then AssessTop(s.pc.r) else PageTop(s.pc.r))
                       && (a.saved ==> s'.disk == Some(Snapshot(s'.job, s'.loop))))
  {
    hide ClaimsOk;
    hide WaitingOk;
    hide UnseenAll;
  }
}
