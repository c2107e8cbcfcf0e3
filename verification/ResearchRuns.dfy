/**
  Runs of the research loop from its start (app/research.py:243-315): lists that are read to their end, a run that is
  archived and runs again, and runs whose counters forget all that crashes can make them forget.
 */
module ResearchRuns {
  import opened ResearchModel
  import opened ResearchProofs
  import opened ResearchReads
  import opened ResearchCounters

  /** What the API admits and the code fixes: 1 to 10 rounds, 1 to 100 pages, 40 calls. */
  predicate RealJob(c: Config) { 1 <= c.maxRounds <= 10 && 1 <= c.maxPages <= 100 && c.cap == LLM_CALL_CAP }

  // ---- composing runs ---------------------------------------------------------------------

  lemma {:induction false} RepliesJoin(c: Config, s: State, a: seq<Answer>, b: seq<Answer>)
    ensures Replies(c, s, a + b) == Replies(c, Replies(c, s, a), b)
    decreases |a|
  {
    hide Reply;
    if a == [] {
      assert a + b == b;
    } else {
      assert (a + b)[1..] == a[1..] + b;
      RepliesJoin(c, Reply(c, s, a[0]), a[1..], b);
    }
  }

  lemma TwoReplies(c: Config, s: State, a: Answer)
    ensures Replies(c, s, [a, a]) == Reply(c, Reply(c, s, a), a)
  {
    hide Reply;
    assert [a, a][1..] == [a] && [a][1..] == [];
    assert Replies(c, Reply(c, s, a), [a]) == Replies(c, Reply(c, Reply(c, s, a), a), []);
  }

  /** Every await is answered: no search results, the same queries, checkpoints saved, and this for each page. */
  function Plain(outcome: Outcome): Answer { Answer(false, false, false, true, true, [], ["q"], outcome) }

  lemma {:induction false} HistoryJoin(c: Config, s: State, a: seq<Move>, b: seq<Move>)
    ensures History(c, s, a + b) == History(c, History(c, s, a), b)
    decreases |a|
  {
    hide Next;
    if a == [] {
      assert a + b == b;
    } else {
      assert (a + b)[1..] == a[1..] + b;
      HistoryJoin(c, Next(c, s, a[0]), a[1..], b);
    }
  }

  function Replying(answers: seq<Answer>): seq<Move> { seq(|answers|, i requires 0 <= i < |answers| => Replied(answers[i])) }

  lemma {:induction false} HistoryOfReplies(c: Config, s: State, answers: seq<Answer>)
    ensures History(c, s, Replying(answers)) == Replies(c, s, answers)
    decreases |answers|
  {
    hide Reply;
    if answers != [] {
      assert Replying(answers)[1..] == Replying(answers[1..]);
      HistoryOfReplies(c, Reply(c, s, answers[0]), answers[1..]);
    }
  }

  function Outage(): seq<Move> { [Crash, Restart, Resume(false)] }

  lemma Outages(c: Config, s: State)
    requires Live(s.pc) && s.disk.Some? && !Terminal(s.disk.value.job.status) && !s.disk.value.job.cancel
    ensures History(c, s, Outage()) == s.(pc := Entry, job := s.disk.value.job.(status := Queued), loop := s.disk.value.loop,
                                          past := s.past.(crashes := s.past.crashes + 1))
  {
    assert Outage()[1..] == [Restart, Resume(false)] && [Restart, Resume(false)][1..] == [Resume(false)];
    var s1 := Crashing(s);
    var s2 := Restarting(s1);
    assert History(c, s1, [Restart, Resume(false)]) == History(c, s2, [Resume(false)]);
    assert History(c, s2, [Resume(false)]) == History(c, Resuming(s2, false), []);
  }

  // ---- the start of a run -----------------------------------------------------------------

  /** A planned run before its first round. */
  ghost predicate AtFirstRound(c: Config, s: State) {
    && s.pc == Top(1) && s.loop.pending == c.seeds && s.loop.seen == {} && s.loop.claims == []
    && s.loop.phase.Search? && s.loop.queries.Some?
    && !Terminal(s.job.status) && s.job.pages == 0 && s.job.llm == 1 && !s.job.cancel && !s.job.error && s.job.sources == []
    && s.past == Past([], [], 1, 0, 0, true)
  }

  lemma PlansFirst(c: Config, a: Answer)
    requires c.maxRounds >= 1 && c.cap >= 1 && !a.raises && !a.expired && !a.cancel && a.saved
    ensures AtFirstRound(c, Replies(c, NewJob(), [a, a]))
  {
    hide Wind;
    hide Unseen;
    UnseenKeepsAll(c.norm, c.seeds);
    TwoReplies(c, NewJob(), a);
    var s := Reply(c, NewJob(), a);
    assert s.pc.Plan? && s.loop == FreshLoop() && s.job.llm == 1 && s.past == Past([], [], 1, 0, 0, true);
  }

  /** The first round when the search finds nothing: its list is the seeds within the page budget. */
  ghost predicate AtSeeds(c: Config, s: State) {
    && s.pc == PageTop(1) && s.loop.pending == Take(c.seeds, Lim(c.maxPages)) && s.loop.seen == {} && s.loop.phase.Read?
    && s.loop.queries.Some? && s.loop.round == 1 && s.loop.claims == []
    && !Terminal(s.job.status) && s.job.pages == 0 && s.job.llm == 1 && !s.job.cancel && !s.job.error && s.job.sources == []
    && s.past == Past([], [s.loop.pending], 1, 0, 0, true)
    && s.disk.Some? && s.disk.value.loop == s.loop && s.disk.value.job == s.job.(status := s.disk.value.job.status)
    && !Terminal(s.disk.value.job.status)
  }

  lemma ListsSeeds(c: Config, s: State, outcome: Outcome)
    requires AtFirstRound(c, s) && c.seeds != [] && c.maxPages >= 1
    ensures AtSeeds(c, Replies(c, s, [Plain(outcome), Plain(outcome)]))
  {
    hide Wind;
    hide Unseen;
    hide Fresh;
    var a := Plain(outcome);
    UnseenKeepsAll(c.norm, c.seeds);
    FreshOfNothing(c.norm);
    TwoReplies(c, s, a);
    var s1 := Reply(c, s, a);
    assert s1.pc == Hunt(1) && s1.loop == s.loop.(round := 1) && s1.past == s.past;
    assert s1.job.pages == 0 && s1.job.llm == 1 && !s1.job.cancel && !s1.job.error && s1.job.sources == [];
    var list := Take(c.seeds, Lim(c.maxPages));
    assert Take(Unseen(c.norm, s1.loop.pending, s1.loop.seen), Budget(c, s1.job)) == list && list != [];
    assert Reply(c, s1, a) == Commit(s1, 1, list, true);
    assert [] + [list] == [list];
  }

  lemma FreshOfNothing(norm: Url -> Key)
    ensures Fresh(norm, [], {}) == []
  {
  }

  lemma SeedsListed(c: Config, outcome: Outcome)
    requires c.maxRounds >= 1 && c.cap >= 1 && c.maxPages >= 1 && c.seeds != []
    ensures var a := Plain(outcome);
            AtSeeds(c, Replies(c, NewJob(), [a, a] + [a, a]))
  {
    hide Reply;
    hide Replies;
    var a := Plain(outcome);
    PlansFirst(c, a);
    ListsSeeds(c, Replies(c, NewJob(), [a, a]), outcome);
    RepliesJoin(c, NewJob(), [a, a], [a, a]);
  }

  // ---- a list is read to its end ----------------------------------------------------------

  /** A round that reads its list. */
  ghost predicate Reads(c: Config, s: State, r: int) {
    && s.pc == (if s.loop.pending == [] then AssessTop(r) else PageTop(r))
    && !s.job.cancel && s.job.pages + |s.loop.pending| <= c.maxPages
  }

  lemma ReadsOne(c: Config, s: State, r: int)
    requires Reads(c, s, r) && s.loop.pending != []
    ensures var s1 := Replies(c, s, [Plain(Unsuccessful), Plain(Unsuccessful)]);
            && Reads(c, s1, r) && s1.loop.pending == s.loop.pending[1..]
            && s1.past == s.past.(begun := s.past.begun + [ReadClaim(r, c.norm(s.loop.pending[0]))], fetched := s.past.fetched + 1)
  {
    TwoReplies(c, s, Plain(Unsuccessful));
    var s1 := Reply(c, s, Plain(Unsuccessful));
    assert s1.pc == Scrape(r, s.loop.pending[0]) && s1.loop.pending == s.loop.pending[1..] && s1.job == s.job;
  }

  function Failures(n: nat): seq<Answer> {
    if n == 0 then [] else [Plain(Unsuccessful), Plain(Unsuccessful)] + Failures(n - 1)
  }

  /** Scrapes that fail, and nothing else in the way: every page of the list is begun, in its order. */
  lemma {:induction false} ReadsAll(c: Config, s: State, r: int)
    requires Reads(c, s, r)
    ensures var past := Replies(c, s, Failures(|s.loop.pending|)).past;
            && ReadKeys(past.begun) == ReadKeys(s.past.begun) + Names(c.norm, s.loop.pending)
            && past == s.past.(begun := past.begun, fetched := s.past.fetched + |s.loop.pending|)
    decreases |s.loop.pending|
  {
    hide Reply;
    hide Names;
    hide ReadKeys;
    if s.loop.pending == [] {
      NothingRead(c.norm, s.past.begun);
    } else {
      hide Replies;
      ReadsOne(c, s, r);
      var two := [Plain(Unsuccessful), Plain(Unsuccessful)];
      var s1 := Replies(c, s, two);
      ReadsAll(c, s1, r);
      RepliesJoin(c, s, two, Failures(|s1.loop.pending|));
      NamesHead(c.norm, s.loop.pending);
      ReadKeysSnoc(s.past.begun, ReadClaim(r, c.norm(s.loop.pending[0])));
      Regroup(ReadKeys(s.past.begun), c.norm(s.loop.pending[0]), Names(c.norm, s1.loop.pending));
    }
  }

  lemma NothingRead(norm: Url -> Key, claims: seq<ReadClaim>)
    ensures ReadKeys(claims) + Names(norm, []) == ReadKeys(claims)
  {
  }

  lemma RepeatsAtEnd(a: seq<Key>, b: seq<Key>)
    requires !Different(b)
    ensures !Different(a + b)
  {
    var i, j :| 0 <= i < j < |b| && b[i] == b[j];
    assert (a + b)[|a| + i] == (a + b)[|a| + j];
  }

  /** Whatever committed it, a list that names a page twice is read twice by a run that is not stopped before its end. */
  lemma RepeatedListIsRead(c: Config, s: State)
    requires Inv(c, s) && s.pc.PageTop? && !s.job.cancel && !Different(Names(c.norm, s.loop.pending))
    ensures !Different(ReadKeys(Replies(c, s, Failures(|s.loop.pending|)).past.begun))
  {
    hide Replies;
    hide Different;
    hide ClaimsOk;
    hide WaitingOk;
    ReadsAll(c, s, s.pc.r);
    RepeatsAtEnd(ReadKeys(s.past.begun), Names(c.norm, s.loop.pending));
  }

  // ---- when every page is read once, whatever happens --------------------------------------

  predicate FindsNothing(moves: seq<Move>) { forall i :: 0 <= i < |moves| && moves[i].Replied? ==> moves[i].answer.urls == [] }

  lemma {:induction false} NothingPicked(c: Config, s: State, moves: seq<Move>)
    requires FindsNothing(moves)
    ensures AllPicksDiffer(c, s, moves)
    decreases |moves|
  {
    hide Next;
    if moves != [] {
      NothingPicked(c, Next(c, s, moves[0]), moves[1..]);
    }
  }

  /** All that a run from its start takes to read its seeds. */
  function SeedMoves(c: Config): seq<Move> {
    var a := Plain(Unsuccessful);
    Replying([a, a] + [a, a] + Failures(|Take(c.seeds, Lim(c.maxPages))|))
  }

  lemma {:induction false} FailuresFindNothing(n: nat)
    ensures forall i :: 0 <= i < |Failures(n)| ==> Failures(n)[i] == Plain(Unsuccessful)
  {
    if n > 0 {
      FailuresFindNothing(n - 1);
    }
  }

  /** From the start of a run: seeds of which two within the page budget are one page are read twice, every checkpoint saved. */
  lemma SeedsReadTwice(c: Config)
    requires c.maxRounds >= 1 && c.cap >= 1 && c.maxPages >= 1 && !SeedsDiffer(c)
    ensures var past := History(c, NewJob(), SeedMoves(c)).past;
            past.reliable && !Different(ReadKeys(past.begun)) && AllPicksDiffer(c, NewJob(), SeedMoves(c))
  {
    hide Reply;
    hide Replies;
    hide History;
    hide Different;
    var a := Plain(Unsuccessful);
    if c.seeds == [] {
      NoNames(c.norm);
    }
    SeedsListed(c, Unsuccessful);
    var s := Replies(c, NewJob(), [a, a] + [a, a]);
    ReadsAll(c, s, 1);
    RepeatsAtEnd(ReadKeys(s.past.begun), Names(c.norm, s.loop.pending));
    var n := |Take(c.seeds, Lim(c.maxPages))|;
    RepliesJoin(c, NewJob(), [a, a] + [a, a], Failures(n));
    HistoryOfReplies(c, NewJob(), [a, a] + [a, a] + Failures(n));
    FailuresFindNothing(n);
    NothingPicked(c, NewJob(), SeedMoves(c));
  }

  /**
    No history whose checkpoints are saved and whose selections repeat no page reads a page twice, if and only if the
    seed urls within the page budget name no page twice.
   */
  lemma ReadOnceIff(c: Config)
    requires c.maxRounds >= 1 && c.cap >= 1 && c.maxPages >= 1
    ensures SeedsDiffer(c) <==>
            forall moves: seq<Move> :: AllPicksDiffer(c, NewJob(), moves) && History(c, NewJob(), moves).past.reliable ==>
              Different(ReadKeys(History(c, NewJob(), moves).past.begun))
  {
    hide History;
    hide AllPicksDiffer;
    hide Different;
    if SeedsDiffer(c) {
      forall moves: seq<Move> | AllPicksDiffer(c, NewJob(), moves) && History(c, NewJob(), moves).past.reliable
        ensures Different(ReadKeys(History(c, NewJob(), moves).past.begun))
      {
        EachPageReadOnce(c, moves);
      }
    } else {
      SeedsReadTwice(c);
    }
  }

  // ---- an archived run runs again ----------------------------------------------------------

  /** The plan fails; the run is reported and archived, and dies before its checkpoint is deleted. */
  function ArchivedMoves(): seq<Move> { Replying([Plain(Success), Plain(Success).(raises := true), Plain(Success)]) + Outage() }

  /** From the start of a run: it ends with its report, saves it, dies, is restored and starts again. */
  lemma ArchivedFromTheStart(c: Config)
    requires c.cap >= 1
    ensures var done := History(c, NewJob(), Replying([Plain(Success), Plain(Success).(raises := true), Plain(Success)]));
            done.pc.Cleanup? && Finished(done.job) && done.past.reliable
    ensures var s := History(c, NewJob(), ArchivedMoves());
            s.pc.Entry? && s.job.status.Queued? && !s.job.report && s.past.reliable && s.past.crashes == 1
  {
    var a, b := Plain(Success), Plain(Success).(raises := true);
    var s1 := Reply(c, NewJob(), a);
    assert s1.pc.Plan?;
    var s2 := Reply(c, s1, b);
    assert s2.pc.Archive? && Finished(s2.job) && s2.disk == s1.disk;
    var s3 := Reply(c, s2, a);
    assert [a, b, a][1..] == [b, a] && [b, a][1..] == [a] && [a][1..] == [];
    assert Replies(c, s2, [a]) == Replies(c, s3, []);
    HistoryOfReplies(c, NewJob(), [a, b, a]);
    Outages(c, s3);
    HistoryJoin(c, NewJob(), Replying([a, b, a]), Outage());
  }

  // ---- the counters forget two calls for each crash -----------------------------------------

  /** A round that takes relevant notes of every page it reads. */
  ghost predicate Noting(c: Config, s: State, p: int) {
    && s.pc == (if s.loop.pending == [] then AssessTop(1) else PageTop(1))
    && s.loop.phase.Read? && s.loop.round == 1 && s.loop.queries.Some?
    && Noted1(s.job, p) && s.past.calls == 1 + p && s.past.crashes == 0 && s.past.reliable
    && s.disk.Some? && Noted1(s.disk.value.job, p) && s.disk.value.loop == s.loop
  }

  predicate Noted1(job: Job, p: int) {
    !Terminal(job.status) && !job.cancel && job.pages == p && job.llm == 1 + p && (p > 0 ==> HasRelevant(job.sources))
  }

  lemma NotesOne(c: Config, s: State, p: nat)
    requires Noting(c, s, p) && s.loop.pending != [] && p + 1 < c.cap && p < c.maxPages
    ensures var a := Plain(Success);
            var s1 := Replies(c, s, [a, a] + [a]);
            Noting(c, s1, p + 1) && s1.loop.pending == s.loop.pending[1..]
  {
    hide HasRelevant;
    var a := Plain(Success);
    RepliesJoin(c, s, [a, a], [a]);
    TwoReplies(c, s, a);
    var s1 := Reply(c, s, a);
    assert s1.pc == Scrape(1, s.loop.pending[0]) && s1.loop.pending == s.loop.pending[1..] && s1.job == s.job;
    var s2 := Reply(c, s1, a);
    assert s2.pc == Notes(1, s.loop.pending[0]) && s2.job == s.job.(pages := p + 1, llm := 2 + p);
    NotedIsRelevant(s2, s.loop.pending[0]);
    assert [a][1..] == [];
    assert Replies(c, s2, [a]) == Replies(c, Reply(c, s2, a), []);
  }

  lemma NotedIsRelevant(s: State, url: Url)
    ensures HasRelevant(Noted(s, url, true).job.sources)
  {
    assert Noted(s, url, true).job.sources[|s.job.sources|].relevant;
  }

  function Successes(n: nat): seq<Answer> {
    if n == 0 then [] else ([Plain(Success), Plain(Success)] + [Plain(Success)]) + Successes(n - 1)
  }

  lemma {:induction false} NotesAll(c: Config, s: State, p: nat)
    requires Noting(c, s, p) && p + |s.loop.pending| < c.cap && p + |s.loop.pending| <= c.maxPages
    ensures var s1 := Replies(c, s, Successes(|s.loop.pending|));
            Noting(c, s1, p + |s.loop.pending|) && s1.loop.pending == []
    decreases |s.loop.pending|
  {
    hide Reply;
    hide Noted1;
    if s.loop.pending != [] {
      hide Replies;
      NotesOne(c, s, p);
      var a := Plain(Success);
      var s1 := Replies(c, s, [a, a] + [a]);
      NotesAll(c, s1, p + 1);
      RepliesJoin(c, s, [a, a] + [a], Successes(|s1.loop.pending|));
    }
  }

  /** The round is read: one call is left of the cap, and there is something to report. */
  predicate RoundOver(c: Config, job: Job, l: Loop) {
    && !Terminal(job.status) && !job.cancel && job.llm == c.cap - 1 && job.pages < c.maxPages && HasRelevant(job.sources)
    && l.queries.Some? && l.pending == [] && l.phase.Read? && l.round == 1
  }

  function Raising(): Answer { Plain(Success).(raises := true) }

  /** The report is being written: two calls were made since the checkpoint, the last for the report. */
  ghost predicate Reporting(c: Config, s: State, n: nat) {
    && s.pc.Synth? && s.job.llm == c.cap + 1 && s.past.calls == c.cap + 1 + 2 * n && s.past.crashes == n && s.past.reliable
    && s.disk.Some? && RoundOver(c, s.disk.value.job, s.disk.value.loop)
  }

  /** From the end of the round: one call to assess it, which raises, and one for the report. */
  lemma ThenReports(c: Config, s: State)
    requires s.pc == AssessTop(1) && RoundOver(c, s.job, s.loop)
    ensures var s1 := Replies(c, s, [Plain(Success), Raising()]);
            s1.pc.Synth? && s1.past == s.past.(calls := s.past.calls + 2) && s1.disk == s.disk && s1.job.llm == c.cap + 1
  {
    hide HasRelevant;
    var s1 := Reply(c, s, Plain(Success));
    assert s1.pc == Assess(1) && s1.past == s.past.(calls := s.past.calls + 1) && s1.job.sources == s.job.sources && s1.disk == s.disk;
    var s2 := Reply(c, s1, Raising());
    assert [Plain(Success), Raising()][1..] == [Raising()] && [Raising()][1..] == [];
    assert Replies(c, s1, [Raising()]) == Replies(c, s2, []);
  }

  function FirstRun(c: Config): seq<Move> {
    var a := Plain(Success);
    Replying([a, a] + [a, a] + Successes(|c.seeds|) + [a, Raising()])
  }

  /** A crash while the report is written, and the run up to the report again. */
  function ReportAgain(): seq<Move> { Outage() + Replying([Plain(Success), Plain(Success)] + [Plain(Success), Raising()]) }

  function ReportsAgain(n: nat): seq<Move> { if n == 0 then [] else ReportsAgain(n - 1) + ReportAgain() }

  /** 38 seeds: with the plan, their notes take 39 of the 40 calls. */
  predicate ManySeeds(c: Config) { RealJob(c) && |c.seeds| == 38 && c.maxPages >= 39 }

  lemma FirstReport(c: Config)
    requires ManySeeds(c)
    ensures Reporting(c, History(c, NewJob(), FirstRun(c)), 0)
  {
    hide Reply;
    hide Replies;
    hide History;
    hide HasRelevant;
    var a := Plain(Success);
    SeedsListed(c, Success);
    var s2 := Replies(c, NewJob(), [a, a] + [a, a]);
    NotesAll(c, s2, 0);
    var s3 := Replies(c, s2, Successes(|c.seeds|));
    ThenReports(c, s3);
    RepliesJoin(c, NewJob(), [a, a] + [a, a], Successes(|c.seeds|));
    RepliesJoin(c, NewJob(), [a, a] + [a, a] + Successes(|c.seeds|), [a, Raising()]);
    HistoryOfReplies(c, NewJob(), [a, a] + [a, a] + Successes(|c.seeds|) + [a, Raising()]);
  }

  lemma BackToAssess(c: Config, s: State)
    requires c.maxRounds >= 1 && s.pc.Entry? && RoundOver(c, s.job, s.loop) && s.past.reliable
    ensures var s1 := Replies(c, s, [Plain(Success), Plain(Success)]);
            && s1.pc == AssessTop(1) && RoundOver(c, s1.job, s1.loop) && s1.past == s.past
            && s1.disk.Some? && RoundOver(c, s1.disk.value.job, s1.disk.value.loop)
  {
    hide HasRelevant;
    TwoReplies(c, s, Plain(Success));
    var s1 := Reply(c, s, Plain(Success));
    assert s1.pc == Top(1) && s1.loop == s.loop && s1.job == s.job && s1.disk == Some(Snapshot(s.job, s.loop)) && s1.past == s.past;
  }

  lemma OneMoreReport(c: Config, s: State, n: nat)
    requires RealJob(c) && Reporting(c, s, n)
    ensures Reporting(c, History(c, s, ReportAgain()), n + 1)
  {
    hide Reply;
    hide Replies;
    hide History;
    hide HasRelevant;
    var a := Plain(Success);
    Outages(c, s);
    var s1 := History(c, s, Outage());
    BackToAssess(c, s1);
    var s2 := Replies(c, s1, [a, a]);
    ThenReports(c, s2);
    RepliesJoin(c, s1, [a, a], [a, Raising()]);
    HistoryOfReplies(c, s1, [a, a] + [a, Raising()]);
    HistoryJoin(c, s, Outage(), Replying([a, a] + [a, Raising()]));
  }

  /**
    A job the API admits, with 38 seeds: for every number of crashes it has a history that makes as many calls as
    they allow at all, the counter having forgotten two for each.
   */
  lemma {:induction false} CallsBoundIsTight(c: Config, n: nat)
    requires ManySeeds(c)
    ensures var s := History(c, NewJob(), FirstRun(c) + ReportsAgain(n));
            && s.past.reliable && s.past.crashes == n && s.past.calls == Lim(c.cap) + 1 + 2 * n
            && CallsForgotten(c, NewJob(), FirstRun(c) + ReportsAgain(n)) == 2 * n
    ensures Reporting(c, History(c, NewJob(), FirstRun(c) + ReportsAgain(n)), n)
  {
    hide History;
    hide RoundOver;
    hide CallsForgotten;
    hide PagesForgotten;
    if n == 0 {
      FirstReport(c);
      assert FirstRun(c) + ReportsAgain(0) == FirstRun(c);
    } else {
      CallsBoundIsTight(c, n - 1);
      var before := FirstRun(c) + ReportsAgain(n - 1);
      OneMoreReport(c, History(c, NewJob(), before), n - 1);
      HistoryJoin(c, NewJob(), before, ReportAgain());
      assert before + ReportAgain() == FirstRun(c) + ReportsAgain(n);
    }
    ForgetsAtRestartsOnly(c, FirstRun(c) + ReportsAgain(n));
  }

  // ---- and a page for each, while rounds can list more -------------------------------------

  function Link(k: nat): (u: Url)
    ensures |u| == 4 + k && Http(u)
  {
    if k == 0 then "http" else Link(k - 1) + "x"
  }

  /** n links from the k-th on. */
  function Links(k: nat, n: nat): (urls: seq<Url>)
    ensures |urls| == n
  {
    seq(n, i requires 0 <= i < n => Link(k + i))
  }

  /** Links are pages of their own. */
  ghost predicate LinksApart(c: Config) { forall m: nat :: c.norm(Link(m)) == Link(m) }

  /** No link from the k-th on was claimed, or waits. */
  ghost predicate Unread(l: Loop, c: Config, k: nat) {
    forall m: nat {:trigger Link(m)} :: m >= k ==> Link(m) !in l.seen && forall i :: 0 <= i < |l.pending| ==> c.norm(l.pending[i]) != Link(m)
  }

  /** Round r reads; p pages are counted; links from the k-th on are unread. */
  ghost predicate Kept(c: Config, job: Job, l: Loop, r: nat, k: nat, p: nat) {
    && !Terminal(job.status) && !job.cancel && job.pages == p && job.llm < 2 * r
    && l.phase.Read? && l.round == r && l.queries.Some? && Unread(l, c, k)
  }

  ghost predicate Reading(c: Config, s: State, r: nat, k: nat, p: nat) {
    && s.pc == (if s.loop.pending == [] then AssessTop(r) else PageTop(r))
    && Kept(c, s.job, s.loop, r, k, p) && s.past.reliable
    && s.disk.Some? && s.disk.value.loop == s.loop && Kept(c, s.disk.value.job, s.loop, r, k, p)
  }

  /** A job for the tightness of the page bound: as many seeds as pages, all different pages. */
  ghost predicate LinkJob(c: Config) { RealJob(c) && LinksApart(c) && c.seeds == Links(0, c.maxPages) }

  lemma UnreadLater(l: Loop, c: Config, k: nat)
    requires Unread(l, c, k) && l.pending != []
    ensures Unread(l.(pending := l.pending[1..], seen := l.seen + {c.norm(l.pending[0])}), c, k)
  {
    var l1 := l.(pending := l.pending[1..], seen := l.seen + {c.norm(l.pending[0])});
    forall m: nat | m >= k
      ensures Link(m) !in l1.seen && forall i :: 0 <= i < |l1.pending| ==> c.norm(l1.pending[i]) != Link(m)
    {
      assert c.norm(l.pending[0]) != Link(m);
      forall i | 0 <= i < |l1.pending| ensures c.norm(l1.pending[i]) != Link(m) {
        assert l1.pending[i] == l.pending[i + 1];
      }
    }
  }

  lemma UnreadIgnoresRest(l: Loop, l1: Loop, c: Config, k: nat)
    requires Unread(l, c, k) && l1.seen == l.seen && l1.pending == l.pending
    ensures Unread(l1, c, k)
  {
  }

  /** The next page is claimed and scraped; what follows depends on the scrape. */
  lemma ClaimsNext(c: Config, s: State, r: nat, k: nat, p: nat, outcome: Outcome)
    requires Reading(c, s, r, k, p) && s.loop.pending != [] && p < c.maxPages
    ensures var s1 := Reply(c, s, Plain(outcome));
            && s1.pc == Scrape(r, s.loop.pending[0]) && s1.loop.pending == s.loop.pending[1..]
            && Kept(c, s1.job, s1.loop, r, k, p) && s1.past == s.past.(begun := s1.past.begun)
            && s1.disk == Some(Snapshot(s1.job, s1.loop))
  {
    hide Unread;
    hide Wind;
    UnreadLater(s.loop, c, k);
    var s1 := Reply(c, s, Plain(outcome));
    UnreadIgnoresRest(s.loop.(pending := s.loop.pending[1..], seen := s.loop.seen + {c.norm(s.loop.pending[0])}), s1.loop, c, k);
  }

  lemma CountsPage(c: Config, s: State, r: nat, k: nat, p: nat)
    requires Reading(c, s, r, k, p) && s.loop.pending != [] && p < c.maxPages
    ensures var s1 := History(c, s, Counting());
            && Reading(c, s1, r, k, p + 1) && s1.loop.pending == s.loop.pending[1..]
            && s1.past == s.past.(begun := s1.past.begun, fetched := s.past.fetched + 1)
  {
    hide Unread;
    var a := Plain(Unsuccessful);
    ClaimsNext(c, s, r, k, p, Unsuccessful);
    TwoReplies(c, s, a);
    HistoryOfReplies(c, s, [a, a]);
    hide History;
    hide Replies;
    hide Wind;
  }

  function Counting(): seq<Move> { Replying([Plain(Unsuccessful), Plain(Unsuccessful)]) }

  /** The page is scraped, and the process dies while its notes are taken. */
  function Losing(): seq<Move> {
    Replying([Plain(Success), Plain(Success)]) + (Outage() + Replying([Plain(Success), Plain(Success)]))
  }

  lemma BackToReading(c: Config, s: State, r: nat, k: nat, p: nat)
    requires s.pc.Entry? && Kept(c, s.job, s.loop, r, k, p) && s.past.reliable && 1 <= r <= c.maxRounds && p < c.maxPages
    ensures var s1 := Replies(c, s, [Plain(Success), Plain(Success)]);
            Reading(c, s1, r, k, p) && s1.loop.pending == s.loop.pending && s1.past == s.past
  {
    hide Unread;
    hide Wind;
    TwoReplies(c, s, Plain(Success));
    var s1 := Reply(c, s, Plain(Success));
    assert s1.pc == Top(r) && s1.loop == s.loop && s1.job == s.job && s1.disk == Some(Snapshot(s.job, s.loop)) && s1.past == s.past;
    assert s.loop.(round := r) == s.loop;
  }

  lemma LosesPage(c: Config, s: State, r: nat, k: nat, p: nat)
    requires Reading(c, s, r, k, p) && s.loop.pending != [] && p < c.maxPages && 1 <= r <= c.maxRounds && 2 * r <= c.cap
    ensures var s1 := History(c, s, Losing());
            && Reading(c, s1, r, k, p) && s1.loop.pending == s.loop.pending[1..]
            && s1.past.fetched == s.past.fetched + 1 && s1.past.crashes == s.past.crashes + 1
  {
    hide Unread;
    hide Wind;
    var a := Plain(Success);
    ClaimsNext(c, s, r, k, p, Success);
    TwoReplies(c, s, a);
    var s1 := Reply(c, s, a);
    var s2 := Reply(c, s1, a);
    assert s2.pc == Notes(r, s.loop.pending[0]) && s2.disk == s1.disk && s2.loop == s1.loop;
    assert s2.past.fetched == s.past.fetched + 1 && s2.past.crashes == s.past.crashes && s2.past.reliable;
    hide Reply;
    hide History;
    hide Replies;
    HistoryOfReplies(c, s, [a, a]);
    Outages(c, s2);
    var s3 := History(c, s2, Outage());
    BackToReading(c, s3, r, k, p);
    HistoryOfReplies(c, s3, [a, a]);
    HistoryJoin(c, s2, Outage(), Replying([a, a]));
    HistoryJoin(c, s, Replying([a, a]), Outage() + Replying([a, a]));
  }

  // ---- the next round lists what its search finds ------------------------------------------

  /** The search finds n links, and all are picked; the assessment wants another round. */
  function Finding(k: nat, n: nat): Answer { Answer(false, false, false, true, false, Links(k, n), ["q"], Success) }

  function NextList(k: nat, n: nat): seq<Move> { Replying([Finding(k, n), Finding(k, n)] + [Finding(k, n), Finding(k, n)] + [Finding(k, n)]) }

  lemma {:induction false} LinksDiffer(i: nat, j: nat)
    ensures Link(i) == Link(j) <==> i == j
  {
    assert |Link(i)| == 4 + i && |Link(j)| == 4 + j;
  }

  lemma {:induction false} FreshLinks(c: Config, seen: set<Key>, k: nat, n: nat)
    requires LinksApart(c) && forall m: nat {:trigger Link(m)} :: m >= k ==> Link(m) !in seen
    ensures Fresh(c.norm, Links(k, n), seen) == Links(k, n)
  {
    if n > 0 {
      var front, u := Links(k, n - 1), Link(k + n - 1);
      assert Links(k, n)[..n - 1] == front && Links(k, n)[n - 1] == u;
      FreshLinks(c, seen, k, n - 1);
      forall i | 0 <= i < |front| ensures c.norm(front[i]) != c.norm(u) {
        LinksDiffer(k + i, k + n - 1);
        assert c.norm(Link(k + i)) == Link(k + i);
      }
      assert front + [u] == Links(k, n);
    }
  }

  lemma KeepSnoc(front: seq<Url>, u: Url, allowed: seq<Url>)
    requires u in allowed
    ensures Keep(front + [u], allowed) == Keep(front, allowed) + [u]
  {
    assert (front + [u])[..|front|] == front;
  }

  lemma {:induction false} KeepAll(urls: seq<Url>, allowed: seq<Url>)
    requires urls <= allowed
    ensures Keep(urls, allowed) == urls
  {
    hide Keep;
    if urls == [] {
      KeepNone(allowed);
    } else {
      KeepAll(urls[..|urls| - 1], allowed);
      KeepLast(urls, allowed);
    }
  }

  lemma KeepNone(allowed: seq<Url>)
    ensures Keep([], allowed) == []
  {
  }

  lemma KeepLast(urls: seq<Url>, allowed: seq<Url>)
    requires urls != [] && urls <= allowed && Keep(urls[..|urls| - 1], allowed) == urls[..|urls| - 1]
    ensures Keep(urls, allowed) == urls
  {
    hide Keep;
    var front, u := urls[..|urls| - 1], urls[|urls| - 1];
    assert u == allowed[|urls| - 1];
    KeepSnoc(front, u, allowed);
    assert front + [u] == urls;
  }

  lemma {:induction false} WithoutNone(urls: seq<Url>)
    ensures Without(urls, []) == urls
  {
    if urls != [] {
      WithoutNone(urls[..|urls| - 1]);
    }
  }

  /** Before round r searches: nothing waits, p pages are counted. */
  ghost predicate Searches(c: Config, s: State, r: nat, k: nat, p: nat) {
    && s.pc == Top(r) && s.loop.phase.Search? && s.loop.pending == [] && s.loop.queries.Some? && Unread(s.loop, c, k)
    && !Terminal(s.job.status) && !s.job.cancel && s.job.pages == p && s.job.llm + 1 < 2 * r && s.past.reliable
  }

  lemma Assesses(c: Config, s: State, r: nat, k: nat, p: nat, n: nat)
    requires Reading(c, s, r, k, p) && s.loop.pending == [] && 1 <= r < c.maxRounds && 2 * r <= c.cap
    ensures var a := Finding(k, n);
            var s1 := Replies(c, s, [a, a]);
            Searches(c, s1, r + 1, k, p) && s1.past == s.past.(calls := s1.past.calls)
  {
    hide Unread;
    hide Wind;
    var a := Finding(k, n);
    TwoReplies(c, s, a);
    var s1 := Reply(c, s, a);
    assert s1.pc == Assess(r) && s1.loop == s.loop && s1.job.llm == s.job.llm + 1 && s1.job.pages == p && s1.past.reliable;
    var s2 := Reply(c, s1, a);
    UnreadIgnoresRest(s.loop, s2.loop, c, k);
  }

  lemma HuntsAndSelects(c: Config, s: State, r: nat, k: nat, p: nat, n: nat)
    requires LinksApart(c) && Searches(c, s, r, k, p) && 2 * r <= c.cap && 1 <= n <= c.maxPages - p && n <= PICK_PER_ROUND
    ensures var a := Finding(k, n);
            var s2 := Reply(c, Reply(c, s, a), a);
            && s2.pc == Select(r, Links(k, n), []) && s2.loop == s.loop.(round := r) && s2.past == s.past.(calls := s2.past.calls)
            && !Terminal(s2.job.status) && !s2.job.cancel && s2.job.pages == p && s2.job.llm < 2 * r
  {
    hide Wind;
    hide Fresh;
    hide Unseen;
    var a := Finding(k, n);
    FreshLinks(c, s.loop.seen, k, n);
    NoUnseen(c.norm, s.loop.seen);
    hide Unread;
    var s1 := Reply(c, s, a);
    assert s1.pc == Hunt(r) && s1.loop == s.loop.(round := r) && s1.job.pages == p && s1.job.llm == s.job.llm && s1.past == s.past;
  }

  lemma Picks(c: Config, s: State, r: nat, k: nat, p: nat, n: nat)
    requires LinksApart(c) && s.pc == Select(r, Links(k, n), []) && 1 <= n <= c.maxPages - p && n <= PICK_PER_ROUND
    requires s.loop.pending == [] && s.loop.queries.Some? && s.loop.round == r && Unread(s.loop, c, k)
    requires !Terminal(s.job.status) && !s.job.cancel && s.job.pages == p && s.job.llm < 2 * r && s.past.reliable
    ensures var s1 := Reply(c, s, Finding(k, n));
            && Reading(c, s1, r, k + n, p) && s1.loop.pending == Links(k, n)
            && s1.past == s.past.(lists := s1.past.lists)
  {
    hide Wind;
    hide Keep;
    hide Without;
    var a := Finding(k, n);
    var urls := Links(k, n);
    KeepAll(urls, urls);
    WithoutNone(urls);
    assert [] + urls == urls;
    var s1 := Reply(c, s, a);
    assert s1.loop == s.loop.(pending := urls, phase := Read);
    LinksUnread(s1.loop, s.loop, c, k, n);
  }

  lemma LinksUnread(l1: Loop, l: Loop, c: Config, k: nat, n: nat)
    requires LinksApart(c) && Unread(l, c, k) && l1.seen == l.seen && l1.pending == Links(k, n)
    ensures Unread(l1, c, k + n)
  {
    forall m: nat | m >= k + n
      ensures Link(m) !in l1.seen && forall i :: 0 <= i < |l1.pending| ==> c.norm(l1.pending[i]) != Link(m)
    {
      forall i | 0 <= i < |l1.pending| ensures c.norm(l1.pending[i]) != Link(m) {
        assert l1.pending[i] == Link(k + i);
        LinksDiffer(k + i, m);
      }
    }
  }

  lemma ListsNext(c: Config, s: State, r: nat, k: nat, p: nat, n: nat)
    requires LinksApart(c) && Reading(c, s, r, k, p) && s.loop.pending == [] && 1 <= r < c.maxRounds && 2 * r + 2 <= c.cap
    requires 1 <= n <= c.maxPages - p && n <= PICK_PER_ROUND
    ensures var s1 := History(c, s, NextList(k, n));
            && Reading(c, s1, r + 1, k + n, p) && s1.loop.pending == Links(k, n)
            && s1.past.fetched == s.past.fetched && s1.past.crashes == s.past.crashes
  {
    hide Unread;
    hide Reply;
    hide Replies;
    hide History;
    hide LinksApart;
    var a := Finding(k, n);
    Assesses(c, s, r, k, p, n);
    var s1 := Replies(c, s, [a, a]);
    HuntsAndSelects(c, s1, r + 1, k, p, n);
    TwoReplies(c, s1, a);
    var s2 := Replies(c, s1, [a, a]);
    UnreadIgnoresRest(s1.loop, s2.loop, c, k);
    Picks(c, s2, r + 1, k, p, n);
    OneReplyOnly(c, s2, a);
    RepliesJoin(c, s, [a, a], [a, a]);
    RepliesJoin(c, s, [a, a] + [a, a], [a]);
    HistoryOfReplies(c, s, [a, a] + [a, a] + [a]);
  }

  lemma OneReplyOnly(c: Config, s: State, a: Answer)
    ensures Replies(c, s, [a]) == Reply(c, s, a)
  {
    hide Reply;
    assert [a][1..] == [];
    assert Replies(c, s, [a]) == Replies(c, Reply(c, s, a), []);
  }

  // ---- as many pages as can be -------------------------------------------------------------

  function Picking(left: int): int { Min(PICK_PER_ROUND, left) }

  /** With q pages listed, `left` to count and n to lose, the rounds to come can list the rest. */
  predicate Feasible(q: nat, left: nat, n: nat, rounds: nat) { q <= left && left + n - q <= Picking(left) * rounds }

  /** From round r on, n pages can be lost and the whole page budget counted besides. */
  lemma {:induction false} FetchesMost(c: Config, s: State, r: nat, k: nat, p: nat, n: nat) returns (moves: seq<Move>)
    requires RealJob(c) && LinksApart(c) && Reading(c, s, r, k, p) && 1 <= r <= c.maxRounds && p <= c.maxPages
    requires Feasible(|s.loop.pending|, c.maxPages - p, n, c.maxRounds - r)
    ensures var s1 := History(c, s, moves);
            && s1.past.reliable && s1.past.crashes == s.past.crashes + n
            && s1.past.fetched == s.past.fetched + (c.maxPages - p) + n
            && Live(s1.pc) && s1.disk.Some? && !Terminal(s1.disk.value.job.status) && !s1.disk.value.job.cancel
    decreases c.maxRounds - r, |s.loop.pending|
  {
    hide Unread;
    hide LinksApart;
    hide Reply;
    var q, left := |s.loop.pending|, c.maxPages - p;
    if q > 0 && n > 0 {
      hide History;
      LosesPage(c, s, r, k, p);
      var s1 := History(c, s, Losing());
      var rest := FetchesMost(c, s1, r, k, p, n - 1);
      HistoryJoin(c, s, Losing(), rest);
      moves := Losing() + rest;
    } else if q > 0 {
      hide History;
      CountsPage(c, s, r, k, p);
      var s1 := History(c, s, Counting());
      FewerToCount(q, left, c.maxRounds - r);
      var rest := FetchesMost(c, s1, r, k, p + 1, 0);
      HistoryJoin(c, s, Counting(), rest);
      moves := Counting() + rest;
    } else if left == 0 {
      moves := [];
    } else {
      hide History;
      var m := Picking(left);
      OneRoundFewer(left, n, c.maxRounds - r);
      ListsNext(c, s, r, k, p, m);
      var s1 := History(c, s, NextList(k, m));
      var rest := FetchesMost(c, s1, r + 1, k + m, p, n);
      HistoryJoin(c, s, NextList(k, m), rest);
      moves := NextList(k, m) + rest;
    }
  }

  lemma FewerToCount(q: nat, left: nat, rounds: nat)
    requires 1 <= q && Feasible(q, left, 0, rounds)
    ensures Feasible(q - 1, left - 1, 0, rounds)
  {
    if left <= PICK_PER_ROUND && left > q {
      AtLeastOne(rounds, left - 1);
    }
  }

  lemma AtLeastOne(rounds: nat, m: nat)
    requires rounds >= 1
    ensures m <= m * rounds
  {
  }

  lemma OneRoundFewer(left: nat, n: nat, rounds: nat)
    requires left > 0 && Feasible(0, left, n, rounds)
    ensures rounds >= 1 && Feasible(Picking(left), left, n, rounds - 1)
  {
    OneMoreTime(Picking(left), rounds);
  }

  lemma {:induction false} MoreOutages(c: Config, s: State, n: nat) returns (moves: seq<Move>)
    requires Live(s.pc) && s.disk.Some? && !Terminal(s.disk.value.job.status) && !s.disk.value.job.cancel && s.past.reliable
    ensures var s1 := History(c, s, moves);
            s1.past.reliable && s1.past.crashes == s.past.crashes + n && s1.past.fetched == s.past.fetched
    decreases n
  {
    if n == 0 {
      moves := [];
    } else {
      hide History;
      Outages(c, s);
      var rest := MoreOutages(c, History(c, s, Outage()), n - 1);
      HistoryJoin(c, s, Outage(), rest);
      moves := Outage() + rest;
    }
  }

  lemma SeedsAreLinks(c: Config)
    requires LinkJob(c)
    ensures var a := Plain(Success);
            var s := Replies(c, NewJob(), [a, a] + [a, a]);
            && Reading(c, s, 1, c.maxPages, 0) && |s.loop.pending| == c.maxPages && s.past.fetched == 0 && s.past.crashes == 0
  {
    hide Reply;
    hide Replies;
    var a := Plain(Success);
    SeedsListed(c, Success);
    var s := Replies(c, NewJob(), [a, a] + [a, a]);
    LinksUnread(s.loop, FreshLoop(), c, 0, c.maxPages);
  }

  /**
    For every number of rounds and pages that the API admits, and every number of crashes, some history fetches
    exactly as many pages as `PagesBounded` allows.
   */
  lemma {:induction false} PagesBoundIsTight(c: Config, n: nat) returns (moves: seq<Move>)
    requires LinkJob(c)
    ensures var past := History(c, NewJob(), moves).past;
            past.reliable && past.crashes == n && past.fetched == MostPages(c, n)
  {
    hide Reply;
    hide Replies;
    hide Reading;
    var a := Plain(Success);
    SeedsAreLinks(c);
    var first := [a, a] + [a, a];
    var s := Replies(c, NewJob(), first);
    HistoryOfReplies(c, NewJob(), first);
    hide History;
    var lost := Min(n, Picking(c.maxPages) * (c.maxRounds - 1));
    NotNegative(Picking(c.maxPages), c.maxRounds - 1);
    var more := FetchesMost(c, s, 1, c.maxPages, 0, lost);
    var s1 := History(c, s, more);
    var last := MoreOutages(c, s1, n - lost);
    HistoryJoin(c, s, more, last);
    HistoryJoin(c, NewJob(), Replying(first), more + last);
    moves := Replying(first) + (more + last);
  }

  lemma NotNegative(m: nat, n: nat)
    ensures m * n >= 0
  {
  }
}
