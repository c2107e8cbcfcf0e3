/**
  The budgeted research loop (app/research.py): plan, then rounds of search, select, read and assess,
  then synthesize.  The process may crash at any await; a later process restores the last checkpoint
  that reached the disk and resumes from it.

  A control point is an await of the program.  `Reply` runs the program from one await to the next.
 */
module ResearchModel {

  datatype Option<+T> = None | Some(value: T)

  type Url = string
  type Key = string

  const PICK_PER_ROUND: int := 6

  const LLM_CALL_CAP: int := 40

  /** norm is normalize_url. */
  datatype Config = Config(maxRounds: int, maxPages: int, cap: int, seeds: seq<Url>, norm: Url -> Key)

  datatype Status =
    Queued | Planning | Searching | Reading | Synthesizing | Interrupted | Completed | Failed | Cancelled

  datatype Phase = Search | Read

  datatype Source = Source(index: nat, url: Url, relevant: bool)

  datatype Job = Job(status: Status, pages: int, llm: int, rounds: int, sources: seq<Source>,
                     cancel: bool, error: bool, report: bool)

  datatype ReadClaim = ReadClaim(round: int, key: Key)

  /** `claims` is history: the reads this timeline has claimed.  The program does not store it. */
  datatype Loop = Loop(queries: Option<seq<string>>, pending: seq<Url>, seen: set<Key>,
                       round: int, phase: Phase, claims: seq<ReadClaim>)

  datatype Snapshot = Snapshot(job: Job, loop: Loop)

  datatype Pc =
    | Entry
    | Plan
    | Top(r: int)
    | Hunt(r: int)
    | Select(r: int, found: seq<Url>, urls: seq<Url>)
    | PageTop(r: int)
    | Scrape(r: int, url: Url)
    | Notes(r: int, url: Url)
    | AssessTop(r: int)
    | Assess(r: int)
    | Synth
    | Archive
    | Cleanup
    | Done
    | Down
    | Idle
    | Gone

  /**
    What really happened, which no crash undoes: the reads begun, the lists that rounds committed to read, the
    calls and pages, the crashes.  `reliable`: no checkpoint write has failed.
   */
  datatype Past = Past(begun: seq<ReadClaim>, lists: seq<seq<Url>>, calls: int, fetched: int, crashes: int, reliable: bool)

  datatype State = State(pc: Pc, job: Job, loop: Loop, disk: Option<Snapshot>, past: Past)

  datatype Outcome = Crashed | Unsuccessful | Success

  /**
    What the world answers at an await: whether the call raised, whether the deadline has passed,
    whether the checkpoint or file written next is saved, and the answer's content.  A cancel request
    may arrive meanwhile.
   */
  datatype Answer = Answer(raises: bool, expired: bool, cancel: bool, saved: bool, flag: bool,
                           urls: seq<Url>, queries: seq<string>, outcome: Outcome)

  datatype Move = Replied(answer: Answer) | Crash | Restart | Resume(cancel: bool)

  function Terminal(s: Status): bool { s.Completed? || s.Failed? || s.Cancelled? }

  function FreshLoop(): Loop { Loop(None, [], {}, 0, Search, []) }

  function NewJob(): State {
    State(Entry, Job(Queued, 0, 0, 0, [], false, false, false), FreshLoop(), None, Past([], [], 0, 0, 0, true))
  }

  // ---- selecting what to read ----

  predicate Http(url: Url) { "http" <= url }

  predicate Listed(norm: Url -> Key, urls: seq<Url>, key: Key) {
    exists i :: 0 <= i < |urls| && norm(urls[i]) == key
  }

  function Fresh(norm: Url -> Key, results: seq<Url>, seen: set<Key>): seq<Url> {
    if results == [] then [] else
      var found := Fresh(norm, results[..|results| - 1], seen);
      var u := results[|results| - 1];
      if Http(u) && norm(u) !in seen && !Listed(norm, found, norm(u)) then found + [u] else found
  }

  function Unseen(norm: Url -> Key, urls: seq<Url>, seen: set<Key>): (r: seq<Url>)
    ensures |r| <= |urls|
  {
    if urls == [] then [] else
      var front := Unseen(norm, urls[..|urls| - 1], seen);
      if norm(urls[|urls| - 1]) in seen then front else front + [urls[|urls| - 1]]
  }

  function Take(urls: seq<Url>, n: int): seq<Url>
    requires n >= 0
  {
    if |urls| <= n then urls else urls[..n]
  }

  function Keep(urls: seq<Url>, allowed: seq<Url>): (r: seq<Url>)
    ensures forall u :: u in r ==> u in allowed && u in urls
  {
    if urls == [] then [] else
      Keep(urls[..|urls| - 1], allowed) + (if urls[|urls| - 1] in allowed then [urls[|urls| - 1]] else [])
  }

  function Without(urls: seq<Url>, have: seq<Url>): (r: seq<Url>)
    ensures |r| <= |urls| && forall u :: u in r ==> u in urls && u !in have
  {
    if urls == [] then [] else
      Without(urls[..|urls| - 1], have) + (if urls[|urls| - 1] in have then [] else [urls[|urls| - 1]])
  }

  function Budget(c: Config, job: Job): int { c.maxPages - job.pages }

  function PickCount(c: Config, job: Job, urls: seq<Url>): int {
    var left := Budget(c, job) - |urls|;
    if left < PICK_PER_ROUND then left else PICK_PER_ROUND
  }

  // ---- the program between awaits ----

  function Save(s: State, ok: bool): State {
    if ok then s.(disk := Some(Snapshot(s.job, s.loop))) else s.(past := s.past.(reliable := false))
  }

  function Spend(s: State): State {
    s.(job := s.job.(llm := s.job.llm + 1), past := s.past.(calls := s.past.calls + 1))
  }

  function As(s: State, status: Status): State { s.(job := s.job.(status := status)) }

  predicate Stops(s: State, a: Answer) { s.job.cancel || a.expired }

  predicate Capped(c: Config, s: State) { s.job.llm >= c.cap }

  predicate HasRelevant(sources: seq<Source>) { exists i :: 0 <= i < |sources| && sources[i].relevant }

  function Close(s: State): State {
    As(s, if s.job.error then Failed else if s.job.cancel then Cancelled else Completed).(pc := Archive)
  }

  function Reported(s: State, failed: bool): State {
    s.(job := s.job.(report := true, error := s.job.error || failed))
  }

  function Wind(s: State): State {
    if HasRelevant(s.job.sources) then Spend(As(s, Synthesizing)).(pc := Synth)
    else Close(Reported(As(s, Synthesizing), false))
  }

  function Fail(s: State): State { Wind(s.(job := s.job.(error := true))) }

  function RoundHead(c: Config, s: State, r: int): State {
    if r > c.maxRounds then Wind(s) else s.(pc := Top(r))
  }

  function Max(a: int, b: int): int { if a < b then b else a }

  function Begin(c: Config, s: State): State {
    RoundHead(c, s, Max(1, if s.loop.phase.Read? then s.loop.round else s.loop.round + 1))
  }

  function LoopHead(c: Config, s: State): State {
    if s.loop.queries.Some? then Begin(c, s)
    else if Capped(c, s) then Wind(As(s, Planning))
    else Spend(As(s, Planning)).(pc := Plan)
  }

  function ReadHead(s: State, r: int): State {
    if s.loop.pending == [] then s.(pc := AssessTop(r)) else s.(pc := PageTop(r))
  }

  function Listing(s: State, urls: seq<Url>): State {
    s.(loop := s.loop.(pending := urls, phase := Read), past := s.past.(lists := s.past.lists + [urls]))
  }

  function Commit(s: State, r: int, urls: seq<Url>, saved: bool): State {
    ReadHead(As(Save(Listing(s, urls), saved), Reading), r)
  }

  function Noted(s: State, url: Url, relevant: bool): State {
    s.(job := s.job.(sources := s.job.sources + [Source(|s.job.sources| + 1, url, relevant)]))
  }

  function Fetched(s: State): State {
    s.(job := s.job.(pages := s.job.pages + 1), past := s.past.(fetched := s.past.fetched + 1))
  }

  function Claimed(c: Config, s: State, r: int, saved: bool): State
    requires s.loop.pending != []
  {
    var claim := ReadClaim(r, c.norm(s.loop.pending[0]));
    Save(s.(loop := s.loop.(pending := s.loop.pending[1..], seen := s.loop.seen + {claim.key},
                            claims := s.loop.claims + [claim]),
            past := s.past.(begun := s.past.begun + [claim])), saved)
  }

  function Planned(c: Config, s: State, a: Answer): State {
    if a.raises then Fail(s) else
      Begin(c, Save(s.(loop := s.loop.(queries := Some(a.queries),
                                       pending := Unseen(c.norm, c.seeds, s.loop.seen))), a.saved))
  }

  function AtTop(c: Config, s: State, r: int, a: Answer): State {
    if Stops(s, a) || s.job.pages >= c.maxPages then Wind(s) else
      var s := s.(job := s.job.(rounds := Max(s.job.rounds, r)), loop := s.loop.(round := r));
      if s.loop.phase.Read? then ReadHead(As(s, Reading), r) else As(s, Searching).(pc := Hunt(r))
  }

  function Hunted(c: Config, s: State, r: int, a: Answer): State {
    if a.raises then Fail(s) else
      var found := Fresh(c.norm, a.urls, s.loop.seen);
      var unseen := Unseen(c.norm, s.loop.pending, s.loop.seen);
      var urls := if Budget(c, s.job) >= 0 then Take(unseen, Budget(c, s.job)) else [];
      if found == [] || Budget(c, s.job) <= |urls| then Commit(s, r, urls, a.saved)
      else if Capped(c, s) then Wind(s)
      else Spend(s).(pc := Select(r, found, urls))
  }

  function Selected(c: Config, s: State, r: int, found: seq<Url>, urls: seq<Url>, a: Answer): State {
    if a.raises then Fail(s) else
      var k := PickCount(c, s.job, urls);
      var picked := if k >= 0 then Take(Keep(a.urls, found), k) else [];
      Commit(s, r, urls + Without(picked, urls), a.saved)
  }

  function AtPage(c: Config, s: State, r: int, a: Answer): State {
    if Stops(s, a) || s.job.pages >= c.maxPages || s.loop.pending == [] then Wind(s)
    else Claimed(c, s, r, a.saved).(pc := Scrape(r, s.loop.pending[0]))
  }

  function Scraped(c: Config, s: State, r: int, url: Url, a: Answer): State {
    match a.outcome
    case Crashed => ReadHead(Save(s, a.saved), r)
    case Unsuccessful => ReadHead(Save(Fetched(s), a.saved), r)
    case Success => if Capped(c, s) then Wind(Fetched(s)) else Spend(Fetched(s)).(pc := Notes(r, url))
  }

  function AtAssess(c: Config, s: State, r: int, a: Answer): State {
    if Stops(s, a) then Wind(s)
    else if Capped(c, s) then Wind(As(s, Planning))
    else Spend(As(s, Planning)).(pc := Assess(r))
  }

  function Assessed(c: Config, s: State, r: int, a: Answer): State {
    if a.raises then Fail(s)
    else if a.flag || a.queries == [] then Wind(s)
    else RoundHead(c, Save(s.(loop := s.loop.(queries := Some(a.queries), phase := Search)), a.saved), r + 1)
  }

  /** cancel() answers false, and changes nothing, once the status is terminal. */
  function Cancelling(s: State, request: bool): State {
    if request && !Terminal(s.job.status) then s.(job := s.job.(cancel := true)) else s
  }

  function Reply(c: Config, s0: State, a: Answer): State {
    var s := Cancelling(s0, a.cancel);
    match s.pc
    case Entry => var s := Save(s, a.saved); if a.expired then Wind(s) else LoopHead(c, s)
    case Plan => Planned(c, s, a)
    case Top(r) => AtTop(c, s, r, a)
    case Hunt(r) => Hunted(c, s, r, a)
    case Select(r, found, urls) => Selected(c, s, r, found, urls, a)
    case PageTop(r) => AtPage(c, s, r, a)
    case Scrape(r, url) => Scraped(c, s, r, url, a)
    case Notes(r, url) => if a.raises then Fail(s) else ReadHead(Save(Noted(s, url, a.flag), a.saved), r)
    case AssessTop(r) => AtAssess(c, s, r, a)
    case Assess(r) => Assessed(c, s, r, a)
    case Synth => Close(Reported(s, a.raises))
    case Archive => s.(pc := if a.saved then Cleanup else Done)
    case Cleanup => s.(pc := Done, disk := if a.saved then None else s.disk)
    case Done => s0
    case Down => s0
    case Idle => s0
    case Gone => s0
  }

  /** A process run: the answers to its awaits, in order. */
  function Replies(c: Config, s: State, answers: seq<Answer>): State
    decreases |answers|
  {
    if answers == [] then s else Replies(c, Reply(c, s, answers[0]), answers[1..])
  }

  // ---- crash, restore, resume ----

  function Crashing(s: State): State {
    if s.pc.Down? || s.pc.Gone? then s
    else s.(pc := if s.disk.Some? then Down else Gone, past := s.past.(crashes := s.past.crashes + 1))
  }

  /** restore_from_checkpoints: a terminal snapshot is deleted, any other becomes interrupted. */
  function Restarting(s: State): State {
    if !s.pc.Down? || s.disk.None? then s
    else if Terminal(s.disk.value.job.status) then s.(pc := Gone, disk := None)
    else s.(pc := Idle, job := s.disk.value.job.(status := Interrupted), loop := s.disk.value.loop)
  }

  function Resuming(s: State, cancel: bool): State {
    if s.pc.Idle? then As(Cancelling(s, cancel), Queued).(pc := Entry) else s
  }

  function Next(c: Config, s: State, m: Move): State {
    match m
    case Replied(a) => Reply(c, s, a)
    case Crash => Crashing(s)
    case Restart => Restarting(s)
    case Resume(cancel) => Resuming(s, cancel)
  }

  /** Any history: replies, crashes, restarts and resumes in any order. */
  function History(c: Config, s: State, moves: seq<Move>): State
    decreases |moves|
  {
    if moves == [] then s else History(c, Next(c, s, moves[0]), moves[1..])
  }
}

module ResearchProofs {
  import opened ResearchModel

  function Lim(n: int): int { if n < 0 then 0 else n }

  // ---- the invariant ----

  /** Every claimed page is in `seen`, no claim is from a later round, and a page is claimed in one round only. */
  ghost predicate ClaimsOk(l: Loop) {
    && (forall i :: 0 <= i < |l.claims| ==> l.claims[i].key in l.seen && l.claims[i].round <= l.round)
    && (forall k :: k in l.seen ==> k in Keys(l.claims))
    && OneRoundEach(l.claims)
  }

  function Keys(claims: seq<ReadClaim>): set<Key> { set i | 0 <= i < |claims| :: claims[i].key }


  ghost predicate OneRoundEach(claims: seq<ReadClaim>) {
    forall i, j :: 0 <= i < j < |claims| && claims[i].key == claims[j].key ==> claims[i].round == claims[j].round
  }

  /** A page waiting to be read was not claimed in an earlier round. */
  ghost predicate WaitingOk(norm: Url -> Key, l: Loop) {
    forall u, i :: u in l.pending && 0 <= i < |l.claims| && l.claims[i].key == norm(u) ==> l.claims[i].round == l.round
  }

  predicate Bounds(c: Config, job: Job, extra: int) {
    && 0 <= job.pages <= Lim(c.maxPages)
    && 0 <= job.llm <= Lim(c.cap) + extra
    && 0 <= job.rounds <= Lim(c.maxRounds)
    && |job.sources| <= job.pages
    && forall i :: 0 <= i < |job.sources| ==> job.sources[i].index == i + 1
  }

  ghost predicate MidOk(c: Config, job: Job, l: Loop) {
    && !Terminal(job.status) && !job.error && !job.report
    && Bounds(c, job, 0)
    && ClaimsOk(l)
    && 0 <= l.round <= Lim(c.maxRounds)
    && (l.queries.None? ==> l.phase.Search?)
    && (l.phase.Read? ==> l.round >= 1 && job.pages + |l.pending| <= c.maxPages && WaitingOk(c.norm, l))
  }

  ghost predicate DiskOk(c: Config, s: State) {
    s.disk.Some? ==> MidOk(c, s.disk.value.job, s.disk.value.loop)
  }

  ghost predicate Mid(c: Config, s: State) { MidOk(c, s.job, s.loop) && DiskOk(c, s) }

  ghost predicate InRound(c: Config, s: State, r: int) {
    Mid(c, s) && r == s.loop.round && 1 <= r <= c.maxRounds
  }

  ghost predicate UnseenAll(norm: Url -> Key, urls: seq<Url>, seen: set<Key>) {
    forall u :: u in urls ==> norm(u) !in seen
  }

  ghost predicate EndOk(c: Config, s: State) {
    Bounds(c, s.job, 1) && ClaimsOk(s.loop) && DiskOk(c, s)
  }

  ghost predicate Inv(c: Config, s: State) {
    match s.pc
    case Entry => Mid(c, s)
    case Plan => Mid(c, s) && s.loop.queries.None?
    case Top(r) =>
      Mid(c, s) && 1 <= r <= c.maxRounds && s.loop.round <= r && (s.loop.phase.Read? ==> r == s.loop.round) &&
      s.loop.queries.Some?
    case Hunt(r) => InRound(c, s, r) && s.loop.phase.Search? && s.job.pages < c.maxPages && s.loop.queries.Some?
    case Select(r, found, urls) =>
      InRound(c, s, r) && s.loop.phase.Search? && |urls| < Budget(c, s.job) && s.loop.queries.Some? &&
      UnseenAll(c.norm, found, s.loop.seen) && UnseenAll(c.norm, urls, s.loop.seen)
    case PageTop(r) => InRound(c, s, r) && s.loop.phase.Read? && s.loop.pending != [] && s.loop.queries.Some?
    case Scrape(r, _) =>
      InRound(c, s, r) && s.loop.phase.Read? && s.job.pages + 1 + |s.loop.pending| <= c.maxPages && s.loop.queries.Some?
    case Notes(r, _) => InRound(c, s, r) && s.loop.phase.Read? && |s.job.sources| < s.job.pages && s.loop.queries.Some?
    case AssessTop(r) => InRound(c, s, r) && s.loop.phase.Read? && s.loop.pending == [] && s.loop.queries.Some?
    case Assess(r) => InRound(c, s, r) && s.loop.phase.Read? && s.loop.pending == [] && s.loop.queries.Some?
    case Synth => EndOk(c, s)
    case Archive => EndOk(c, s) && Finished(s.job)
    case Cleanup => EndOk(c, s) && Finished(s.job)
    case Done => EndOk(c, s) && Finished(s.job)
    case Down => EndOk(c, s) && s.disk.Some?
    case Idle => Mid(c, s) && s.job.status.Interrupted?
    case Gone => EndOk(c, s) && s.disk.None?
  }

  /** A finished run has its report, and its status says how it ended. */
  predicate Finished(job: Job) {
    && job.report
    && job.status == (if job.error then Failed else if job.cancel then Cancelled else Completed)
  }

  // ---- what is selected ----

  lemma {:induction false} FreshIsUnseen(norm: Url -> Key, results: seq<Url>, seen: set<Key>)
    ensures UnseenAll(norm, Fresh(norm, results, seen), seen)
    ensures forall i, j :: 0 <= i < j < |Fresh(norm, results, seen)| ==>
              norm(Fresh(norm, results, seen)[i]) != norm(Fresh(norm, results, seen)[j])
    ensures forall u :: u in Fresh(norm, results, seen) ==> u in results && Http(u)
    ensures forall u :: u in results && Http(u) && norm(u) !in seen ==> Listed(norm, Fresh(norm, results, seen), norm(u))
  {
    if results != [] {
      var front, u := results[..|results| - 1], results[|results| - 1];
      FreshIsUnseen(norm, front, seen);
      var found, whole := Fresh(norm, front, seen), Fresh(norm, results, seen);
      assert results == front + [u];
      assert forall i :: 0 <= i < |found| ==> whole[i] == found[i];
      if Http(u) && norm(u) !in seen && !Listed(norm, found, norm(u)) {
        assert whole == found + [u];
        assert norm(whole[|found|]) == norm(u);
      }
      forall v | v in results && Http(v) && norm(v) !in seen ensures Listed(norm, whole, norm(v)) {
        if v in front {
          var i :| 0 <= i < |found| && norm(found[i]) == norm(v);
          assert norm(whole[i]) == norm(v);
        }
      }
    }
  }

  lemma {:induction false} UnseenIsUnseen(norm: Url -> Key, urls: seq<Url>, seen: set<Key>)
    ensures UnseenAll(norm, Unseen(norm, urls, seen), seen)
    ensures forall u :: u in Unseen(norm, urls, seen) <==> u in urls && norm(u) !in seen
  {
    if urls != [] {
      var front, u := urls[..|urls| - 1], urls[|urls| - 1];
      UnseenIsUnseen(norm, front, seen);
      assert urls == front + [u];
    }
  }

  /** What a round reads: first what was waiting, then at most six picks, within the page budget, all unseen. */
  lemma SelectionOk(c: Config, job: Job, seen: set<Key>, found: seq<Url>, urls: seq<Url>, answer: seq<Url>)
    requires |urls| < Budget(c, job) && UnseenAll(c.norm, found, seen) && UnseenAll(c.norm, urls, seen)
    ensures PickCount(c, job, urls) >= 0
    ensures var picked := Take(Keep(answer, found), PickCount(c, job, urls));
            var all := urls + Without(picked, urls);
            && |all| <= Budget(c, job)
            && |all| <= |urls| + PICK_PER_ROUND
            && urls <= all
            && UnseenAll(c.norm, all, seen)
            && forall u :: u in all ==> u in urls || (u in found && u in answer)
  {
    var kept := Keep(answer, found);
    var picked := Take(kept, PickCount(c, job, urls));
    assert forall u :: u in picked ==> u in kept;
  }

  // ---- every step keeps the invariant ----

  lemma SaveOk(c: Config, s: State, ok: bool)
    requires Mid(c, s)
    ensures Mid(c, Save(s, ok))
  {
    hide ClaimsOk;
    hide WaitingOk;
    hide UnseenAll;
  }

  lemma WindOk(c: Config, s: State)
    requires Mid(c, s.(job := s.job.(error := false)))
    ensures Inv(c, Wind(s)) && EndOk(c, Wind(s))
  {
    hide ClaimsOk;
    hide WaitingOk;
    hide UnseenAll;
  }

  lemma BeginOk(c: Config, s: State)
    requires Mid(c, s) && s.loop.queries.Some?
    ensures Inv(c, Begin(c, s))
  {
    hide ClaimsOk;
    hide WaitingOk;
    hide UnseenAll;
    WindOk(c, s);
  }

  lemma ReadHeadOk(c: Config, s: State, r: int)
    requires InRound(c, s, r) && s.loop.phase.Read? && s.loop.queries.Some?
    ensures Inv(c, ReadHead(s, r))
  {
    hide ClaimsOk;
    hide WaitingOk;
    hide UnseenAll;
  }

  lemma CommitOk(c: Config, s: State, r: int, urls: seq<Url>, saved: bool)
    requires InRound(c, s, r) && s.loop.queries.Some?
    requires |urls| <= Budget(c, s.job) && UnseenAll(c.norm, urls, s.loop.seen)
    ensures Inv(c, Commit(s, r, urls, saved))
  {
    var s1 := Listing(s, urls);
    assert WaitingOk(c.norm, s1.loop);
    SaveOk(c, s1, saved);
    ReadHeadOk(c, As(Save(s1, saved), Reading), r);
  }

  lemma ClaimOk(c: Config, s: State, r: int, saved: bool)
    requires InRound(c, s, r) && s.loop.phase.Read? && s.loop.pending != []
    ensures InRound(c, Claimed(c, s, r, saved), r)
  {
    var l, l1 := s.loop, Claimed(c, s, r, saved).loop;
    var u := l.pending[0];
    assert u in l.pending;
    assert forall v :: v in l1.pending ==> v in l.pending;
    forall i, j | 0 <= i < j < |l1.claims| && l1.claims[i].key == l1.claims[j].key
      ensures l1.claims[i].round == l1.claims[j].round
    {
      if j == |l.claims| {
        assert l.claims[i].key == c.norm(u);
      }
    }
    assert l1.claims[|l.claims|].key == c.norm(u);
    forall k | k in l1.seen ensures k in Keys(l1.claims) {
      if k in l.seen {
        var i :| 0 <= i < |l.claims| && l.claims[i].key == k;
        assert l1.claims[i].key == k;
      }
    }
    assert ClaimsOk(l1) && WaitingOk(c.norm, l1);
  }

  lemma HuntOk(c: Config, s: State, r: int, a: Answer)
    requires Inv(c, s) && s.pc == Hunt(r)
    ensures Inv(c, Hunted(c, s, r, a))
  {
    hide ClaimsOk;
    hide WaitingOk;
    hide Commit;
    hide Fresh;
    hide Unseen;
    if a.raises {
      WindOk(c, s.(job := s.job.(error := true)));
    } else {
      var found := Fresh(c.norm, a.urls, s.loop.seen);
      var unseen := Unseen(c.norm, s.loop.pending, s.loop.seen);
      var urls := Take(unseen, Budget(c, s.job));
      FreshIsUnseen(c.norm, a.urls, s.loop.seen);
      UnseenIsUnseen(c.norm, s.loop.pending, s.loop.seen);
      assert forall u :: u in urls ==> u in unseen;
      CommitOk(c, s, r, urls, a.saved);
      WindOk(c, s);
    }
  }

  lemma SelectOk(c: Config, s: State, a: Answer)
    requires Inv(c, s) && s.pc.Select?
    ensures Inv(c, Selected(c, s, s.pc.r, s.pc.found, s.pc.urls, a))
  {
    hide Keep;
    hide Without;
    if a.raises {
      WindOk(c, s.(job := s.job.(error := true)));
    } else {
      SelectionOk(c, s.job, s.loop.seen, s.pc.found, s.pc.urls, a.urls);
      var picked := Take(Keep(a.urls, s.pc.found), PickCount(c, s.job, s.pc.urls));
      CommitOk(c, s, s.pc.r, s.pc.urls + Without(picked, s.pc.urls), a.saved);
    }
  }

  lemma PlanOk(c: Config, s: State, a: Answer)
    requires Inv(c, s) && s.pc.Plan?
    ensures Inv(c, Planned(c, s, a))
  {
    hide Unseen;
    if a.raises {
      WindOk(c, s.(job := s.job.(error := true)));
    } else {
      var s1 := s.(loop := s.loop.(queries := Some(a.queries), pending := Unseen(c.norm, c.seeds, s.loop.seen)));
      SaveOk(c, s1, a.saved);
      BeginOk(c, Save(s1, a.saved));
    }
  }

  lemma TopOk(c: Config, s: State, a: Answer)
    requires Inv(c, s) && s.pc.Top?
    ensures Inv(c, AtTop(c, s, s.pc.r, a))
  {
    hide OneRoundEach;
    hide WaitingOk;
    hide UnseenAll;
    WindOk(c, s);
  }

  lemma PageOk(c: Config, s: State, a: Answer)
    requires Inv(c, s) && s.pc.PageTop?
    ensures Inv(c, AtPage(c, s, s.pc.r, a))
  {
    hide ClaimsOk;
    hide UnseenAll;
    WindOk(c, s);
    ClaimOk(c, s, s.pc.r, a.saved);
  }

  lemma ScrapeOk(c: Config, s: State, a: Answer)
    requires Inv(c, s) && s.pc.Scrape?
    ensures Inv(c, Scraped(c, s, s.pc.r, s.pc.url, a))
  {
    hide ClaimsOk;
    hide WaitingOk;
    hide UnseenAll;
    var s1 := if a.outcome.Crashed? then s else Fetched(s);
    SaveOk(c, s1, a.saved);
    ReadHeadOk(c, Save(s1, a.saved), s.pc.r);
    WindOk(c, s1);
  }

  lemma NotesOk(c: Config, s: State, a: Answer)
    requires Inv(c, s) && s.pc.Notes?
    ensures Inv(c, if a.raises then Fail(s) else ReadHead(Save(Noted(s, s.pc.url, a.flag), a.saved), s.pc.r))
  {
    hide ClaimsOk;
    hide WaitingOk;
    hide UnseenAll;
    if a.raises {
      WindOk(c, s.(job := s.job.(error := true)));
    } else {
      SaveOk(c, Noted(s, s.pc.url, a.flag), a.saved);
      ReadHeadOk(c, Save(Noted(s, s.pc.url, a.flag), a.saved), s.pc.r);
    }
  }

  lemma AssessTopOk(c: Config, s: State, a: Answer)
    requires Inv(c, s) && s.pc.AssessTop?
    ensures Inv(c, AtAssess(c, s, s.pc.r, a))
  {
    hide ClaimsOk;
    hide WaitingOk;
    hide UnseenAll;
    WindOk(c, s);
    WindOk(c, As(s, Planning));
  }

  lemma AssessOk(c: Config, s: State, a: Answer)
    requires Inv(c, s) && s.pc.Assess?
    ensures Inv(c, Assessed(c, s, s.pc.r, a))
  {
    if a.raises {
      WindOk(c, s.(job := s.job.(error := true)));
    } else if a.flag || a.queries == [] {
      WindOk(c, s);
    } else {
      var s1 := s.(loop := s.loop.(queries := Some(a.queries), phase := Search));
      SaveOk(c, s1, a.saved);
      WindOk(c, Save(s1, a.saved));
    }
  }

  lemma EntryOk(c: Config, s: State, a: Answer)
    requires Inv(c, s) && s.pc.Entry?
    ensures Inv(c, var s1 := Save(s, a.saved); if a.expired then Wind(s1) else LoopHead(c, s1))
  {
    hide ClaimsOk;
    hide WaitingOk;
    hide UnseenAll;
    var s1 := Save(s, a.saved);
    SaveOk(c, s, a.saved);
    WindOk(c, s1);
    WindOk(c, As(s1, Planning));
    if s1.loop.queries.Some? {
      BeginOk(c, s1);
    }
  }

  lemma CancellingOk(c: Config, s: State, request: bool)
    requires Inv(c, s)
    ensures Inv(c, Cancelling(s, request)) && Cancelling(s, request).pc == s.pc
  {
    hide ClaimsOk;
    hide WaitingOk;
    hide UnseenAll;
  }

  lemma ReplyKeeps(c: Config, s: State, a: Answer)
    requires Inv(c, s)
    ensures Inv(c, Reply(c, s, a))
  {
    hide Fail;
    hide Close;
    hide Reported;
    hide Save;
    hide Noted;
    hide Cancelling;
    hide Inv;
    hide Planned;
    hide AtTop;
    hide Hunted;
    hide Selected;
    hide AtPage;
    hide Scraped;
    hide AtAssess;
    hide Assessed;
    hide LoopHead;
    hide Wind;
    hide ReadHead;
    CancellingOk(c, s, a.cancel);
    var s1 := Cancelling(s, a.cancel);
    match s1.pc
    case Entry => EntryOk(c, s1, a);
    case Plan => PlanOk(c, s1, a);
    case Top(_) => TopOk(c, s1, a);
    case Hunt(r) => HuntOk(c, s1, r, a);
    case Select(_, _, _) => SelectOk(c, s1, a);
    case PageTop(_) => PageOk(c, s1, a);
    case Scrape(_, _) => ScrapeOk(c, s1, a);
    case Notes(_, _) => NotesOk(c, s1, a);
    case AssessTop(_) => AssessTopOk(c, s1, a);
    case Assess(_) => AssessOk(c, s1, a);
    case Synth => CloseOk(c, s1, a.raises);
    case Archive => TidyOk(c, s1, a.saved);
    case Cleanup => TidyOk(c, s1, a.saved);
    case _ =>
  }

  lemma CloseOk(c: Config, s: State, failed: bool)
    requires Inv(c, s) && s.pc.Synth?
    ensures Inv(c, Close(Reported(s, failed)))
  {
    hide ClaimsOk;
    hide WaitingOk;
    hide UnseenAll;
  }

  lemma TidyOk(c: Config, s: State, saved: bool)
    requires Inv(c, s) && (s.pc.Archive? || s.pc.Cleanup?)
    ensures Inv(c, s.(pc := if saved then Cleanup else Done))
    ensures Inv(c, s.(pc := Done, disk := if saved then None else s.disk))
  {
    hide ClaimsOk;
    hide WaitingOk;
    hide UnseenAll;
  }

  lemma CrashKeeps(c: Config, s: State)
    requires Inv(c, s)
    ensures Inv(c, Crashing(s))
  {
    hide ClaimsOk;
    hide WaitingOk;
    hide UnseenAll;
  }

  lemma RestartKeeps(c: Config, s: State, cancel: bool)
    requires Inv(c, s)
    ensures Inv(c, Restarting(s)) && Inv(c, Resuming(s, cancel))
  {
    hide ClaimsOk;
    hide WaitingOk;
    hide UnseenAll;
  }

  /** Every step of every history keeps the invariant. */
  lemma NextKeeps(c: Config, s: State, m: Move)
    requires Inv(c, s)
    ensures Inv(c, Next(c, s, m))
  {
    hide Inv;
    hide Reply;
    match m
    case Replied(a) => ReplyKeeps(c, s, a);
    case Crash => CrashKeeps(c, s);
    case Restart => RestartKeeps(c, s, false);
    case Resume(cancel) => RestartKeeps(c, s, cancel);
  }

  lemma {:induction false} HistoryKeeps(c: Config, s: State, moves: seq<Move>)
    requires Inv(c, s)
    ensures Inv(c, History(c, s, moves))
    decreases |moves|
  {
    hide Inv;
    hide Next;
    if moves != [] {
      NextKeeps(c, s, moves[0]);
      HistoryKeeps(c, Next(c, s, moves[0]), moves[1..]);
    }
  }

  // ---- main results, over every history of replies, crashes, restarts and resumes ----

  lemma NewJobOk(c: Config)
    ensures Inv(c, NewJob())
  {
  }

  lemma Budgets(c: Config, s: State)
    requires Inv(c, s)
    ensures Bounds(c, s.job, 1)
    ensures s.disk.Some? ==> Bounds(c, s.disk.value.job, 0)
    ensures s.pc.PageTop? ==> s.job.pages + |s.loop.pending| <= c.maxPages && s.job.pages < c.maxPages
    ensures s.pc.Scrape? ==> s.job.pages + 1 + |s.loop.pending| <= c.maxPages
    ensures s.pc.Notes? ==> s.job.pages + |s.loop.pending| <= c.maxPages
    ensures OneRoundEach(s.loop.claims)
    ensures s.disk.Some? ==> OneRoundEach(s.disk.value.loop.claims)
  {
    hide OneRoundEach;
    hide WaitingOk;
    hide UnseenAll;
  }

  /**
    Pages, LLM calls and rounds stay within their budgets whatever crashes intervene; the one call beyond
    the cap is the exempt synthesis.  While a round reads, what it has scraped and what it still has to
    read fit in the page budget together, so the loop stops at a page only for a cancel or the deadline.
   */
  lemma BudgetsHold(c: Config, moves: seq<Move>)
    ensures var s := History(c, NewJob(), moves);
            && 0 <= s.job.pages <= Lim(c.maxPages)
            && 0 <= s.job.llm <= Lim(c.cap) + 1
            && 0 <= s.job.rounds <= Lim(c.maxRounds)
            && (s.disk.Some? ==> s.disk.value.job.llm <= Lim(c.cap))
            && OneRoundEach(s.loop.claims)
            && (s.pc.PageTop? ==> s.job.pages + |s.loop.pending| <= c.maxPages)
            && (s.pc.Scrape? ==> s.job.pages + 1 + |s.loop.pending| <= c.maxPages)
            && forall a :: s.pc.PageTop? ==> (AtPage(c, s, s.pc.r, a).pc.Scrape? <==> !s.job.cancel && !a.expired)
  {
    hide Inv;
    hide History;
    hide OneRoundEach;
    NewJobOk(c);
    HistoryKeeps(c, NewJob(), moves);
    var s := History(c, NewJob(), moves);
    Budgets(c, s);
    if s.pc.PageTop? {
      WaitingHere(c, s);
    }
  }

  /** At a page, the next url was claimed before exactly when this same round claimed it. */
  lemma WaitingHere(c: Config, s: State)
    requires Inv(c, s) && s.pc.PageTop?
    ensures s.loop.pending != []
    ensures c.norm(s.loop.pending[0]) in s.loop.seen <==> ReadClaim(s.loop.round, c.norm(s.loop.pending[0])) in s.loop.claims
  {
    var key := c.norm(s.loop.pending[0]);
    assert s.loop.pending[0] in s.loop.pending;
    if key in s.loop.seen {
      var i :| 0 <= i < |s.loop.claims| && s.loop.claims[i].key == key;
      assert s.loop.claims[i] == ReadClaim(s.loop.round, key);
    }
  }

  // ---- what a crash forgets ----

  /** LLM calls and pages counted in memory since the last checkpoint, at most. */
  function Slack(pc: Pc): int {
    match pc
    case Plan => 1
    case Select(_, _, _) => 1
    case Notes(_, _) => 1
    case Assess(_) => 1
    case Synth => 2
    case Archive => 2
    case Cleanup => 2
    case Done => 2
    case Down => 2
    case Gone => 2
    case _ => 0
  }

  function PageSlack(pc: Pc): int {
    if pc.Notes? || pc.Synth? || pc.Archive? || pc.Cleanup? || pc.Done? || pc.Down? || pc.Gone? then 1 else 0
  }

  /**
    Unless a checkpoint write failed: claims are never forgotten, and the saved counters are behind by at
    most `calls` and `pages`, the real ones ahead by at most two calls and one page for each crash.
   */
  predicate Behind(s: State, calls: int, pages: int) {
    s.past.reliable ==>
      && s.past.begun == s.loop.claims
      && s.past.calls <= s.job.llm + 2 * s.past.crashes
      && s.past.fetched <= s.job.pages + s.past.crashes
      && (s.disk.Some? ==>
            && s.disk.value.loop.claims == s.loop.claims
            && s.job.llm <= s.disk.value.job.llm + calls
            && s.job.pages <= s.disk.value.job.pages + pages)
      && (s.pc.Down? && s.disk.Some? ==>
            && s.past.calls <= s.disk.value.job.llm + 2 * s.past.crashes
            && s.past.fetched <= s.disk.value.job.pages + s.past.crashes)
  }

  predicate Tracked(s: State) { Behind(s, Slack(s.pc), PageSlack(s.pc)) }

  lemma WindTracks(s: State)
    requires Behind(s, 1, 1) && !s.pc.Down?
    ensures Tracked(Wind(s)) && Tracked(Fail(s))
  {
    hide HasRelevant;
  }

  lemma BeginTracks(c: Config, s: State)
    requires Behind(s, 0, 0) && !s.pc.Down?
    ensures Tracked(Begin(c, s)) && Tracked(LoopHead(c, s))
    ensures forall r :: Tracked(RoundHead(c, s, r)) && Tracked(ReadHead(s, r))
  {
    hide Wind;
    WindTracks(s);
    WindTracks(As(s, Planning));
  }

  /** A checkpoint brings the disk level with memory, or fails and ends the promise. */
  lemma SaveTracks(s: State, ok: bool)
    requires Behind(s.(disk := None), 0, 0) && !s.pc.Down?
    ensures Behind(Save(s, ok), 0, 0)
  {
  }

  lemma CommitTracks(c: Config, s: State, r: int, urls: seq<Url>, saved: bool)
    requires Behind(s, 1, 0) && !s.pc.Down?
    ensures Tracked(Commit(s, r, urls, saved))
  {
    hide ReadHead;
    var s1 := Listing(s, urls);
    SaveTracks(s1, saved);
    BeginTracks(c, As(Save(s1, saved), Reading));
  }

  /** Awaits whose answer is followed by a checkpoint. */
  lemma AnswerTracks(c: Config, s: State, a: Answer)
    requires s.pc.Entry? || s.pc.Plan? || s.pc.Notes? || s.pc.Assess?
    requires Tracked(s) && Cancelling(s, a.cancel) == s
    ensures Tracked(Reply(c, s, a))
  {
    hide Wind;
    hide Fail;
    hide Begin;
    hide LoopHead;
    hide RoundHead;
    hide ReadHead;
    hide Unseen;
    var s1 := if s.pc.Entry? then s
              else if s.pc.Plan? then s.(loop := s.loop.(queries := Some(a.queries), pending := Unseen(c.norm, c.seeds, s.loop.seen)))
              else if s.pc.Notes? then Noted(s, s.pc.url, a.flag)
              else s.(loop := s.loop.(queries := Some(a.queries), phase := Search));
    SaveTracks(s1, a.saved);
    WindTracks(s);
    BeginTracks(c, Save(s1, a.saved));
    WindTracks(Save(s1, a.saved));
  }

  lemma SearchTracks(c: Config, s: State, a: Answer)
    requires s.pc.Hunt? || s.pc.Select?
    requires Tracked(s) && Cancelling(s, a.cancel) == s
    ensures Tracked(Reply(c, s, a))
  {
    hide Wind;
    hide Fail;
    hide Commit;
    hide Fresh;
    hide Unseen;
    hide Take;
    hide Keep;
    hide Without;
    WindTracks(s);
    if s.pc.Hunt? {
      var unseen := Unseen(c.norm, s.loop.pending, s.loop.seen);
      CommitTracks(c, s, s.pc.r, if Budget(c, s.job) >= 0 then Take(unseen, Budget(c, s.job)) else [], a.saved);
    } else {
      var k := PickCount(c, s.job, s.pc.urls);
      var picked := if k >= 0 then Take(Keep(a.urls, s.pc.found), k) else [];
      CommitTracks(c, s, s.pc.r, s.pc.urls + Without(picked, s.pc.urls), a.saved);
    }
  }

  lemma CheckTracks(c: Config, s: State, a: Answer)
    requires s.pc.Top? || s.pc.AssessTop?
    requires Tracked(s) && Cancelling(s, a.cancel) == s
    ensures Tracked(Reply(c, s, a))
  {
    hide Wind;
    hide Cancelling;
    WindTracks(s);
    WindTracks(As(s, Planning));
  }

  lemma PageTracks(c: Config, s: State, a: Answer)
    requires s.pc.PageTop? || s.pc.Scrape?
    requires Tracked(s) && Cancelling(s, a.cancel) == s
    ensures Tracked(Reply(c, s, a))
  {
    hide Wind;
    hide Cancelling;
    WindTracks(s);
    WindTracks(Fetched(s));
  }

  lemma ReplyTracks(c: Config, s0: State, a: Answer)
    requires Tracked(s0)
    ensures Tracked(Reply(c, s0, a))
  {
    hide Wind;
    hide Fail;
    hide Planned;
    hide AtTop;
    hide Hunted;
    hide Selected;
    hide AtPage;
    hide Scraped;
    hide AtAssess;
    hide Assessed;
    hide LoopHead;
    hide ReadHead;
    var s := Cancelling(s0, a.cancel);
    match s.pc
    case Entry => AnswerTracks(c, s, a);
    case Plan => AnswerTracks(c, s, a);
    case Notes(_, _) => AnswerTracks(c, s, a);
    case Assess(_) => AnswerTracks(c, s, a);
    case Hunt(_) => SearchTracks(c, s, a);
    case Select(_, _, _) => SearchTracks(c, s, a);
    case Top(_) => CheckTracks(c, s, a);
    case PageTop(_) => PageTracks(c, s, a);
    case Scrape(_, _) => PageTracks(c, s, a);
    case AssessTop(_) => CheckTracks(c, s, a);
    case _ =>
  }

  lemma {:induction false} HistoryTracks(c: Config, s: State, moves: seq<Move>)
    requires Tracked(s)
    ensures Tracked(History(c, s, moves))
    decreases |moves|
  {
    hide Reply;
    if moves != [] {
      if moves[0].Replied? {
        ReplyTracks(c, s, moves[0].answer);
      }
      HistoryTracks(c, Next(c, s, moves[0]), moves[1..]);
    }
  }

  /**
    What really happened, when no checkpoint write fails.  Every page is read in one round only, crash or
    no crash.  The counters forget at most two LLM calls and one page for each crash.
   */
  lemma RealHistory(c: Config, moves: seq<Move>)
    requires History(c, NewJob(), moves).past.reliable
    ensures var past := History(c, NewJob(), moves).past;
            && OneRoundEach(past.begun)
            && past.calls <= Lim(c.cap) + 1 + 2 * past.crashes
            && past.fetched <= Lim(c.maxPages) + past.crashes
  {
    hide Inv;
    hide History;
    hide OneRoundEach;
    NewJobOk(c);
    HistoryKeeps(c, NewJob(), moves);
    HistoryTracks(c, NewJob(), moves);
    Budgets(c, History(c, NewJob(), moves));
  }

  // ---- a run that is not interrupted ends ----

  predicate Live(pc: Pc) { !pc.Done? && !pc.Down? && !pc.Idle? && !pc.Gone? }

  /** n widths, none for a negative n. */
  function Times(n: int, w: int): int
    decreases n
  {
    if n <= 0 then 0 else w + Times(n - 1, w)
  }

  function Width(c: Config): int { 3 * Lim(c.maxPages) + 8 }

  lemma {:induction false} TimesUp(m: int, n: int, w: int)
    requires m < n && n >= 1 && w >= 0
    ensures Times(m, w) + w <= Times(n, w) && Times(m, w) >= 0
    decreases n
  {
    if m < n - 1 && n >= 2 {
      TimesUp(m, n - 1, w);
    } else if m > 0 {
      TimesUp(m - 1, m, w);
    }
  }

  function InRoundRank(c: Config, s: State, r: int, within: int): int {
    Times(c.maxRounds + 1 - r, Width(c)) + within
  }

  /** Awaits left at most: rounds left first, then the stage of the round, then the pages left in it. */
  function Rank(c: Config, s: State): int {
    var p, m := 3 * |s.loop.pending|, 3 * Lim(c.maxPages);
    match s.pc
    case Entry => Times(Lim(c.maxRounds) + 2, Width(c))
    case Plan => Times(Lim(c.maxRounds) + 1, Width(c))
    case Top(r) => InRoundRank(c, s, r, m + 7)
    case Hunt(r) => InRoundRank(c, s, r, m + 6)
    case Select(r, _, _) => InRoundRank(c, s, r, m + 5)
    case PageTop(r) => InRoundRank(c, s, r, p + 2)
    case Scrape(r, _) => InRoundRank(c, s, r, p + 4)
    case Notes(r, _) => InRoundRank(c, s, r, p + 3)
    case AssessTop(r) => InRoundRank(c, s, r, 1)
    case Assess(r) => InRoundRank(c, s, r, 0)
    case Synth => 3
    case Archive => 2
    case Cleanup => 1
    case _ => 0
  }

  lemma RankBounds(c: Config, s: State)
    ensures Rank(c, Wind(s)) <= 3 && Rank(c, Fail(s)) <= 3
    ensures Inv(c, s) ==> Rank(c, s) >= 0
    ensures Inv(c, s) && Live(s.pc) && !s.pc.Synth? && !s.pc.Archive? && !s.pc.Cleanup? ==> Rank(c, s) >= 4
  {
    hide HasRelevant;
    hide Times;
    hide ClaimsOk;
    hide WaitingOk;
    hide UnseenAll;
    assert Times(0, Width(c)) == 0 by { TimesZero(Width(c)); }
    if s.pc.Entry? {
      TimesUp(0, Lim(c.maxRounds) + 2, Width(c));
    } else if s.pc.Plan? {
      TimesUp(0, Lim(c.maxRounds) + 1, Width(c));
    } else if Live(s.pc) && !s.pc.Synth? && !s.pc.Archive? && !s.pc.Cleanup? && Inv(c, s) {
      TimesUp(0, c.maxRounds + 1 - s.pc.r, Width(c));
    }
  }

  lemma TimesZero(w: int)
    ensures Times(0, w) == 0
  {
  }

  /** From outside the rounds, or from round r, the next round head ranks lower. */
  lemma RoundHeadRank(c: Config, s: State, r: int)
    requires 1 <= r
    ensures Rank(c, RoundHead(c, s, r)) <= Max(3, Times(c.maxRounds + 1 - r, Width(c)) + 3 * Lim(c.maxPages) + 7)
    ensures Rank(c, RoundHead(c, s, r)) < Max(4, Times(c.maxRounds + 2 - r, Width(c)))
  {
    hide Wind;
    hide Times;
    RankBounds(c, s);
    if r <= c.maxRounds + 1 {
      TimesUp(c.maxRounds + 1 - r, c.maxRounds + 2 - r, Width(c));
    }
  }

  lemma BeginRank(c: Config, s: State)
    requires s.loop.phase.Search? ==> s.loop.round >= 0
    ensures Rank(c, Begin(c, s)) < Times(Lim(c.maxRounds) + 1, Width(c))
  {
    hide Wind;
    hide Times;
    var r := Max(1, if s.loop.phase.Read? then s.loop.round else s.loop.round + 1);
    RoundHeadRank(c, s, r);
    TimesZero(Width(c));
    TimesUp(0, Lim(c.maxRounds) + 1, Width(c));
    if c.maxRounds + 2 - r < Lim(c.maxRounds) + 1 {
      TimesUp(c.maxRounds + 2 - r, Lim(c.maxRounds) + 1, Width(c));
    }
  }

  lemma OutsideDrops(c: Config, s: State, a: Answer)
    requires Inv(c, s) && (s.pc.Entry? || s.pc.Plan? || s.pc.Assess?) && Cancelling(s, a.cancel) == s
    ensures Rank(c, Reply(c, s, a)) < Rank(c, s)
  {
    hide Times;
    hide Wind;
    hide Fail;
    hide Begin;
    hide RoundHead;
    hide Unseen;
    hide ClaimsOk;
    hide WaitingOk;
    hide UnseenAll;
    RankBounds(c, s);
    TimesUp(Lim(c.maxRounds) + 1, Lim(c.maxRounds) + 2, Width(c));
    if s.pc.Entry? {
      RankBounds(c, Save(s, a.saved));
      RankBounds(c, As(Save(s, a.saved), Planning));
      BeginRank(c, Save(s, a.saved));
    } else if s.pc.Plan? {
      var s1 := s.(loop := s.loop.(queries := Some(a.queries), pending := Unseen(c.norm, c.seeds, s.loop.seen)));
      BeginRank(c, Save(s1, a.saved));
    } else {
      var s1 := s.(loop := s.loop.(queries := Some(a.queries), phase := Search));
      RoundHeadRank(c, Save(s1, a.saved), s.pc.r + 1);
    }
  }

  lemma SearchDrops(c: Config, s: State, a: Answer)
    requires Inv(c, s) && (s.pc.Top? || s.pc.Hunt? || s.pc.Select?) && Cancelling(s, a.cancel) == s
    ensures Rank(c, Reply(c, s, a)) < Rank(c, s)
  {
    hide Times;
    hide Wind;
    hide Fail;
    hide Unseen;
    hide Fresh;
    hide Keep;
    hide Without;
    hide ClaimsOk;
    hide WaitingOk;
    hide UnseenAll;
    RankBounds(c, s);
    if s.pc.Select? {
      SelectedSize(c, s, a);
    }
  }

  lemma SelectedSize(c: Config, s: State, a: Answer)
    requires Inv(c, s) && s.pc.Select?
    ensures PickCount(c, s.job, s.pc.urls) >= 0
    ensures |s.pc.urls + Without(Take(Keep(a.urls, s.pc.found), PickCount(c, s.job, s.pc.urls)), s.pc.urls)| <= Lim(c.maxPages)
  {
  }

  lemma PageDrops(c: Config, s: State, a: Answer)
    requires Inv(c, s) && (s.pc.PageTop? || s.pc.Scrape? || s.pc.Notes? || s.pc.AssessTop?) && Cancelling(s, a.cancel) == s
    ensures Rank(c, Reply(c, s, a)) < Rank(c, s)
  {
    hide Times;
    hide Wind;
    hide Fail;
    hide ClaimsOk;
    hide WaitingOk;
    hide UnseenAll;
    RankBounds(c, s);
    RankBounds(c, Fetched(s));
    RankBounds(c, As(s, Planning));
  }

  lemma RankDrops(c: Config, s: State, a: Answer)
    requires Inv(c, s) && Live(s.pc)
    ensures Rank(c, Reply(c, s, a)) < Rank(c, s)
  {
    hide Inv;
    hide Times;
    hide Planned;
    hide AtTop;
    hide Hunted;
    hide Selected;
    hide AtPage;
    hide Scraped;
    hide AtAssess;
    hide Assessed;
    hide LoopHead;
    hide Wind;
    hide Fail;
    hide ReadHead;
    CancellingOk(c, s, a.cancel);
    var s1 := Cancelling(s, a.cancel);
    match s1.pc
    case Entry => OutsideDrops(c, s1, a);
    case Plan => OutsideDrops(c, s1, a);
    case Assess(_) => OutsideDrops(c, s1, a);
    case Top(_) => SearchDrops(c, s1, a);
    case Hunt(_) => SearchDrops(c, s1, a);
    case Select(_, _, _) => SearchDrops(c, s1, a);
    case PageTop(_) => PageDrops(c, s1, a);
    case Scrape(_, _) => PageDrops(c, s1, a);
    case Notes(_, _) => PageDrops(c, s1, a);
    case AssessTop(_) => PageDrops(c, s1, a);
    case _ =>
  }

  lemma RankIsPositive(c: Config, s: State)
    requires Inv(c, s)
    ensures Live(s.pc) ==> Rank(c, s) >= 1
    ensures s.pc.Done? ==> Rank(c, s) == 0 && Finished(s.job)
  {
    hide Times;
    RankBounds(c, s);
  }

  lemma ContinuationPcs(c: Config)
    ensures forall s {:trigger Wind(s)} :: Live(Wind(s).pc)
    ensures forall s {:trigger Begin(c, s)} :: Live(Begin(c, s).pc)
    ensures forall s {:trigger LoopHead(c, s)} :: Live(LoopHead(c, s).pc)
    ensures forall s, r {:trigger RoundHead(c, s, r)} :: Live(RoundHead(c, s, r).pc)
    ensures forall s, r {:trigger ReadHead(s, r)} :: Live(ReadHead(s, r).pc)
  {
    hide HasRelevant;
  }

  lemma StaysInProcess(c: Config, s: State, a: Answer)
    requires Live(s.pc) || s.pc.Done?
    ensures Live(Reply(c, s, a).pc) || Reply(c, s, a).pc.Done?
    ensures s.pc.Done? ==> Reply(c, s, a) == s
  {
    hide Wind;
    hide Begin;
    hide LoopHead;
    hide RoundHead;
    hide ReadHead;
    ContinuationPcs(c);
    hide Fresh;
    hide Unseen;
    hide Keep;
    hide Without;
    hide HasRelevant;
  }

  /** Whatever the world answers, a run that is not killed ends, with a report and a final status. */
  lemma {:induction false} RunEnds(c: Config, s: State, answers: seq<Answer>)
    requires Inv(c, s) && (Live(s.pc) || s.pc.Done?) && |answers| >= Rank(c, s)
    ensures Replies(c, s, answers).pc.Done? && Finished(Replies(c, s, answers).job)
    decreases |answers|
  {
    hide Rank;
    hide Reply;
    hide Inv;
    RankIsPositive(c, s);
    if answers != [] {
      if Live(s.pc) {
        RankDrops(c, s, answers[0]);
      }
      ReplyKeeps(c, s, answers[0]);
      StaysInProcess(c, s, answers[0]);
      RunEnds(c, Reply(c, s, answers[0]), answers[1..]);
    }
  }

  // ---- where the code and its design part ----

  /**
    No snapshot is ever terminal, so restore never takes its clean-up branch: a run that saved its report
    and crashed before deleting its checkpoint is restored as interrupted, and resuming runs it again.
   */
  lemma ArchivedRunRunsAgain(c: Config, s: State, saved: bool)
    requires Inv(c, s) && s.pc.Cleanup? && s.disk.Some?
    ensures var s1 := History(c, s, [Crash, Restart, Resume(false)]);
            s1.pc.Entry? && !s1.job.report && s1.job.status.Queued? && s1.loop == s.disk.value.loop
    ensures History(c, s, [Replied(Answer(false, false, false, saved, false, [], [], Success)), Crash]).pc
            == if saved then Gone else Down
  {
    hide ClaimsOk;
    hide WaitingOk;
    hide Bounds;
    var s1 := Crashing(s);
    var s2 := Restarting(s1);
    var ok := Answer(false, false, false, saved, false, [], [], Success);
    assert [Crash, Restart, Resume(false)][1..] == [Restart, Resume(false)];
    assert [Restart, Resume(false)][1..] == [Resume(false)];
    assert History(c, s2, [Resume(false)]) == History(c, Resuming(s2, false), []);
    assert [Replied(ok), Crash][1..] == [Crash];
    assert History(c, Reply(c, s, ok), [Crash]) == History(c, Crashing(Reply(c, s, ok)), []);
  }

  lemma RestoreKeepsEveryRun(c: Config, s: State)
    requires Inv(c, s) && s.pc.Down?
    ensures Restarting(s).pc.Idle? && Restarting(s).loop == s.disk.value.loop
  {
  }
}

module ResearchRunner {
  import opened ResearchModel
  import opened ResearchProofs

  /** How a block of the program was left: waiting for the world, by falling through, by StopRun, or by an error. */
  datatype Flow = Suspended | Through | Returned | Stopped | Raised

  lemma {:induction false} DoneStays(c: Config, s: State, answers: seq<Answer>)
    requires s.pc.Done?
    ensures Replies(c, s, answers) == s
    decreases |answers|
  {
    if answers != [] {
      DoneStays(c, s, answers[1..]);
    }
  }

  lemma OneReply(c: Config, s: State, answers: seq<Answer>)
    requires answers != []
    ensures Replies(c, s, answers) == Replies(c, Reply(c, s, answers[0]), answers[1..])
  {
  }

  /**
    One job in one process.  `inbox` is what the world will answer, await by await; when it runs out
    the process is waiting at `pc`, which is where a crash finds it.
   */
  class Manager {
    const c: Config
    var pc: Pc
    var job: Job
    var loop: Loop
    var disk: Option<Snapshot>
    var past: Past
    var inbox: seq<Answer>

    ghost function View(): State
      reads this
    {
      State(pc, job, loop, disk, past)
    }

    constructor (c: Config)
      ensures this.c == c && View() == NewJob() && Inv(c, View()) && inbox == []
    {
      this.c := c;
      pc, loop, disk, inbox := Entry, FreshLoop(), None, [];
      job, past := Job(Queued, 0, 0, 0, [], false, false, false), Past([], [], 0, 0, 0, true);
      new;
      NewJobOk(c);
    }

    method Await(at: Pc, ghost goal: State) returns (a: Option<Answer>)
      requires Live(at) && goal == Replies(c, View().(pc := at), inbox)
      modifies this`pc, this`job, this`inbox
      ensures a.None? ==> View() == goal && inbox == []
      ensures a.Some? ==> pc == at && goal == Replies(c, Reply(c, View(), a.value), inbox)
      ensures a.Some? ==> |inbox| < |old(inbox)| && Cancelling(View(), a.value.cancel) == View()
      ensures a.Some? ==> View() == Cancelling(old(View()).(pc := at), a.value.cancel)
    {
      hide Reply;
      pc := at;
      if inbox == [] {
        return None;
      }
      a := Some(inbox[0]);
      OneReply(c, View(), inbox);
      ghost var s := View();
      if a.value.cancel && !Terminal(job.status) {
        job := job.(cancel := true);
      }
      inbox := inbox[1..];
      ReplyAfterCancel(c, s, a.value);
    }

    method Checkpoint(saved: bool)
      modifies this`disk, this`past
      ensures View() == Save(old(View()), saved)
    {
      if saved {
        disk := Some(Snapshot(job, loop));
      } else {
        past := past.(reliable := false);
      }
    }

    /** The budgeted LLM step: refused at the cap, counted otherwise. */
    method Llm() returns (granted: bool)
      modifies this`job, this`past
      ensures granted == !Capped(c, old(View()))
      ensures View() == if granted then Spend(old(View())) else old(View())
    {
      granted := job.llm < c.cap;
      if granted {
        job := job.(llm := job.llm + 1);
        past := past.(calls := past.calls + 1);
      }
    }

    /** The caller checkpoints after the read, with the answer `saved`. */
    method ReadPage(r: int, url: Url, ghost goal: State) returns (flow: Flow, saved: bool)
      requires goal == Replies(c, View().(pc := Scrape(r, url)), inbox)
      modifies this`pc, this`job, this`past, this`inbox
      ensures flow.Suspended? || flow.Through? || flow.Stopped? || flow.Raised?
      ensures |inbox| <= |old(inbox)| && (flow.Suspended? || |inbox| < |old(inbox)|)
      ensures flow.Suspended? ==> View() == goal
      ensures flow.Through? ==> goal == Replies(c, ReadHead(Save(View(), saved), r), inbox)
      ensures flow.Stopped? ==> goal == Replies(c, Wind(View()), inbox)
      ensures flow.Raised? ==> goal == Replies(c, Fail(View()), inbox)
    {
      hide Replies;
      hide Wind;
      saved := false;
      var a := Await(Scrape(r, url), goal);
      if a.None? { return Suspended, saved; }
      saved := a.value.saved;
      if a.value.outcome.Crashed? { return Through, saved; }
      job := job.(pages := job.pages + 1);
      past := past.(fetched := past.fetched + 1);
      if a.value.outcome.Unsuccessful? { return Through, saved; }
      var granted := Llm();
      if !granted { return Stopped, saved; }
      a := Await(Notes(r, url), goal);
      if a.None? { return Suspended, saved; }
      saved := a.value.saved;
      if a.value.raises { return Raised, saved; }
      job := job.(sources := job.sources + [Source(|job.sources| + 1, url, a.value.flag)]);
      return Through, saved;
    }

    /** Drain `pending`: each url is claimed on disk before it is read. */
    method ReadPhase(r: int, ghost goal: State) returns (flow: Flow)
      requires goal == Replies(c, ReadHead(View(), r), inbox)
      modifies this`pc, this`job, this`loop, this`disk, this`past, this`inbox
      ensures flow.Suspended? || flow.Through? || flow.Stopped? || flow.Raised?
      ensures |inbox| <= |old(inbox)|
      ensures flow.Suspended? ==> View() == goal
      ensures flow.Through? ==> goal == Replies(c, View().(pc := AssessTop(r)), inbox)
      ensures flow.Stopped? ==> goal == Replies(c, Wind(View()), inbox)
      ensures flow.Raised? ==> goal == Replies(c, Fail(View()), inbox)
      ensures old(job.cancel) ==>
                past == old(past) && (flow.Stopped? || flow.Suspended? || (flow.Through? && old(loop.pending) == []))
    {
      hide Replies;
      hide Wind;
      hide Fail;
      while loop.pending != []
        invariant |inbox| <= |old(inbox)|
        invariant old(job.cancel) ==> job.cancel && past == old(past) && loop == old(loop)
        invariant goal == Replies(c, ReadHead(View(), r), inbox)
        decreases |inbox|
      {
        var a := Await(PageTop(r), goal);
        if a.None? { return Suspended; }
        if job.cancel || a.value.expired { return Stopped; }
        if job.pages >= c.maxPages { return Stopped; }
        var url := loop.pending[0];
        var claim := ReadClaim(r, c.norm(url));
        loop := loop.(pending := loop.pending[1..], seen := loop.seen + {claim.key}, claims := loop.claims + [claim]);
        past := past.(begun := past.begun + [claim]);
        Checkpoint(a.value.saved);
        var saved;
        flow, saved := ReadPage(r, url, goal);
        if !flow.Through? { return flow; }
        Checkpoint(saved);
      }
      return Through;
    }

    method Gather(results: seq<Url>, seen: set<Key>) returns (found: seq<Url>)
      ensures found == Fresh(c.norm, results, seen)
    {
      found := [];
      for i := 0 to |results|
        invariant found == Fresh(c.norm, results[..i], seen)
      {
        assert results[..i + 1][..i] == results[..i];
        var u := results[i];
        var listed := false;
        for j := 0 to |found|
          invariant listed <==> Listed(c.norm, found[..j], c.norm(u))
        {
          ListedOneMore(c.norm, found, j, c.norm(u));
          listed := listed || c.norm(found[j]) == c.norm(u);
        }
        assert found[..|found|] == found;
        if Http(u) && c.norm(u) !in seen && !listed {
          found := found + [u];
        }
      }
      assert results[..|results|] == results;
    }

    /** Search, then select within the page budget, then commit the round's list to disk. */
    method SearchPhase(r: int, ghost goal: State) returns (flow: Flow)
      requires goal == Replies(c, View().(pc := Hunt(r)), inbox)
      requires job.pages < c.maxPages
      modifies this`pc, this`job, this`loop, this`disk, this`past, this`inbox
      ensures flow.Suspended? || flow.Through? || flow.Stopped? || flow.Raised?
      ensures |inbox| <= |old(inbox)|
      ensures flow.Suspended? ==> View() == goal
      ensures flow.Through? ==> goal == Replies(c, ReadHead(View(), r), inbox) && job.status.Reading?
      ensures flow.Stopped? ==> goal == Replies(c, Wind(View()), inbox)
      ensures flow.Raised? ==> goal == Replies(c, Fail(View()), inbox)
    {
      hide Replies;
      hide Wind;
      hide Fail;
      hide ReadHead;
      hide Fresh;
      hide Unseen;
      hide Keep;
      hide Without;
      var a := Await(Hunt(r), goal);
      if a.None? { return Suspended; }
      if a.value.raises { return Raised; }
      var found := Gather(a.value.urls, loop.seen);
      var budget := c.maxPages - job.pages;
      var urls := Unseen(c.norm, loop.pending, loop.seen);
      if |urls| > budget { urls := urls[..budget]; }
      if found != [] && budget - |urls| > 0 {
        var granted := Llm();
        if !granted { return Stopped; }
        var k := if budget - |urls| < PICK_PER_ROUND then budget - |urls| else PICK_PER_ROUND;
        a := Await(Select(r, found, urls), goal);
        if a.None? { return Suspended; }
        if a.value.raises { return Raised; }
        var picked := Keep(a.value.urls, found);
        if |picked| > k { picked := picked[..k]; }
        urls := urls + Without(picked, urls);
      }
      loop := loop.(pending := urls, phase := Read);
      past := past.(lists := past.lists + [urls]);
      Checkpoint(a.value.saved);
      job := job.(status := Reading);
      return Through;
    }

    /** The rounds, from the planned queries to a verdict or a ceiling. */
    method Rounds(ghost goal: State) returns (flow: Flow)
      requires goal == Replies(c, Begin(c, View()), inbox)
      modifies this`pc, this`job, this`loop, this`disk, this`past, this`inbox
      ensures flow.Suspended? || flow.Returned? || flow.Stopped? || flow.Raised?
      ensures flow.Suspended? ==> View() == goal
      ensures flow.Returned? || flow.Stopped? ==> goal == Replies(c, Wind(View()), inbox)
      ensures flow.Raised? ==> goal == Replies(c, Fail(View()), inbox)
      ensures old(job.cancel) ==> past == old(past) && !flow.Raised?
    {
      hide Replies;
      hide Wind;
      hide Fail;
      hide ReadHead;
      var r := if loop.phase.Read? then loop.round else loop.round + 1;
      if r < 1 { r := 1; }
      while r <= c.maxRounds
        invariant goal == Replies(c, RoundHead(c, View(), r), inbox)
        invariant old(job.cancel) ==> job.cancel && past == old(past)
        decreases |inbox|
      {
        var a := Await(Top(r), goal);
        if a.None? { return Suspended; }
        if job.cancel || a.value.expired { return Stopped; }
        if job.pages >= c.maxPages { return Stopped; }
        job := job.(rounds := if job.rounds < r then r else job.rounds);
        loop := loop.(round := r);
        if !loop.phase.Read? {
          job := job.(status := Searching);
          flow := SearchPhase(r, goal);
          if !flow.Through? { return flow; }
        }
        job := job.(status := Reading);
        flow := ReadPhase(r, goal);
        if !flow.Through? { return flow; }
        flow := Verdict(r, goal);
        if !flow.Through? { return flow; }
        r := r + 1;
      }
      return Returned;
    }

    /** Assess the round; falls through when another round is wanted. */
    method Verdict(r: int, ghost goal: State) returns (flow: Flow)
      requires goal == Replies(c, View().(pc := AssessTop(r)), inbox)
      modifies this`pc, this`job, this`loop, this`disk, this`past, this`inbox
      ensures !flow.Suspended? ==> |inbox| < |old(inbox)|
      ensures flow.Suspended? ==> View() == goal
      ensures flow.Through? ==> goal == Replies(c, RoundHead(c, View(), r + 1), inbox)
      ensures flow.Returned? || flow.Stopped? ==> goal == Replies(c, Wind(View()), inbox)
      ensures flow.Raised? ==> goal == Replies(c, Fail(View()), inbox)
      ensures old(job.cancel) ==> past == old(past) && (flow.Stopped? || flow.Suspended?)
    {
      hide Replies;
      hide Wind;
      hide Fail;
      var a := Await(AssessTop(r), goal);
      if a.None? { return Suspended; }
      if job.cancel || a.value.expired { return Stopped; }
      job := job.(status := Planning);
      var granted := Llm();
      if !granted { return Stopped; }
      a := Await(Assess(r), goal);
      if a.None? { return Suspended; }
      if a.value.raises { return Raised; }
      if a.value.flag || a.value.queries == [] { return Returned; }
      loop := loop.(queries := Some(a.value.queries), phase := Search);
      Checkpoint(a.value.saved);
      return Through;
    }

    /** _loop: plan once, then the rounds. */
    method MainLoop(ghost goal: State) returns (flow: Flow)
      requires goal == Replies(c, LoopHead(c, View()), inbox)
      modifies this`pc, this`job, this`loop, this`disk, this`past, this`inbox
      ensures flow.Suspended? || flow.Returned? || flow.Stopped? || flow.Raised?
      ensures flow.Suspended? ==> View() == goal
      ensures flow.Returned? || flow.Stopped? ==> goal == Replies(c, Wind(View()), inbox)
      ensures flow.Raised? ==> goal == Replies(c, Fail(View()), inbox)
    {
      hide Replies;
      hide Wind;
      hide Fail;
      hide Begin;
      hide Unseen;
      if loop.queries.None? {
        job := job.(status := Planning);
        var granted := Llm();
        if !granted { return Stopped; }
        var a := Await(Plan, goal);
        if a.None? { return Suspended; }
        if a.value.raises { return Raised; }
        loop := loop.(queries := Some(a.value.queries));
        loop := loop.(pending := Unseen(c.norm, c.seeds, loop.seen));
        Checkpoint(a.value.saved);
      }
      flow := Rounds(goal);
    }

    method AnyRelevant(sources: seq<Source>) returns (relevant: bool)
      ensures relevant <==> HasRelevant(sources)
    {
      relevant := false;
      for i := 0 to |sources|
        invariant relevant <==> HasRelevant(sources[..i])
      {
        RelevantOneMore(sources, i);
        relevant := relevant || sources[i].relevant;
      }
      assert sources[..|sources|] == sources;
    }

    /** Every way out of the loop ends here: a report, then a final status. */
    method WindDown(ghost goal: State)
      requires goal == Replies(c, Wind(View()), inbox)
      modifies this`pc, this`job, this`disk, this`past, this`inbox
      ensures View() == goal
    {
      hide Replies;
      hide HasRelevant;
      hide Planned;
      hide AtTop;
      hide Hunted;
      hide Selected;
      hide AtPage;
      hide Scraped;
      hide AtAssess;
      hide Assessed;
      hide LoopHead;
      job := job.(status := Synthesizing);
      var relevant := AnyRelevant(job.sources);
      var failed := false;
      if relevant {
        job := job.(llm := job.llm + 1);
        past := past.(calls := past.calls + 1);
        var a := Await(Synth, goal);
        if a.None? { return; }
        failed := a.value.raises;
      }
      job := job.(report := true, error := job.error || failed);
      job := job.(status := if job.error then Failed else if job.cancel then Cancelled else Completed);
      SaveArtifact(goal);
    }

    /** The artifact is written; only then, and only if that worked, is the checkpoint removed. */
    method SaveArtifact(ghost goal: State)
      requires goal == Replies(c, View().(pc := Archive), inbox) && Terminal(job.status)
      modifies this`pc, this`job, this`disk, this`inbox
      ensures View() == goal
    {
      hide Replies;
      hide Wind;
      hide Planned;
      hide AtTop;
      hide Hunted;
      hide Selected;
      hide AtPage;
      hide Scraped;
      hide AtAssess;
      hide Assessed;
      hide LoopHead;
      var a := Await(Archive, goal);
      if a.None? { return; }
      if a.value.saved {
        a := Await(Cleanup, goal);
        if a.None? { return; }
        if a.value.saved {
          disk := None;
        }
      }
      pc := Done;
      DoneStays(c, View(), inbox);
    }

    /** run_research: the process does exactly what the control points say, however far the answers go. */
    method RunResearch()
      requires pc == Entry && Inv(c, View())
      modifies this`pc, this`job, this`loop, this`disk, this`past, this`inbox
      ensures View() == Replies(c, old(View()), old(inbox)) && Inv(c, View())
      ensures |old(inbox)| >= Rank(c, old(View())) ==> pc.Done? && Finished(job)
    {
      hide Replies;
      hide Wind;
      hide LoopHead;
      hide Inv;
      hide Rank;
      ghost var goal := Replies(c, View(), inbox);
      RepliesKeep(c, View(), inbox);
      if |inbox| >= Rank(c, View()) {
        RunEnds(c, View(), inbox);
      }
      var a := Await(Entry, goal);
      if a.None? { return; }
      Checkpoint(a.value.saved);
      if !a.value.expired {
        var flow := MainLoop(goal);
        if flow.Suspended? { return; }
        if flow.Raised? {
          job := job.(error := true);
        }
      }
      WindDown(goal);
    }

    /** The process dies; what it will be asked next dies with it. */
    method Crash()
      requires Inv(c, View())
      modifies this`pc, this`past, this`inbox
      ensures View() == Crashing(old(View())) && Inv(c, View()) && inbox == []
    {
      CrashKeeps(c, View());
      inbox := [];
      if !pc.Down? && !pc.Gone? {
        pc := if disk.Some? then Down else Gone;
        past := past.(crashes := past.crashes + 1);
      }
    }

    method RestoreFromCheckpoints()
      requires Inv(c, View())
      modifies this`pc, this`job, this`loop, this`disk
      ensures View() == Restarting(old(View())) && Inv(c, View())
    {
      hide Inv;
      RestartKeeps(c, View(), false);
      if pc.Down? && disk.Some? {
        if Terminal(disk.value.job.status) {
          pc, disk := Gone, None;
        } else {
          job, loop := disk.value.job.(status := Interrupted), disk.value.loop;
          pc := Idle;
        }
      }
    }

    method ResumeResearch(cancel: bool, answers: seq<Answer>) returns (resumed: bool)
      requires Inv(c, View())
      modifies this`pc, this`job, this`inbox
      ensures resumed <==> old(pc).Idle?
      ensures View() == Resuming(old(View()), cancel) && Inv(c, View())
      ensures resumed ==> pc == Entry && inbox == answers
    {
      RestartKeeps(c, View(), cancel);
      resumed := pc.Idle?;
      if resumed {
        if cancel && !Terminal(job.status) {
          job := job.(cancel := true);
        }
        job := job.(status := Queued);
        pc, inbox := Entry, answers;
      }
    }
  }

  lemma {:induction false} RepliesKeep(c: Config, s: State, answers: seq<Answer>)
    requires Inv(c, s)
    ensures Inv(c, Replies(c, s, answers))
    decreases |answers|
  {
    hide Inv;
    hide Reply;
    if answers != [] {
      ReplyKeeps(c, s, answers[0]);
      RepliesKeep(c, Reply(c, s, answers[0]), answers[1..]);
    }
  }

  lemma RelevantOneMore(sources: seq<Source>, i: nat)
    requires i < |sources|
    ensures HasRelevant(sources[..i + 1]) <==> HasRelevant(sources[..i]) || sources[i].relevant
  {
    if HasRelevant(sources[..i]) {
      var j :| 0 <= j < i && sources[..i][j].relevant;
      assert sources[..i + 1][j].relevant;
    }
    assert sources[..i + 1][i] == sources[i];
  }

  lemma ReplyAfterCancel(c: Config, s: State, a: Answer)
    requires Live(s.pc)
    ensures Reply(c, Cancelling(s, a.cancel), a) == Reply(c, s, a)
    ensures Cancelling(Cancelling(s, a.cancel), a.cancel) == Cancelling(s, a.cancel)
  {
    assert Cancelling(Cancelling(s, a.cancel), a.cancel) == Cancelling(s, a.cancel);
  }

  lemma ListedOneMore(norm: Url -> Key, urls: seq<Url>, j: nat, key: Key)
    requires j < |urls|
    ensures Listed(norm, urls[..j + 1], key) <==> Listed(norm, urls[..j], key) || norm(urls[j]) == key
  {
    if Listed(norm, urls[..j], key) {
      var i :| 0 <= i < j && norm(urls[..j][i]) == key;
      assert urls[..j + 1][i] == urls[..j][i];
    }
    assert urls[..j + 1][j] == urls[j];
  }
}
