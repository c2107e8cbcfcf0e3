/**
  Ranked retrieval (app/retrieval.py): interleaving two keyword sources, reciprocal rank fusion of two
  signals, collapsing chunks to their parents, and the depth loop.  Scores are reals.
 */
module RankedLists {

  datatype Option<+T> = None | Some(value: T)

  /** Stable chunk identity. */
  datatype Key = Key(kind: string, ref: string, chunk: int)

  datatype Hit = Hit(key: Key, parentHash: string, score: real)

  function Keys(hits: seq<Hit>): set<Key> { set i | 0 <= i < |hits| :: hits[i].key }

  function Min(a: int, b: int): int { if a < b then a else b }

  function Max(a: int, b: int): int { if a < b then b else a }

  function Take<T>(s: seq<T>, n: nat): seq<T> { s[..Min(n, |s|)] }

  // ---- the order of keys: by kind, then reference, then chunk ----

  predicate TextLess(a: string, b: string)
    decreases |a|
  {
    if b == "" then false
    else if a == "" then true
    else a[0] < b[0] || (a[0] == b[0] && TextLess(a[1..], b[1..]))
  }

  lemma {:induction false} TextOrder(a: string, b: string)
    ensures !TextLess(a, a)
    ensures TextLess(a, b) ==> !TextLess(b, a)
    ensures a == b || TextLess(a, b) || TextLess(b, a)
    decreases |a|
  {
    if a != "" {
      if b != "" {
        TextOrder(a[1..], b[1..]);
        assert a == [a[0]] + a[1..] && b == [b[0]] + b[1..];
      }
      TextOrder(a[1..], a[1..]);
    }
  }

  lemma {:induction false} TextTrans(a: string, b: string, c: string)
    requires TextLess(a, b) && TextLess(b, c)
    ensures TextLess(a, c)
    decreases |a|
  {
    if a != "" && a[0] == b[0] && b[0] == c[0] {
      TextTrans(a[1..], b[1..], c[1..]);
    }
  }

  /** At the first place where they differ, `a` ends or has the smaller character. */
  ghost predicate Precedes(a: string, b: string) {
    exists n: nat :: PrecedesAt(a, b, n)
  }

  predicate PrecedesAt(a: string, b: string, n: nat) {
    n <= |a| && n < |b| && a[..n] == b[..n] && (n == |a| || a[n] < b[n])
  }

  lemma {:induction false} TextLessIff(a: string, b: string)
    ensures TextLess(a, b) <==> Precedes(a, b)
    decreases |a|
  {
    if b != "" {
      if a == "" || a[0] < b[0] {
        assert PrecedesAt(a, b, 0);
      } else if a[0] == b[0] {
        TextLessIff(a[1..], b[1..]);
        TailsPrecede(a, b);
      }
    }
  }

  lemma TailsPrecede(a: string, b: string)
    requires a != "" && b != "" && a[0] == b[0]
    ensures Precedes(a[1..], b[1..]) <==> Precedes(a, b)
  {
    if Precedes(a[1..], b[1..]) {
      var n: nat :| PrecedesAt(a[1..], b[1..], n);
      assert a[..n + 1] == [a[0]] + a[1..][..n] && b[..n + 1] == [b[0]] + b[1..][..n];
      assert PrecedesAt(a, b, n + 1);
    }
    if Precedes(a, b) {
      var n: nat :| PrecedesAt(a, b, n);
      assert n > 0;
      assert a[..n][0] == a[0];
      assert a[1..][..n - 1] == a[..n][1..] && b[1..][..n - 1] == b[..n][1..];
      assert PrecedesAt(a[1..], b[1..], n - 1);
    }
  }

  predicate KeyLess(a: Key, b: Key) {
    || TextLess(a.kind, b.kind)
    || (a.kind == b.kind && TextLess(a.ref, b.ref))
    || (a.kind == b.kind && a.ref == b.ref && a.chunk < b.chunk)
  }

  /** sort key: highest score first, then the key. */
  predicate Before(score: Key -> real, a: Key, b: Key) {
    score(a) > score(b) || (score(a) == score(b) && KeyLess(a, b))
  }

  lemma BeforeOrder(score: Key -> real, a: Key, b: Key)
    ensures !Before(score, a, a)
    ensures Before(score, a, b) ==> !Before(score, b, a)
    ensures a == b || Before(score, a, b) || Before(score, b, a)
  {
    TextOrder(a.kind, b.kind);
    TextOrder(a.ref, b.ref);
  }

  lemma BeforeTrans(score: Key -> real, a: Key, b: Key, c: Key)
    requires Before(score, a, b) && Before(score, b, c)
    ensures Before(score, a, c)
  {
    if TextLess(a.kind, b.kind) && TextLess(b.kind, c.kind) { TextTrans(a.kind, b.kind, c.kind); }
    if TextLess(a.ref, b.ref) && TextLess(b.ref, c.ref) { TextTrans(a.ref, b.ref, c.ref); }
  }

  // ---- first occurrences ----

  /** The hits that are first with their key, in order. */
  function Dedup(hits: seq<Hit>): seq<Hit> {
    if hits == [] then []
    else
      var front := Dedup(hits[..|hits| - 1]);
      if hits[|hits| - 1].key in Keys(hits[..|hits| - 1]) then front else front + [hits[|hits| - 1]]
  }

  lemma KeysSnoc(hits: seq<Hit>, h: Hit)
    ensures Keys(hits + [h]) == Keys(hits) + {h.key}
  {
    assert (hits + [h])[|hits|] == h;
    forall k | k in Keys(hits) ensures k in Keys(hits + [h]) {
      var i :| 0 <= i < |hits| && hits[i].key == k;
      assert (hits + [h])[i].key == k;
    }
  }

  lemma KeysTo(hits: seq<Hit>, i: nat)
    requires i < |hits|
    ensures Keys(hits[..i + 1]) == Keys(hits[..i]) + {hits[i].key}
  {
    assert hits[..i + 1] == hits[..i] + [hits[i]];
    KeysSnoc(hits[..i], hits[i]);
  }

  lemma {:induction false} DedupKeys(hits: seq<Hit>)
    ensures Keys(Dedup(hits)) == Keys(hits)
    ensures forall i, j :: 0 <= i < j < |Dedup(hits)| ==> Dedup(hits)[i].key != Dedup(hits)[j].key
    ensures forall h :: h in Dedup(hits) ==> h in hits
  {
    if hits != [] {
      var front, h := hits[..|hits| - 1], hits[|hits| - 1];
      DedupKeys(front);
      KeysSnoc(front, h);
      KeysSnoc(Dedup(front), h);
      assert hits == front + [h];
      forall i | 0 <= i < |Dedup(front)| ensures Dedup(front)[i].key in Keys(front) {
        assert Dedup(front)[i] in Dedup(front);
      }
    }
  }

  /** Position p is the first with its key. */
  predicate FirstAt(hits: seq<Hit>, key: Key, p: nat) {
    p < |hits| && hits[p].key == key && forall i :: 0 <= i < p ==> hits[i].key != key
  }

  /** What is kept are the first hits of their keys, in the order of the list. */
  ghost predicate Firsts(hits: seq<Hit>, kept: seq<Hit>, at: seq<nat>) {
    && |at| == |kept|
    && (forall i :: 0 <= i < |at| ==> FirstAt(hits, kept[i].key, at[i]) && hits[at[i]] == kept[i])
    && forall i, j :: 0 <= i < j < |at| ==> at[i] < at[j]
  }

  lemma {:induction false} DedupKeepsFirsts(hits: seq<Hit>) returns (at: seq<nat>)
    ensures Firsts(hits, Dedup(hits), at)
  {
    hide Firsts;
    if hits == [] {
      at := [];
      NoFirsts();
    } else {
      var front, h := hits[..|hits| - 1], hits[|hits| - 1];
      at := DedupKeepsFirsts(front);
      assert hits == front + [h];
      if h.key in Keys(front) {
        FirstsStay(front, h, Dedup(front), at);
      } else {
        FirstsGrow(front, h, Dedup(front), at);
        at := at + [|front|];
      }
    }
  }

  lemma NoFirsts()
    ensures Firsts([], [], [])
  {
  }

  lemma FirstsStay(front: seq<Hit>, h: Hit, kept: seq<Hit>, at: seq<nat>)
    requires Firsts(front, kept, at)
    ensures Firsts(front + [h], kept, at)
  {
  }

  lemma FirstsGrow(front: seq<Hit>, h: Hit, kept: seq<Hit>, at: seq<nat>)
    requires Firsts(front, kept, at) && h.key !in Keys(front)
    ensures Firsts(front + [h], kept + [h], at + [|front|])
  {
    FirstsStay(front, h, kept, at);
    assert forall i :: 0 <= i < |front| ==> front[i].key in Keys(front);
    assert FirstAt(front + [h], h.key, |front|);
  }

  lemma {:induction false} DedupPrefix(hits: seq<Hit>, n: nat)
    requires n <= |hits|
    ensures Dedup(hits[..n]) <= Dedup(hits)
    decreases |hits|
  {
    if n < |hits| {
      assert hits[..|hits| - 1][..n] == hits[..n];
      DedupPrefix(hits[..|hits| - 1], n);
    } else {
      assert hits[..n] == hits;
    }
  }
}

/** _merge_keyword_sources: round robin over two ranked lists, skipping keys already taken. */
module KeywordMerge {
  import opened RankedLists

  /** Position `at` of the first source, or of the second. */
  datatype Pick = First(at: nat) | Second(at: nat)

  /** The first position from `from` on whose key is new; the length when there is none. */
  function NextNew(hits: seq<Hit>, from: nat, seen: set<Key>): (n: nat)
    requires from <= |hits|
    ensures from <= n <= |hits|
    ensures forall i :: from <= i < n ==> hits[i].key in seen
    ensures n < |hits| ==> hits[n].key !in seen
    decreases |hits| - from
  {
    if from == |hits| || hits[from].key !in seen then from else NextNew(hits, from + 1, seen)
  }

  /** Turn by turn, the source whose turn it is if it has something new, else the other one. */
  function Alternate(a: seq<Hit>, b: seq<Hit>, i: nat, j: nat, seen: set<Key>, room: int, firstTurn: bool): seq<Pick>
    requires i <= |a| && j <= |b|
    decreases |a| - i + |b| - j
  {
    var n, m := NextNew(a, i, seen), NextNew(b, j, seen);
    if room <= 0 || (n == |a| && m == |b|) then []
    else if n < |a| && (firstTurn || m == |b|)
    then [First(n)] + Alternate(a, b, n + 1, j, seen + {a[n].key}, room - 1, false)
    else [Second(m)] + Alternate(a, b, i, m + 1, seen + {b[m].key}, room - 1, true)
  }

  function Merge(a: seq<Hit>, b: seq<Hit>, depth: int): seq<Pick> { Alternate(a, b, 0, 0, {}, depth, true) }

  predicate InRange(a: seq<Hit>, b: seq<Hit>, p: Pick) { if p.First? then p.at < |a| else p.at < |b| }

  function HitOf(a: seq<Hit>, b: seq<Hit>, p: Pick): Hit
    requires InRange(a, b, p)
  {
    if p.First? then a[p.at] else b[p.at]
  }

  predicate AllInRange(a: seq<Hit>, b: seq<Hit>, picks: seq<Pick>) { forall p :: p in picks ==> InRange(a, b, p) }

  function Chosen(a: seq<Hit>, b: seq<Hit>, picks: seq<Pick>): (r: seq<Hit>)
    requires AllInRange(a, b, picks)
    ensures |r| == |picks|
  {
    if picks == [] then []
    else
      assert picks == picks[..|picks| - 1] + [picks[|picks| - 1]];
      Chosen(a, b, picks[..|picks| - 1]) + [HitOf(a, b, picks[|picks| - 1])]
  }

  function FromFirst(picks: seq<Pick>): nat {
    if picks == [] then 0 else (if picks[0].First? then 1 else 0) + FromFirst(picks[1..])
  }

  function PickedKeys(a: seq<Hit>, b: seq<Hit>, picks: seq<Pick>): set<Key>
    requires AllInRange(a, b, picks)
  {
    if picks == [] then {} else {HitOf(a, b, picks[0]).key} + PickedKeys(a, b, picks[1..])
  }

  /** What a run of the merge from a given point picks. */
  ghost predicate Picks(a: seq<Hit>, b: seq<Hit>, i: nat, j: nat, seen: set<Key>, picks: seq<Pick>)
    decreases |picks|
  {
    picks == [] ||
    (&& InRange(a, b, picks[0])
     && HitOf(a, b, picks[0]).key !in seen
     && (if picks[0].First? then i <= picks[0].at else j <= picks[0].at)
     && Picks(a, b, if picks[0].First? then picks[0].at + 1 else i, if picks[0].First? then j else picks[0].at + 1,
              seen + {HitOf(a, b, picks[0]).key}, picks[1..]))
  }

  lemma PicksCons(a: seq<Hit>, b: seq<Hit>, i: nat, j: nat, seen: set<Key>, p: Pick, rest: seq<Pick>)
    requires InRange(a, b, p) && HitOf(a, b, p).key !in seen && (if p.First? then i <= p.at else j <= p.at)
    requires Picks(a, b, if p.First? then p.at + 1 else i, if p.First? then j else p.at + 1, seen + {HitOf(a, b, p).key}, rest)
    ensures Picks(a, b, i, j, seen, [p] + rest)
  {
    assert ([p] + rest)[1..] == rest;
  }

  lemma {:induction false} AlternatePicks(a: seq<Hit>, b: seq<Hit>, i: nat, j: nat, seen: set<Key>, room: int, firstTurn: bool)
    requires i <= |a| && j <= |b|
    ensures Picks(a, b, i, j, seen, Alternate(a, b, i, j, seen, room, firstTurn))
    ensures |Alternate(a, b, i, j, seen, room, firstTurn)| <= Max(0, room)
    decreases |a| - i + |b| - j
  {
    hide NextNew;
    hide Picks;
    var n, m := NextNew(a, i, seen), NextNew(b, j, seen);
    if room <= 0 || (n == |a| && m == |b|) {
      NoPicks(a, b, i, j, seen);
    } else if n < |a| && (firstTurn || m == |b|) {
      AlternatePicks(a, b, n + 1, j, seen + {a[n].key}, room - 1, false);
      PicksCons(a, b, i, j, seen, First(n), Alternate(a, b, n + 1, j, seen + {a[n].key}, room - 1, false));
    } else {
      AlternatePicks(a, b, i, m + 1, seen + {b[m].key}, room - 1, true);
      PicksCons(a, b, i, j, seen, Second(m), Alternate(a, b, i, m + 1, seen + {b[m].key}, room - 1, true));
    }
  }

  lemma NoPicks(a: seq<Hit>, b: seq<Hit>, i: nat, j: nat, seen: set<Key>)
    ensures Picks(a, b, i, j, seen, [])
  {
  }

  // ---- every key once, each source in its own order ----

  lemma {:induction false} PicksDistinct(a: seq<Hit>, b: seq<Hit>, i: nat, j: nat, seen: set<Key>, picks: seq<Pick>)
    requires Picks(a, b, i, j, seen, picks)
    ensures AllInRange(a, b, picks)
    ensures forall x :: 0 <= x < |picks| ==> HitOf(a, b, picks[x]).key !in seen
    ensures forall x :: 0 <= x < |picks| ==> (if picks[x].First? then i else j) <= picks[x].at
    ensures forall x, y :: 0 <= x < y < |picks| ==> HitOf(a, b, picks[x]).key != HitOf(a, b, picks[y]).key
    ensures forall x, y :: 0 <= x < y < |picks| && picks[x].First? == picks[y].First? ==> picks[x].at < picks[y].at
    decreases |picks|
  {
    if picks != [] {
      var i1 := if picks[0].First? then picks[0].at + 1 else i;
      var j1 := if picks[0].First? then j else picks[0].at + 1;
      PicksDistinct(a, b, i1, j1, seen + {HitOf(a, b, picks[0]).key}, picks[1..]);
      assert picks == [picks[0]] + picks[1..];
      assert forall x :: 1 <= x < |picks| ==> picks[x] == picks[1..][x - 1];
    }
  }

  // ---- fair until a source runs out ----

  ghost predicate Covers(hits: seq<Hit>, keys: set<Key>) { forall i :: 0 <= i < |hits| ==> hits[i].key in keys }

  /**
    Counting `ahead` earlier picks of the first source: the counts differ by at most one, or the source
    that fell behind has nothing new to give.
   */
  ghost predicate Fair(a: seq<Hit>, b: seq<Hit>, seen: set<Key>, picks: seq<Pick>, ahead: nat)
    requires AllInRange(a, b, picks)
  {
    var first := FromFirst(picks) + ahead;
    var second := |picks| - FromFirst(picks);
    && (first > second + 1 ==> Covers(b, seen + PickedKeys(a, b, picks)))
    && (second > first ==> Covers(a, seen + PickedKeys(a, b, picks)))
  }

  /** Everything before the positions has been seen. */
  ghost predicate Behind(a: seq<Hit>, b: seq<Hit>, i: nat, j: nat, seen: set<Key>)
    requires i <= |a| && j <= |b|
  {
    (forall x :: 0 <= x < i ==> a[x].key in seen) && forall x :: 0 <= x < j ==> b[x].key in seen
  }

  lemma CoversMore(hits: seq<Hit>, keys: set<Key>, more: set<Key>)
    requires Covers(hits, keys) && keys <= more
    ensures Covers(hits, more)
  {
  }

  lemma RunOut(a: seq<Hit>, b: seq<Hit>, i: nat, j: nat, seen: set<Key>)
    requires i <= |a| && j <= |b| && Behind(a, b, i, j, seen)
    ensures NextNew(a, i, seen) == |a| ==> Covers(a, seen)
    ensures NextNew(b, j, seen) == |b| ==> Covers(b, seen)
  {
  }

  lemma BehindNext(a: seq<Hit>, b: seq<Hit>, i: nat, j: nat, seen: set<Key>)
    requires i <= |a| && j <= |b| && Behind(a, b, i, j, seen)
    ensures var n := NextNew(a, i, seen); n < |a| ==> Behind(a, b, n + 1, j, seen + {a[n].key})
    ensures var m := NextNew(b, j, seen); m < |b| ==> Behind(a, b, i, m + 1, seen + {b[m].key})
  {
  }

  lemma {:induction false} AlternateFair(
    a: seq<Hit>, b: seq<Hit>, i: nat, j: nat, seen: set<Key>, room: int, firstTurn: bool, x: nat)
    requires i <= |a| && j <= |b| && Behind(a, b, i, j, seen) && x <= |Alternate(a, b, i, j, seen, room, firstTurn)|
    ensures AllInRange(a, b, Alternate(a, b, i, j, seen, room, firstTurn)[..x])
    ensures Fair(a, b, seen, Alternate(a, b, i, j, seen, room, firstTurn)[..x], if firstTurn then 0 else 1)
    decreases |a| - i + |b| - j
  {
    hide NextNew;
    hide Covers;
    hide Behind;
    if x > 0 {
      var n, m := NextNew(a, i, seen), NextNew(b, j, seen);
      var picks := Alternate(a, b, i, j, seen, room, firstTurn);
      var front := picks[..x];
      RunOut(a, b, i, j, seen);
      BehindNext(a, b, i, j, seen);
      assert front[1..] == picks[1..][..x - 1];
      assert front == [picks[0]] + front[1..];
      if picks[0].First? {
        AlternateFair(a, b, n + 1, j, seen + {a[n].key}, room - 1, false, x - 1);
        assert seen + PickedKeys(a, b, front) == (seen + {a[n].key}) + PickedKeys(a, b, front[1..]);
      } else {
        AlternateFair(a, b, i, m + 1, seen + {b[m].key}, room - 1, true, x - 1);
        assert seen + PickedKeys(a, b, front) == (seen + {b[m].key}) + PickedKeys(a, b, front[1..]);
      }
      if Covers(a, seen) { CoversMore(a, seen, seen + PickedKeys(a, b, front)); }
      if Covers(b, seen) { CoversMore(b, seen, seen + PickedKeys(a, b, front)); }
    }
  }

  // ---- exhaustive when there was room ----

  lemma {:induction false} AlternateExhausts(a: seq<Hit>, b: seq<Hit>, i: nat, j: nat, seen: set<Key>, room: int, firstTurn: bool)
    requires i <= |a| && j <= |b| && Behind(a, b, i, j, seen)
    requires |Alternate(a, b, i, j, seen, room, firstTurn)| < room
    ensures AllInRange(a, b, Alternate(a, b, i, j, seen, room, firstTurn))
    ensures Covers(a, seen + PickedKeys(a, b, Alternate(a, b, i, j, seen, room, firstTurn)))
    ensures Covers(b, seen + PickedKeys(a, b, Alternate(a, b, i, j, seen, room, firstTurn)))
    decreases |a| - i + |b| - j
  {
    hide NextNew;
    hide Covers;
    hide Behind;
    var n, m := NextNew(a, i, seen), NextNew(b, j, seen);
    var picks := Alternate(a, b, i, j, seen, room, firstTurn);
    RunOut(a, b, i, j, seen);
    BehindNext(a, b, i, j, seen);
    if picks == [] {
      assert seen + PickedKeys(a, b, picks) == seen;
    } else if picks[0].First? {
      AlternateExhausts(a, b, n + 1, j, seen + {a[n].key}, room - 1, false);
      assert picks == [First(n)] + picks[1..];
      assert seen + PickedKeys(a, b, picks) == (seen + {a[n].key}) + PickedKeys(a, b, picks[1..]);
    } else {
      AlternateExhausts(a, b, i, m + 1, seen + {b[m].key}, room - 1, true);
      assert picks == [Second(m)] + picks[1..];
      assert seen + PickedKeys(a, b, picks) == (seen + {b[m].key}) + PickedKeys(a, b, picks[1..]);
    }
  }

  // ---- nothing better ranked is passed over ----

  /** Every hit of the picked source before the pick has its key taken already. */
  ghost predicate NoneSkipped(a: seq<Hit>, b: seq<Hit>, p: Pick, keys: set<Key>)
    requires InRange(a, b, p)
  {
    if p.First? then forall y :: 0 <= y < p.at ==> a[y].key in keys else forall y :: 0 <= y < p.at ==> b[y].key in keys
  }

  lemma {:induction false} AlternateSkipsNothing(
    a: seq<Hit>, b: seq<Hit>, i: nat, j: nat, seen: set<Key>, room: int, firstTurn: bool, x: nat)
    requires i <= |a| && j <= |b| && Behind(a, b, i, j, seen) && x < |Alternate(a, b, i, j, seen, room, firstTurn)|
    ensures var picks := Alternate(a, b, i, j, seen, room, firstTurn);
            && AllInRange(a, b, picks[..x]) && InRange(a, b, picks[x])
            && NoneSkipped(a, b, picks[x], seen + PickedKeys(a, b, picks[..x]))
    decreases |a| - i + |b| - j
  {
    hide NextNew;
    hide Behind;
    var n, m := NextNew(a, i, seen), NextNew(b, j, seen);
    var picks := Alternate(a, b, i, j, seen, room, firstTurn);
    BehindNext(a, b, i, j, seen);
    if x == 0 {
      BeforeNextNew(a, b, i, j, seen);
      assert seen + PickedKeys(a, b, picks[..0]) == seen;
    } else {
      var front := picks[..x];
      assert front[1..] == picks[1..][..x - 1];
      assert front == [picks[0]] + front[1..];
      if picks[0].First? {
        AlternateSkipsNothing(a, b, n + 1, j, seen + {a[n].key}, room - 1, false, x - 1);
        assert seen + PickedKeys(a, b, front) == (seen + {a[n].key}) + PickedKeys(a, b, front[1..]);
      } else {
        AlternateSkipsNothing(a, b, i, m + 1, seen + {b[m].key}, room - 1, true, x - 1);
        assert seen + PickedKeys(a, b, front) == (seen + {b[m].key}) + PickedKeys(a, b, front[1..]);
      }
    }
  }

  lemma BeforeNextNew(a: seq<Hit>, b: seq<Hit>, i: nat, j: nat, seen: set<Key>)
    requires i <= |a| && j <= |b| && Behind(a, b, i, j, seen)
    ensures forall y :: 0 <= y < NextNew(a, i, seen) ==> a[y].key in seen
    ensures forall y :: 0 <= y < NextNew(b, j, seen) ==> b[y].key in seen
  {
  }

  /** The x-th hit of the merge is the best its source still had: all before it there are taken already. */
  lemma MergeSkipsNothing(a: seq<Hit>, b: seq<Hit>, depth: int, x: nat)
    requires x < |Merge(a, b, depth)|
    ensures var picks := Merge(a, b, depth);
            && AllInRange(a, b, picks[..x]) && InRange(a, b, picks[x])
            && NoneSkipped(a, b, picks[x], PickedKeys(a, b, picks[..x]))
  {
    hide Alternate;
    AlternateSkipsNothing(a, b, 0, 0, {}, depth, true, x);
    assert {} + PickedKeys(a, b, Merge(a, b, depth)[..x]) == PickedKeys(a, b, Merge(a, b, depth)[..x]);
  }

  /**
    The merge takes every key at most once and each source in its own order; any prefix is fair; and when
    it comes out shorter than the depth, no key of either source is missing.
   */
  lemma MergeIsFairAndComplete(a: seq<Hit>, b: seq<Hit>, depth: int, x: nat)
    requires x <= |Merge(a, b, depth)|
    ensures var picks := Merge(a, b, depth);
            && |picks| <= Max(0, depth) && AllInRange(a, b, picks)
            && (forall u, v :: 0 <= u < v < |picks| ==> HitOf(a, b, picks[u]).key != HitOf(a, b, picks[v]).key)
            && (forall u, v :: 0 <= u < v < |picks| && picks[u].First? == picks[v].First? ==> picks[u].at < picks[v].at)
            && AllInRange(a, b, picks[..x]) && Fair(a, b, {}, picks[..x], 0)
            && (|picks| < depth ==> Covers(a, PickedKeys(a, b, picks)) && Covers(b, PickedKeys(a, b, picks)))
  {
    hide Alternate;
    hide Fair;
    hide Covers;
    var picks := Merge(a, b, depth);
    AlternatePicks(a, b, 0, 0, {}, depth, true);
    PicksDistinct(a, b, 0, 0, {}, picks);
    AlternateFair(a, b, 0, 0, {}, depth, true, x);
    if |picks| < depth {
      AlternateExhausts(a, b, 0, 0, {}, depth, true);
      assert {} + PickedKeys(a, b, picks) == PickedKeys(a, b, picks);
    }
  }

  // ---- the loop ----

  lemma {:induction false} NextNewSkips(hits: seq<Hit>, from: nat, to: nat, seen: set<Key>)
    requires from <= to <= |hits| && forall x :: from <= x < to ==> hits[x].key in seen
    ensures NextNew(hits, from, seen) == NextNew(hits, to, seen)
    decreases |hits| - from
  {
    if from < to {
      NextNewSkips(hits, from + 1, to, seen);
    }
  }

  lemma ChosenSnoc(a: seq<Hit>, b: seq<Hit>, picks: seq<Pick>, p: Pick)
    requires AllInRange(a, b, picks) && InRange(a, b, p)
    ensures AllInRange(a, b, picks + [p]) && Chosen(a, b, picks + [p]) == Chosen(a, b, picks) + [HitOf(a, b, p)]
  {
    assert (picks + [p])[..|picks|] == picks;
  }

  /** The inner loop: advance past keys already taken. */
  method Advance(hits: seq<Hit>, from: nat, seen: set<Key>) returns (at: nat)
    requires from <= |hits|
    ensures at == NextNew(hits, from, seen)
  {
    at := from;
    while at < |hits| && hits[at].key in seen
      invariant from <= at <= |hits| && NextNew(hits, from, seen) == NextNew(hits, at, seen)
    {
      at := at + 1;
    }
  }

  ghost predicate Skipped(hits: seq<Hit>, from: nat, to: nat, seen: set<Key>) {
    from <= to <= |hits| && forall x :: from <= x < to ==> hits[x].key in seen
  }

  /** `i` and `j` are the loop's positions; `gi` and `gj` those of the specification, which does not skip ahead. */
  ghost predicate Along(a: seq<Hit>, b: seq<Hit>, depth: int, i: nat, j: nat, gi: nat, gj: nat, seen: set<Key>,
                        picks: seq<Pick>, out: seq<Hit>, firstTurn: bool)
  {
    && Skipped(a, gi, i, seen) && Skipped(b, gj, j, seen)
    && AllInRange(a, b, picks) && out == Chosen(a, b, picks)
    && picks + Alternate(a, b, gi, gj, seen, depth - |out|, firstTurn) == Merge(a, b, depth)
  }

  lemma TakeFirst(a: seq<Hit>, b: seq<Hit>, depth: int, i: nat, j: nat, gi: nat, gj: nat, seen: set<Key>,
                  picks: seq<Pick>, out: seq<Hit>, n: nat)
    requires Along(a, b, depth, i, j, gi, gj, seen, picks, out, true) && n == NextNew(a, i, seen) && n < |a| && |out| < depth
    ensures Along(a, b, depth, n + 1, j, n + 1, gj, seen + {a[n].key}, picks + [First(n)], out + [a[n]], false)
  {
    hide NextNew;
    hide Chosen;
    hide AllInRange;
    NextNewSkips(a, gi, i, seen);
    ChosenSnoc(a, b, picks, First(n));
    var rest := Alternate(a, b, n + 1, gj, seen + {a[n].key}, depth - |out| - 1, false);
    assert picks + ([First(n)] + rest) == (picks + [First(n)]) + rest;
  }

  lemma TakeSecond(a: seq<Hit>, b: seq<Hit>, depth: int, i: nat, j: nat, gi: nat, gj: nat, seen: set<Key>,
                   picks: seq<Pick>, out: seq<Hit>, m: nat, firstTurn: bool)
    requires Along(a, b, depth, i, j, gi, gj, seen, picks, out, firstTurn) && m == NextNew(b, j, seen) && m < |b| && |out| < depth
    requires firstTurn ==> i == |a|
    ensures Along(a, b, depth, i, m + 1, gi, m + 1, seen + {b[m].key}, picks + [Second(m)], out + [b[m]], true)
  {
    hide NextNew;
    hide Chosen;
    hide AllInRange;
    hide Alternate;
    NextNewSkips(b, gj, j, seen);
    NextNewSkips(a, gi, i, seen);
    NothingAtEnd(a, seen);
    ChosenSnoc(a, b, picks, Second(m));
    SecondStep(a, b, gi, gj, seen, depth - |out|, firstTurn, m);
    PicksAssoc(picks, Second(m), Alternate(a, b, gi, m + 1, seen + {b[m].key}, depth - |out| - 1, true));
  }

  lemma SecondStep(a: seq<Hit>, b: seq<Hit>, i: nat, j: nat, seen: set<Key>, room: int, firstTurn: bool, m: nat)
    requires i <= |a| && j <= |b| && m == NextNew(b, j, seen) && m < |b| && room > 0
    requires firstTurn ==> NextNew(a, i, seen) == |a|
    ensures Alternate(a, b, i, j, seen, room, firstTurn) == [Second(m)] + Alternate(a, b, i, m + 1, seen + {b[m].key}, room - 1, true)
  {
    hide NextNew;
  }

  lemma PicksAssoc(picks: seq<Pick>, p: Pick, rest: seq<Pick>)
    ensures picks + ([p] + rest) == (picks + [p]) + rest
  {
  }

  lemma NothingAtEnd(hits: seq<Hit>, seen: set<Key>)
    ensures NextNew(hits, |hits|, seen) == |hits|
  {
  }

  /** Passing over seen keys, and handing the turn back when the second source has nothing new. */
  lemma PassOver(a: seq<Hit>, b: seq<Hit>, depth: int, i: nat, j: nat, gi: nat, gj: nat, seen: set<Key>,
                 picks: seq<Pick>, out: seq<Hit>, firstTurn: bool)
    requires Along(a, b, depth, i, j, gi, gj, seen, picks, out, firstTurn)
    ensures i <= |a| && j <= |b|
    ensures NextNew(a, i, seen) == |a| ==> Along(a, b, depth, |a|, j, gi, gj, seen, picks, out, firstTurn)
    ensures NextNew(b, j, seen) == |b| ==> Along(a, b, depth, i, |b|, gi, gj, seen, picks, out, true)
  {
    NextNewSkips(b, gj, j, seen);
    NextNewSkips(a, gi, i, seen);
  }

  /** With no room, or nothing new in either source, the picks are complete. */
  lemma Complete(a: seq<Hit>, b: seq<Hit>, depth: int, i: nat, j: nat, gi: nat, gj: nat, seen: set<Key>,
                 picks: seq<Pick>, out: seq<Hit>, firstTurn: bool)
    requires Along(a, b, depth, i, j, gi, gj, seen, picks, out, firstTurn)
    requires |out| >= depth || (i == |a| && j == |b|)
    ensures AllInRange(a, b, Merge(a, b, depth)) && out == Chosen(a, b, Merge(a, b, depth))
  {
    NextNewSkips(b, gj, j, seen);
    NextNewSkips(a, gi, i, seen);
    assert picks + [] == picks;
  }

  lemma AtStart(a: seq<Hit>, b: seq<Hit>, depth: int)
    ensures Along(a, b, depth, 0, 0, 0, 0, {}, [], [], true)
  {
  }

  method MergeKeywordSources(a: seq<Hit>, b: seq<Hit>, depth: int) returns (out: seq<Hit>)
    ensures AllInRange(a, b, Merge(a, b, depth)) && out == Chosen(a, b, Merge(a, b, depth))
  {
    hide NextNew;
    hide Along;
    hide Alternate;
    out := [];
    var seen: set<Key> := {};
    var i: nat, j: nat := 0, 0;
    ghost var picks: seq<Pick> := [];
    ghost var gi: nat, gj: nat := 0, 0;
    AtStart(a, b, depth);
    while |out| < depth
      invariant Along(a, b, depth, i, j, gi, gj, seen, picks, out, true) && i <= |a| && j <= |b|
      decreases |a| - i + |b| - j
    {
      var added := false;
      var n := Advance(a, i, seen);
      PassOver(a, b, depth, i, j, gi, gj, seen, picks, out, true);
      if n < |a| {
        TakeFirst(a, b, depth, i, j, gi, gj, seen, picks, out, n);
        seen, out, i, added := seen + {a[n].key}, out + [a[n]], n + 1, true;
        gi, picks := n + 1, picks + [First(n)];
      } else {
        i := n;
      }
      if |out| >= depth {
        Complete(a, b, depth, i, j, gi, gj, seen, picks, out, !added);
        return;
      }
      var m := Advance(b, j, seen);
      PassOver(a, b, depth, i, j, gi, gj, seen, picks, out, !added);
      if m < |b| {
        TakeSecond(a, b, depth, i, j, gi, gj, seen, picks, out, m, !added);
        seen, out, j, added := seen + {b[m].key}, out + [b[m]], m + 1, true;
        gj, picks := m + 1, picks + [Second(m)];
      } else {
        j := m;
      }
      if !added {
        Complete(a, b, depth, i, j, gi, gj, seen, picks, out, true);
        return;
      }
    }
    Complete(a, b, depth, i, j, gi, gj, seen, picks, out, true);
  }
}

/** reciprocal_rank_fusion: each key scores weight / (rrf_k + its first rank) in each list it appears in. */
module RankFusion {
  import opened RankedLists

  datatype Scored = Scored(key: Key, score: real)

  /** One-based; 0 when absent. */
  function FirstRank(hits: seq<Hit>, key: Key): (r: nat)
    ensures r <= |hits|
    ensures r > 0 ==> hits[r - 1].key == key && forall i :: 0 <= i < r - 1 ==> hits[i].key != key
    ensures r == 0 <==> key !in Keys(hits)
  {
    if hits == [] then 0
    else
      assert hits == hits[..|hits| - 1] + [hits[|hits| - 1]];
      KeysSnoc(hits[..|hits| - 1], hits[|hits| - 1]);
      var r := FirstRank(hits[..|hits| - 1], key);
      if r > 0 then r else if hits[|hits| - 1].key == key then |hits| else 0
  }

  /** No rank of a list of n hits makes the denominator zero. */
  predicate Divides(rrfK: int, n: nat) { rrfK >= 0 || rrfK + n < 0 }

  function Term(weight: real, rrfK: int, rank: nat): real
    requires rrfK + rank != 0
  {
    weight / ((rrfK + rank) as real)
  }

  function Share(hits: seq<Hit>, weight: real, rrfK: int, key: Key): real
    requires Divides(rrfK, |hits|)
  {
    var r := FirstRank(hits, key);
    if r == 0 then 0.0 else Term(weight, rrfK, r)
  }

  function Score(a: seq<Hit>, b: seq<Hit>, wa: real, wb: real, rrfK: int): Key -> real
    requires Divides(rrfK, |a|) && Divides(rrfK, |b|)
  {
    key => Share(a, wa, rrfK, key) + Share(b, wb, rrfK, key)
  }

  // ---- the sort ----

  function Insert(score: Key -> real, sorted: seq<Key>, key: Key): seq<Key> {
    if sorted == [] then [key]
    else if Before(score, key, sorted[0]) then [key] + sorted
    else [sorted[0]] + Insert(score, sorted[1..], key)
  }

  function Sorted(score: Key -> real, keys: seq<Key>): seq<Key> {
    if keys == [] then [] else Insert(score, Sorted(score, keys[..|keys| - 1]), keys[|keys| - 1])
  }

  predicate InOrder(score: Key -> real, keys: seq<Key>) {
    forall i, j :: 0 <= i < j < |keys| ==> Before(score, keys[i], keys[j])
  }

  lemma {:induction false} InsertOk(score: Key -> real, sorted: seq<Key>, key: Key)
    requires InOrder(score, sorted) && key !in sorted
    ensures InOrder(score, Insert(score, sorted, key))
    ensures forall k :: k in Insert(score, sorted, key) <==> k in sorted || k == key
  {
    hide Before;
    if sorted != [] {
      BeforeOrder(score, key, sorted[0]);
      assert sorted == [sorted[0]] + sorted[1..];
      if Before(score, key, sorted[0]) {
        forall i | 0 <= i < |sorted| ensures Before(score, key, sorted[i]) {
          if i > 0 { BeforeTrans(score, key, sorted[0], sorted[i]); }
        }
      } else {
        InsertOk(score, sorted[1..], key);
        var rest := Insert(score, sorted[1..], key);
        forall i | 0 <= i < |rest| ensures Before(score, sorted[0], rest[i]) {
          assert rest[i] in rest;
          if rest[i] != key {
            var j :| 0 <= j < |sorted[1..]| && sorted[1..][j] == rest[i];
            assert sorted[j + 1] == rest[i];
          }
        }
      }
    }
  }

  predicate NoRepeats(keys: seq<Key>) { forall i, j :: 0 <= i < j < |keys| ==> keys[i] != keys[j] }

  lemma {:induction false} SortedOk(score: Key -> real, keys: seq<Key>)
    requires NoRepeats(keys)
    ensures InOrder(score, Sorted(score, keys))
    ensures forall k :: k in Sorted(score, keys) <==> k in keys
  {
    hide InOrder;
    hide Insert;
    if keys == [] {
      NothingInOrder(score);
    } else {
      SortedOk(score, keys[..|keys| - 1]);
      InsertOk(score, Sorted(score, keys[..|keys| - 1]), keys[|keys| - 1]);
      assert keys == keys[..|keys| - 1] + [keys[|keys| - 1]];
    }
  }

  lemma NothingInOrder(score: Key -> real)
    ensures InOrder(score, [])
  {
  }

  /** The order is total and strict: the same keys with the same scores have one ranking. */
  lemma {:induction false} RankingUnique(s: Key -> real, t: Key -> real, a: seq<Key>, b: seq<Key>)
    requires InOrder(s, a) && InOrder(t, b) && (forall k :: s(k) == t(k)) && forall k :: k in a <==> k in b
    ensures a == b
    decreases |a|
  {
    hide KeyLess;
    if a == [] {
      assert forall i :: 0 <= i < |b| ==> b[i] in a;
    } else {
      assert a[0] in b;
      assert b[0] in a;
      FirstIsFirst(s, t, a, b);
      Tails(s, a);
      Tails(t, b);
      RankingUnique(s, t, a[1..], b[1..]);
      assert a == [a[0]] + a[1..] && b == [b[0]] + b[1..];
    }
  }

  lemma FirstIsFirst(s: Key -> real, t: Key -> real, a: seq<Key>, b: seq<Key>)
    requires InOrder(s, a) && InOrder(t, b) && (forall k :: s(k) == t(k)) && a != [] && b != [] && a[0] in b && b[0] in a
    ensures a[0] == b[0]
  {
    BeforeOrder(s, a[0], b[0]);
    HeadBefore(s, a, b[0]);
    HeadBefore(t, b, a[0]);
  }

  lemma HeadBefore(s: Key -> real, a: seq<Key>, k: Key)
    requires InOrder(s, a) && k in a
    ensures k == a[0] || Before(s, a[0], k)
  {
  }

  lemma Tails(s: Key -> real, a: seq<Key>)
    requires InOrder(s, a) && a != []
    ensures InOrder(s, a[1..]) && forall k :: k in a[1..] <==> k in a && k != a[0]
  {
    assert a == [a[0]] + a[1..];
    forall k | k in a[1..] ensures k != a[0] {
      var i :| 0 <= i < |a[1..]| && a[1..][i] == k;
      assert Before(s, a[0], a[i + 1]);
      BeforeOrder(s, a[0], a[0]);
    }
  }

  // ---- the fusion ----

  function KeyList(hits: seq<Hit>): seq<Key> { seq(|hits|, i requires 0 <= i < |hits| => hits[i].key) }

  function Ranking(a: seq<Hit>, b: seq<Hit>, wa: real, wb: real, rrfK: int): seq<Key>
    requires Divides(rrfK, |a|) && Divides(rrfK, |b|)
  {
    Sorted(Score(a, b, wa, wb, rrfK), KeyList(Dedup(a + b)))
  }

  lemma RankingOk(a: seq<Hit>, b: seq<Hit>, wa: real, wb: real, rrfK: int)
    requires Divides(rrfK, |a|) && Divides(rrfK, |b|)
    ensures InOrder(Score(a, b, wa, wb, rrfK), Ranking(a, b, wa, wb, rrfK))
    ensures forall k :: k in Ranking(a, b, wa, wb, rrfK) <==> k in Keys(a) || k in Keys(b)
  {
    hide Sorted;
    hide InOrder;
    hide Dedup;
    var d := Dedup(a + b);
    DedupKeys(a + b);
    DedupKeyList(a + b);
    SortedOk(Score(a, b, wa, wb, rrfK), KeyList(d));
    KeysBoth(a, b);
    forall k ensures k in KeyList(d) <==> k in Keys(d) {
      if k in Keys(d) {
        var i :| 0 <= i < |d| && d[i].key == k;
        assert KeyList(d)[i] == k;
      }
    }
  }

  /** What a list gives a key whose first hit stands at p, counted from zero. */
  ghost predicate Gives(hits: seq<Hit>, weight: real, rrfK: int, key: Key, given: real)
    requires Divides(rrfK, |hits|)
  {
    if exists p :: FirstAt(hits, key, p) then exists p :: FirstAt(hits, key, p) && given == weight / ((rrfK + p + 1) as real)
    else given == 0.0
  }

  /** A key scores the weight of each list it is in, divided by rrf_k plus the rank of its first hit there. */
  lemma ScoreOfFirstRanks(a: seq<Hit>, b: seq<Hit>, wa: real, wb: real, rrfK: int, key: Key) returns (x: real, y: real)
    requires Divides(rrfK, |a|) && Divides(rrfK, |b|)
    ensures Gives(a, wa, rrfK, key, x) && Gives(b, wb, rrfK, key, y)
    ensures Score(a, b, wa, wb, rrfK)(key) == x + y
  {
    x, y := Share(a, wa, rrfK, key), Share(b, wb, rrfK, key);
    ShareGives(a, wa, rrfK, key);
    ShareGives(b, wb, rrfK, key);
  }

  lemma ShareGives(hits: seq<Hit>, weight: real, rrfK: int, key: Key)
    requires Divides(rrfK, |hits|)
    ensures Gives(hits, weight, rrfK, key, Share(hits, weight, rrfK, key))
  {
    var r := FirstRank(hits, key);
    if r > 0 {
      assert FirstAt(hits, key, r - 1);
    }
  }

  /** By kind, then by reference, both as text, then by chunk number. */
  ghost predicate KeyPrecedes(a: Key, b: Key) {
    || Precedes(a.kind, b.kind)
    || (a.kind == b.kind && Precedes(a.ref, b.ref))
    || (a.kind == b.kind && a.ref == b.ref && a.chunk < b.chunk)
  }

  /** The ranking holds the keys of both lists and falls by score; equal scores come in the order of kind, reference and chunk. */
  lemma RankingFalls(a: seq<Hit>, b: seq<Hit>, wa: real, wb: real, rrfK: int)
    requires Divides(rrfK, |a|) && Divides(rrfK, |b|)
    ensures var r, score := Ranking(a, b, wa, wb, rrfK), Score(a, b, wa, wb, rrfK);
            forall i, j :: 0 <= i < j < |r| ==>
              score(r[i]) > score(r[j]) || (score(r[i]) == score(r[j]) && KeyPrecedes(r[i], r[j]))
    ensures forall k :: k in Ranking(a, b, wa, wb, rrfK) <==> k in Keys(a) || k in Keys(b)
  {
    hide Score;
    hide Ranking;
    hide KeyLess;
    hide KeyPrecedes;
    RankingOk(a, b, wa, wb, rrfK);
    var r, score := Ranking(a, b, wa, wb, rrfK), Score(a, b, wa, wb, rrfK);
    forall i, j | 0 <= i < j < |r| && KeyLess(r[i], r[j]) ensures KeyPrecedes(r[i], r[j]) {
      KeyLessPrecedes(r[i], r[j]);
    }
  }

  lemma KeyLessPrecedes(a: Key, b: Key)
    requires KeyLess(a, b)
    ensures KeyPrecedes(a, b)
  {
    hide Precedes;
    hide TextLess;
    TextLessIff(a.kind, b.kind);
    TextLessIff(a.ref, b.ref);
  }

  lemma KeysBoth(a: seq<Hit>, b: seq<Hit>)
    ensures Keys(a + b) == Keys(a) + Keys(b)
  {
    forall k | k in Keys(a) + Keys(b) ensures k in Keys(a + b) {
      if k in Keys(a) {
        var i :| 0 <= i < |a| && a[i].key == k;
        assert (a + b)[i].key == k;
      } else {
        var i :| 0 <= i < |b| && b[i].key == k;
        assert (a + b)[|a| + i].key == k;
      }
    }
  }

  /** Swapping the two weighted lists changes neither the order nor any score. */
  lemma SwapInvariant(a: seq<Hit>, b: seq<Hit>, wa: real, wb: real, rrfK: int)
    requires Divides(rrfK, |a|) && Divides(rrfK, |b|)
    ensures Ranking(a, b, wa, wb, rrfK) == Ranking(b, a, wb, wa, rrfK)
    ensures forall k :: Score(a, b, wa, wb, rrfK)(k) == Score(b, a, wb, wa, rrfK)(k)
  {
    hide Share;
    hide InOrder;
    hide Ranking;
    RankingOk(a, b, wa, wb, rrfK);
    RankingOk(b, a, wb, wa, rrfK);
    RankingUnique(Score(a, b, wa, wb, rrfK), Score(b, a, wb, wa, rrfK),
                  Ranking(a, b, wa, wb, rrfK), Ranking(b, a, wb, wa, rrfK));
  }

  // ---- the loops ----

  /** One signal's pass: the first hit of every key adds its share. */
  method AddSignal(hits: seq<Hit>, weight: real, rrfK: int, base: map<Key, real>) returns (fused: map<Key, real>)
    requires Divides(rrfK, |hits|)
    ensures fused.Keys == base.Keys + Keys(hits)
    ensures forall k :: k in fused ==> fused[k] == (if k in base then base[k] else 0.0) + Share(hits, weight, rrfK, k)
  {
    hide FirstRank;
    hide Share;
    hide Term;
    hide Keys;
    fused := base;
    AbsentScoresZero(hits[..0], weight, rrfK);
    NoKeys();
    var seen: set<Key> := {};
    for i := 0 to |hits|
      invariant seen == Keys(hits[..i])
      invariant fused.Keys == base.Keys + Keys(hits[..i])
      invariant forall k :: k in fused ==> fused[k] == (if k in base then base[k] else 0.0) + Share(hits[..i], weight, rrfK, k)
    {
      var key := hits[i].key;
      KeysTo(hits, i);
      ShareTo(hits, i, weight, rrfK);
      if key !in seen {
        seen := seen + {key};
        fused := fused[key := (if key in fused then fused[key] else 0.0) + Term(weight, rrfK, i + 1)];
      }
    }
    assert hits[..|hits|] == hits;
  }

  lemma NoKeys()
    ensures Keys([]) == {}
  {
  }

  lemma ShareTo(hits: seq<Hit>, i: nat, weight: real, rrfK: int)
    requires i < |hits| && Divides(rrfK, |hits|)
    ensures forall k :: Share(hits[..i + 1], weight, rrfK, k)
              == if k == hits[i].key && k !in Keys(hits[..i]) then Term(weight, rrfK, i + 1)
                 else Share(hits[..i], weight, rrfK, k)
    ensures hits[i].key !in Keys(hits[..i]) ==> Share(hits[..i], weight, rrfK, hits[i].key) == 0.0
  {
    assert hits[..i + 1][..i] == hits[..i];
  }

  method Fuse(a: seq<Hit>, b: seq<Hit>, k: nat, rrfK: int, wa: real, wb: real) returns (out: seq<Scored>)
    requires Divides(rrfK, |a|) && Divides(rrfK, |b|)
    ensures |out| == |Take(Ranking(a, b, wa, wb, rrfK), k)|
    ensures forall i :: 0 <= i < |out| ==>
              out[i] == Scored(Ranking(a, b, wa, wb, rrfK)[i], Score(a, b, wa, wb, rrfK)(Ranking(a, b, wa, wb, rrfK)[i]))
    ensures forall i, j :: 0 <= i < j < |out| ==> out[i].score >= out[j].score
    ensures forall key :: key in Keys(a) || key in Keys(b) ==>
              || (exists i :: 0 <= i < |out| && out[i].key == key)
              || (|out| == k && forall i :: 0 <= i < |out| ==> out[i].score >= Score(a, b, wa, wb, rrfK)(key))
  {
    hide Share;
    hide Sorted;
    hide Ranking;
    hide Keys;
    var fused := AddSignal(a, wa, rrfK, map[]);
    fused := AddSignal(b, wb, rrfK, fused);
    var scores := fused;
    var lookup := key => if key in scores then scores[key] else 0.0;
    AbsentScoresZero(a, wa, rrfK);
    AbsentScoresZero(b, wb, rrfK);
    assert forall key :: lookup(key) == Score(a, b, wa, wb, rrfK)(key);
    var sorted := SortKeys(lookup, KeyList(Dedup(a + b)));
    SameRanking(a, b, wa, wb, rrfK, lookup);
    out := seq(Min(k, |sorted|), i requires 0 <= i < Min(k, |sorted|) => Scored(sorted[i], lookup(sorted[i])));
    FusedBest(a, b, k, rrfK, wa, wb, out);
  }

  /** Scored keys from the top of the ranking fall by score, and no key left out scores more. */
  lemma FusedBest(a: seq<Hit>, b: seq<Hit>, k: nat, rrfK: int, wa: real, wb: real, out: seq<Scored>)
    requires Divides(rrfK, |a|) && Divides(rrfK, |b|)
    requires |out| == |Take(Ranking(a, b, wa, wb, rrfK), k)|
    requires forall i :: 0 <= i < |out| ==>
               out[i] == Scored(Ranking(a, b, wa, wb, rrfK)[i], Score(a, b, wa, wb, rrfK)(Ranking(a, b, wa, wb, rrfK)[i]))
    ensures forall i, j :: 0 <= i < j < |out| ==> out[i].score >= out[j].score
    ensures forall key :: key in Keys(a) || key in Keys(b) ==>
              || (exists i :: 0 <= i < |out| && out[i].key == key)
              || (|out| == k && forall i :: 0 <= i < |out| ==> out[i].score >= Score(a, b, wa, wb, rrfK)(key))
  {
    hide Score;
    hide Ranking;
    hide KeyPrecedes;
    hide InOrder;
    hide Keys;
    RankingFalls(a, b, wa, wb, rrfK);
    var ranking := Ranking(a, b, wa, wb, rrfK);
    forall key | key in Keys(a) || key in Keys(b)
      ensures || (exists i :: 0 <= i < |out| && out[i].key == key)
              || (|out| == k && forall i :: 0 <= i < |out| ==> out[i].score >= Score(a, b, wa, wb, rrfK)(key))
    {
      var j :| 0 <= j < |ranking| && ranking[j] == key;
      if j < |out| {
        assert out[j].key == key;
      }
    }
  }

  method SortKeys(score: Key -> real, keys: seq<Key>) returns (sorted: seq<Key>)
    ensures sorted == Sorted(score, keys)
  {
    sorted := [];
    for i := 0 to |keys|
      invariant sorted == Sorted(score, keys[..i])
    {
      assert keys[..i + 1][..i] == keys[..i];
      sorted := Insert(score, sorted, keys[i]);
    }
    assert keys[..|keys|] == keys;
  }

  lemma SameRanking(a: seq<Hit>, b: seq<Hit>, wa: real, wb: real, rrfK: int, score: Key -> real)
    requires Divides(rrfK, |a|) && Divides(rrfK, |b|) && forall k :: score(k) == Score(a, b, wa, wb, rrfK)(k)
    ensures Sorted(score, KeyList(Dedup(a + b))) == Ranking(a, b, wa, wb, rrfK)
  {
    hide Share;
    hide Dedup;
    hide Sorted;
    hide InOrder;
    var keys := KeyList(Dedup(a + b));
    DedupKeyList(a + b);
    SortedOk(score, keys);
    SortedOk(Score(a, b, wa, wb, rrfK), keys);
    RankingUnique(score, Score(a, b, wa, wb, rrfK), Sorted(score, keys), Ranking(a, b, wa, wb, rrfK));
  }

  lemma DedupKeyList(hits: seq<Hit>)
    ensures NoRepeats(KeyList(Dedup(hits)))
  {
    DedupKeys(hits);
  }

  lemma AbsentScoresZero(hits: seq<Hit>, weight: real, rrfK: int)
    requires Divides(rrfK, |hits|)
    ensures forall k :: k !in Keys(hits) ==> Share(hits, weight, rrfK, k) == 0.0
  {
  }
}

/** collapse_results, _ranked, and the loop that deepens a search until it has k parents. */
module ParentCollapse {
  import opened RankedLists

  datatype Winner = Winner(hit: Hit, parent: string, matched: nat)

  function ParentId(h: Hit): string {
    if h.parentHash != "" then h.key.kind + ":hash:" + h.parentHash else h.key.kind + ":ref:" + h.key.ref
  }

  function Find(winners: seq<Winner>, parent: string): (i: nat)
    ensures i <= |winners|
    ensures i < |winners| ==> winners[i].parent == parent
    ensures forall j :: 0 <= j < i ==> winners[j].parent != parent
  {
    if winners == [] || winners[0].parent == parent then 0 else 1 + Find(winners[1..], parent)
  }

  function Placed(winners: seq<Winner>, h: Hit): seq<Winner> {
    var i := Find(winners, ParentId(h));
    if i < |winners| then winners[i := winners[i].(matched := winners[i].matched + 1)]
    else winners + [Winner(h, ParentId(h), 1)]
  }

  function Collapse(hits: seq<Hit>): seq<Winner> {
    if hits == [] then [] else Placed(Collapse(hits[..|hits| - 1]), hits[|hits| - 1])
  }

  function CountOf(hits: seq<Hit>, parent: string): nat {
    if hits == [] then 0
    else CountOf(hits[..|hits| - 1], parent) + (if ParentId(hits[|hits| - 1]) == parent then 1 else 0)
  }

  predicate FirstOf(hits: seq<Hit>, h: Hit) {
    exists i :: 0 <= i < |hits| && hits[i] == h && forall j :: 0 <= j < i ==> ParentId(hits[j]) != ParentId(h)
  }

  /** One winner per parent: its best-ranked chunk, with the number of chunks that matched. */
  ghost predicate Collapsed(hits: seq<Hit>, winners: seq<Winner>) {
    && (forall i :: 0 <= i < |winners| ==>
          && winners[i].parent == ParentId(winners[i].hit)
          && winners[i].matched == CountOf(hits, winners[i].parent)
          && FirstOf(hits, winners[i].hit))
    && (forall i, j :: 0 <= i < j < |winners| ==> winners[i].parent != winners[j].parent)
    && forall i :: 0 <= i < |hits| ==> Find(winners, ParentId(hits[i])) < |winners|
  }

  lemma FirstOfLonger(hits: seq<Hit>, h: Hit, next: Hit)
    ensures FirstOf(hits, h) ==> FirstOf(hits + [next], h)
    ensures (forall i :: 0 <= i < |hits| ==> ParentId(hits[i]) != ParentId(next)) ==> FirstOf(hits + [next], next)
  {
    if FirstOf(hits, h) {
      var i :| 0 <= i < |hits| && hits[i] == h && forall j :: 0 <= j < i ==> ParentId(hits[j]) != ParentId(h);
      assert (hits + [next])[i] == h;
    }
    assert (hits + [next])[|hits|] == next;
  }

  lemma {:induction false} FindSame(a: seq<Winner>, b: seq<Winner>, parent: string)
    requires |a| <= |b| && forall i :: 0 <= i < |a| ==> a[i].parent == b[i].parent
    ensures Find(a, parent) < |a| ==> Find(b, parent) == Find(a, parent)
  {
    if a != [] && a[0].parent != parent {
      FindSame(a[1..], b[1..], parent);
    }
  }

  lemma {:induction false} FindLast(winners: seq<Winner>, parent: string)
    requires exists i :: 0 <= i < |winners| && winners[i].parent == parent
    ensures Find(winners, parent) < |winners|
  {
  }

  lemma CountNone(hits: seq<Hit>, parent: string)
    requires forall i :: 0 <= i < |hits| ==> ParentId(hits[i]) != parent
    ensures CountOf(hits, parent) == 0
  {
  }

  lemma {:induction false} CollapseOk(hits: seq<Hit>)
    ensures Collapsed(hits, Collapse(hits))
  {
    hide ParentId;
    hide FirstOf;
    if hits != [] {
      var front, h := hits[..|hits| - 1], hits[|hits| - 1];
      CollapseOk(front);
      PlacedOk(front, h, Collapse(front));
      assert hits == front + [h];
    }
  }

  lemma PlacedOk(hits: seq<Hit>, h: Hit, winners: seq<Winner>)
    requires Collapsed(hits, winners)
    ensures Collapsed(hits + [h], Placed(winners, h))
  {
    hide ParentId;
    hide FirstOf;
    hide CountOf;
    var all, placed, at := hits + [h], Placed(winners, h), Find(winners, ParentId(h));
    CountSnoc(hits, h);
    forall i | 0 <= i < |hits| ensures Find(placed, ParentId(hits[i])) < |placed| {
      FindSame(winners, placed, ParentId(hits[i]));
    }
    FindLast(placed, ParentId(h)) by {
      assert placed[if at < |winners| then at else |winners|].parent == ParentId(h);
    }
    forall i | 0 <= i < |winners| ensures FirstOf(all, winners[i].hit) {
      FirstOfLonger(hits, winners[i].hit, h);
    }
    if at == |winners| {
      FirstOfLonger(hits, h, h);
      CountNone(hits, ParentId(h));
    }
  }

  lemma CountSnoc(hits: seq<Hit>, h: Hit)
    ensures forall parent :: CountOf(hits + [h], parent) == CountOf(hits, parent) + (if ParentId(h) == parent then 1 else 0)
  {
    assert (hits + [h])[..|hits|] == hits;
  }

  /** Position p holds the first hit of its parent. */
  predicate LeadsAt(hits: seq<Hit>, p: nat) {
    p < |hits| && forall j :: 0 <= j < p ==> ParentId(hits[j]) != ParentId(hits[p])
  }

  /** The winners are the leading hits of their parents, in the order of the list. */
  ghost predicate Leads(hits: seq<Hit>, winners: seq<Winner>, at: seq<nat>) {
    && |at| == |winners|
    && (forall i :: 0 <= i < |at| ==> LeadsAt(hits, at[i]) && hits[at[i]] == winners[i].hit)
    && forall i, j :: 0 <= i < j < |at| ==> at[i] < at[j]
  }

  /** Winners keep the ranking: the better a parent's best chunk stands, the earlier the parent. */
  lemma {:induction false} WinnersKeepTheRanking(hits: seq<Hit>) returns (at: seq<nat>)
    ensures Leads(hits, Collapse(hits), at)
  {
    hide ParentId;
    hide Leads;
    hide Collapsed;
    if hits == [] {
      at := [];
      NoLeads();
    } else {
      var front, h := hits[..|hits| - 1], hits[|hits| - 1];
      at := WinnersKeepTheRanking(front);
      CollapseOk(front);
      assert hits == front + [h];
      LeadsNext(front, h, Collapse(front), at);
      if Find(Collapse(front), ParentId(h)) == |Collapse(front)| {
        at := at + [|front|];
      }
    }
  }

  lemma NoLeads()
    ensures Leads([], [], [])
  {
  }

  lemma NewParent(front: seq<Hit>, h: Hit, winners: seq<Winner>)
    requires Collapsed(front, winners) && Find(winners, ParentId(h)) == |winners|
    ensures forall j :: 0 <= j < |front| ==> ParentId(front[j]) != ParentId(h)
  {
    hide ParentId;
    hide CountOf;
    hide FirstOf;
    forall j | 0 <= j < |front| ensures ParentId(front[j]) != ParentId(h) {
      assert Find(winners, ParentId(front[j])) < |winners|;
    }
  }

  lemma LeadsNext(front: seq<Hit>, h: Hit, winners: seq<Winner>, at: seq<nat>)
    requires Leads(front, winners, at) && Collapsed(front, winners)
    ensures Leads(front + [h], Placed(winners, h), if Find(winners, ParentId(h)) == |winners| then at + [|front|] else at)
  {
    hide ParentId;
    hide Collapsed;
    hide Find;
    var hits := front + [h];
    assert forall i :: 0 <= i < |at| ==> LeadsAt(hits, at[i]);
    if Find(winners, ParentId(h)) == |winners| {
      NewParent(front, h, winners);
      assert LeadsAt(hits, |front|);
    }
  }

  /**
    Hits of one kind share a parent exactly when their parent hashes agree, or, where neither has one, their
    references; and kinds without a colon never share one.
   */
  lemma SameParentIff(a: Hit, b: Hit)
    requires a.key.kind == b.key.kind || (':' !in a.key.kind && ':' !in b.key.kind)
    ensures ParentId(a) == ParentId(b) <==>
              && a.key.kind == b.key.kind && a.parentHash == b.parentHash
              && (a.parentHash == "" ==> a.key.ref == b.key.ref)
  {
    var x, y := Suffix(a), Suffix(b);
    assert ParentId(a) == a.key.kind + x && ParentId(b) == b.key.kind + y by {
      SuffixOf(a);
      SuffixOf(b);
    }
    if a.key.kind + x == b.key.kind + y {
      KindsAgree(a.key.kind, x, b.key.kind, y);
      assert x == (a.key.kind + x)[|a.key.kind|..] && y == (b.key.kind + y)[|b.key.kind|..];
      assert x[1] == y[1];
      assert x[5..] == y[5..];
      if a.parentHash != "" {
        assert x[6..] == y[6..];
      }
    }
  }

  function Suffix(h: Hit): (s: string)
    ensures |s| >= 5 && s[0] == ':' && s[1] == (if h.parentHash != "" then 'h' else 'r')
    ensures if h.parentHash != "" then |s| >= 6 && s[6..] == h.parentHash else s[5..] == h.key.ref
  {
    if h.parentHash != "" then ":hash:" + h.parentHash else ":ref:" + h.key.ref
  }

  lemma SuffixOf(h: Hit)
    ensures ParentId(h) == h.key.kind + Suffix(h)
  {
    assert h.key.kind + (":hash:" + h.parentHash) == h.key.kind + ":hash:" + h.parentHash;
    assert h.key.kind + (":ref:" + h.key.ref) == h.key.kind + ":ref:" + h.key.ref;
  }

  lemma KindsAgree(k: string, x: string, l: string, y: string)
    requires x != "" && x[0] == ':' && y != "" && y[0] == ':' && k + x == l + y
    requires k == l || (':' !in k && ':' !in l)
    ensures k == l
  {
    if ':' !in k && ':' !in l {
      FirstColon(k, x);
      FirstColon(l, y);
      assert |k| == |l|;
    }
    assert k == (k + x)[..|k|] && l == (l + y)[..|l|];
  }

  lemma FirstColon(k: string, x: string)
    requires ':' !in k && x != "" && x[0] == ':'
    ensures (k + x)[|k|] == ':' && forall i :: 0 <= i < |k| ==> (k + x)[i] != ':'
  {
    assert forall i :: 0 <= i < |k| ==> (k + x)[i] == k[i];
  }

  function Matched(winners: seq<Winner>): nat {
    if winners == [] then 0 else Matched(winners[..|winners| - 1]) + winners[|winners| - 1].matched
  }

  lemma {:induction false} MatchedUpdate(winners: seq<Winner>, i: nat, w: Winner)
    requires i < |winners|
    ensures Matched(winners[i := w]) == Matched(winners) - winners[i].matched + w.matched
  {
    var n := |winners| - 1;
    if i == n {
      assert winners[i := w][..n] == winners[..n];
    } else {
      MatchedUpdate(winners[..n], i, w);
      assert winners[i := w][..n] == winners[..n][i := w];
    }
  }

  lemma PlacedMatched(winners: seq<Winner>, h: Hit)
    ensures Matched(Placed(winners, h)) == Matched(winners) + 1
  {
    hide ParentId;
    var i := Find(winners, ParentId(h));
    if i < |winners| {
      MatchedUpdate(winners, i, winners[i].(matched := winners[i].matched + 1));
    } else {
      assert (winners + [Winner(h, ParentId(h), 1)])[..|winners|] == winners;
    }
  }

  /** No matching chunk is dropped from the counts. */
  lemma {:induction false} CountsConserved(hits: seq<Hit>)
    ensures Matched(Collapse(hits)) == |hits|
  {
    hide Placed;
    if hits != [] {
      CountsConserved(hits[..|hits| - 1]);
      PlacedMatched(Collapse(hits[..|hits| - 1]), hits[|hits| - 1]);
    }
  }

  // ---- the loops ----

  /** The dictionary and its key order hold these winners. */
  ghost predicate Holds(winners: map<string, Winner>, order: seq<string>, ws: seq<Winner>) {
    && |order| == |ws|
    && (forall j :: 0 <= j < |order| ==> order[j] == ws[j].parent && order[j] in winners && winners[order[j]] == ws[j])
    && (forall p :: p in winners ==> Find(ws, p) < |ws|)
    && (forall j, l :: 0 <= j < l < |order| ==> order[j] != order[l])
  }

  lemma HoldsNext(winners: map<string, Winner>, order: seq<string>, ws: seq<Winner>, h: Hit)
    requires Holds(winners, order, ws)
    ensures var p := ParentId(h);
            if p in winners then Holds(winners[p := winners[p].(matched := winners[p].matched + 1)], order, Placed(ws, h))
            else Holds(winners[p := Winner(h, p, 1)], order + [p], Placed(ws, h))
  {
    hide ParentId;
    hide Find;
    var p := ParentId(h);
    var placed := Placed(ws, h);
    forall q | q in winners ensures Find(placed, q) < |placed| {
      FindSame(ws, placed, q);
    }
    if p !in winners {
      assert Find(ws, p) == |ws|;
      FindLast(placed, p) by { assert placed[|ws|].parent == p; }
    }
  }

  method CollapseResults(hits: seq<Hit>, k: nat) returns (out: seq<Winner>)
    ensures out == Take(Collapse(hits), k)
  {
    hide ParentId;
    hide Placed;
    var winners: map<string, Winner> := map[];
    var order: seq<string> := [];
    for i := 0 to |hits|
      invariant Holds(winners, order, Collapse(hits[..i]))
    {
      assert hits[..i + 1][..i] == hits[..i];
      HoldsNext(winners, order, Collapse(hits[..i]), hits[i]);
      var p := ParentId(hits[i]);
      if p in winners {
        winners := winners[p := winners[p].(matched := winners[p].matched + 1)];
      } else {
        winners := winners[p := Winner(hits[i], p, 1)];
        order := order + [p];
      }
    }
    assert hits[..|hits|] == hits;
    out := seq(Min(k, |order|), j requires 0 <= j < Min(k, |order|) => winners[order[j]]);
  }

  /** _ranked: the first hit of each key, up to the depth but never fewer than one. */
  method Ranked(hits: seq<Hit>, k: int) returns (out: seq<Hit>)
    ensures out == Take(Dedup(hits), Max(1, k))
  {
    out := [];
    var seen: set<Key> := {};
    for i := 0 to |hits|
      invariant seen == Keys(hits[..i]) && out == Dedup(hits[..i]) && |out| < Max(1, k)
    {
      KeysTo(hits, i);
      assert hits[..i + 1][..i] == hits[..i];
      DedupPrefix(hits, i + 1);
      if hits[i].key !in seen {
        seen := seen + {hits[i].key};
        out := out + [hits[i]];
        if |out| >= k { return; }
      }
    }
    assert hits[..|hits|] == hits;
  }

  function MaxDepth(k: int, candidateDepth: int): int { Max(k, Min(200, if candidateDepth == 0 then 200 else candidateDepth)) }

  /** The depths tried, each double the last, capped. */
  function DepthAt(k: int, candidateDepth: int, n: nat): int {
    if n == 0 then Min(MaxDepth(k, candidateDepth), Max(50, k * 5))
    else Min(MaxDepth(k, candidateDepth), DepthAt(k, candidateDepth, n - 1) * 2)
  }

  /**
    The search looks no deeper than two hundred candidates, or what was asked for, or k if that is more; it begins
    with fifty or five times k, and each round doubles the depth until that bound is reached.
   */
  lemma {:induction false} DepthsDouble(k: int, candidateDepth: int, n: nat)
    ensures var most := MaxDepth(k, candidateDepth);
            && k <= most
            && (candidateDepth == 0 || candidateDepth >= 200 ==> most == if k > 200 then k else 200)
            && (candidateDepth != 0 && candidateDepth < 200 ==> most == if k > candidateDepth then k else candidateDepth)
            && (most >= 0 ==>
                  var first, here := if k > 10 then k * 5 else 50, DepthAt(k, candidateDepth, n);
                  && DepthAt(k, candidateDepth, 0) == (if first < most then first else most)
                  && here <= most && (here < most ==> here >= 50 + n)
                  && DepthAt(k, candidateDepth, n + 1) == (if here * 2 < most then here * 2 else most)
                  && (n >= most - 50 ==> here == most))
  {
    if n > 0 {
      DepthsDouble(k, candidateDepth, n - 1);
    }
  }

  /** Too few results are accepted only from the greatest depth; no shallower depth would have done. */
  method Search(k: int, candidateDepth: int, run: int -> seq<Winner>) returns (result: seq<Winner>, rounds: nat)
    ensures result == run(DepthAt(k, candidateDepth, rounds))
    ensures |result| >= k || DepthAt(k, candidateDepth, rounds) >= MaxDepth(k, candidateDepth)
    ensures forall n :: 0 <= n < rounds ==> |run(DepthAt(k, candidateDepth, n))| < k
  {
    var maxDepth := MaxDepth(k, candidateDepth);
    var depth := Min(maxDepth, Max(50, k * 5));
    rounds := 0;
    while true
      invariant depth == DepthAt(k, candidateDepth, rounds) && depth <= maxDepth && (depth < maxDepth ==> depth >= 50)
      invariant forall n :: 0 <= n < rounds ==> |run(DepthAt(k, candidateDepth, n))| < k
      decreases maxDepth - depth
    {
      result := run(depth);
      if |result| >= k || depth >= maxDepth { return; }
      depth := Min(maxDepth, depth * 2);
      rounds := rounds + 1;
    }
  }
}
