/**
  URL identity of a page path: percent-encoding normalisation (sections 6.2.2.1 to
  6.2.2.2 of RFC 3986), dot-segment removal (section 5.2.4 of RFC 3986) and the
  trailing-slash rule that the crawl frontier and the database share.
  Models app/normalize.py.
 */
module PercentEncoding {

  predicate IsHex(c: char) {
    '0' <= c <= '9' || 'a' <= c <= 'f' || 'A' <= c <= 'F'
  }

  function HexValue(c: char): (v: nat)
    requires IsHex(c)
    ensures v < 16
  {
    if c <= '9' then (c - '0') as nat
    else if c <= 'F' then (c - 'A') as nat + 10
    else (c - 'a') as nat + 10
  }

  /** The digit that `%X` formatting prints: always upper case. */
  function HexDigit(v: nat): (c: char)
    requires v < 16
    ensures IsHex(c) && HexValue(c) == v && !('a' <= c <= 'f')
  {
    if v < 10 then '0' + v as char else 'A' + (v - 10) as char
  }

  predicate Unreserved(c: char) {
    'A' <= c <= 'Z' || 'a' <= c <= 'z' || '0' <= c <= '9' || c == '-' || c == '.' || c == '_' || c == '~'
  }

  /** What one valid escape `%hl` is rewritten to. */
  function Replace(h: char, l: char): string
    requires IsHex(h) && IsHex(l)
  {
    var byte := 16 * HexValue(h) + HexValue(l);
    if Unreserved(byte as char) then [byte as char]
    else ['%', HexDigit(byte / 16), HexDigit(byte % 16)]
  }

  predicate EscapeAt(s: string) {
    |s| >= 3 && s[0] == '%' && IsHex(s[1]) && IsHex(s[2])
  }

  /** Leftmost, non-overlapping substitution of every valid escape. */
  function Normalize(s: string): (r: string)
    ensures |r| <= |s|
    ensures (r == "") == (s == "")
  {
    if s == "" then ""
    else if EscapeAt(s) then Replace(s[1], s[2]) + Normalize(s[3..])
    else [s[0]] + Normalize(s[1..])
  }

  /** Every '%' starts a valid escape. */
  predicate WellFormed(s: string) {
    if s == "" then true
    else if EscapeAt(s) then WellFormed(s[3..])
    else s[0] != '%' && WellFormed(s[1..])
  }

  /**
    No stray '%' of s stands in front of two units, each a raw character or an escape of an unreserved one,
    that mean two hex digits spelling a non-canonical escape.  This reads the raw text only.
   */
  predicate StraySafe(s: string) {
    if s == "" then true
    else if EscapeAt(s) then StraySafe(s[3..])
    else StraySafe(s[1..]) && (s[0] == '%' ==> !RawSpells(s[1..]))
  }

  /** The character the first unit of a text means; none if the text is empty or starts with an escape that stays one. */
  function FirstChar(t: string): string {
    if t == "" then ""
    else if EscapeAt(t) then (if |Replace(t[1], t[2])| == 1 then Replace(t[1], t[2]) else "")
    else [t[0]]
  }

  function AfterFirst(t: string): string
    requires t != ""
  {
    if EscapeAt(t) then t[3..] else t[1..]
  }

  predicate RawSpells(t: string) {
    var a := FirstChar(t);
    a != "" &&
    var b := FirstChar(AfterFirst(t));
    b != "" && SpellsNonCanonical(a + b)
  }

  predicate SpellsNonCanonical(t: string) {
    |t| >= 2 && IsHex(t[0]) && IsHex(t[1]) && Replace(t[0], t[1]) != ['%', t[0], t[1]]
  }

  /** Deciding it on the raw text is deciding it on the decoded text. */
  lemma {:induction false} RawSpellsIff(t: string)
    ensures RawSpells(t) <==> SpellsNonCanonical(Normalize(t))
  {
    if t != "" {
      FirstCharIs(t);
      FirstCharIs(AfterFirst(t));
      var a, n := FirstChar(t), Normalize(AfterFirst(t));
      if a != "" {
        assert Normalize(t) == a + n;
        assert FirstChar(AfterFirst(t)) != "" ==> n[0] == FirstChar(AfterFirst(t))[0];
      }
    }
  }

  /** The first unit is what normalising puts first, unless an escape or nothing stays there. */
  lemma {:induction false} FirstCharIs(t: string)
    ensures FirstChar(t) == "" ==> Normalize(t) == "" || Normalize(t)[0] == '%'
    ensures FirstChar(t) != "" ==> |FirstChar(t)| == 1 && t != "" && Normalize(t) == FirstChar(t) + Normalize(AfterFirst(t))
  {
  }

  lemma {:induction false} NormalizePlain(c: char, t: string)
    requires c != '%'
    ensures Normalize([c] + t) == [c] + Normalize(t)
  {
    assert ([c] + t)[1..] == t;
  }

  lemma {:induction false} NormalizeEscape(h: char, l: char, t: string)
    requires IsHex(h) && IsHex(l)
    ensures Normalize(['%', h, l] + t) == Replace(h, l) + Normalize(t)
  {
    var s := ['%', h, l] + t;
    assert s[3..] == t && EscapeAt(s);
  }

  /** A canonical escape or decoded character survives a second pass. */
  lemma {:induction false} ReplaceIsCanonical(h: char, l: char, t: string)
    requires IsHex(h) && IsHex(l)
    ensures Normalize(Replace(h, l) + t) == Replace(h, l) + Normalize(t)
  {
    var r := Replace(h, l);
    if |r| == 1 {
      NormalizePlain(r[0], t);
    } else {
      assert r == ['%', r[1], r[2]];
      assert Replace(r[1], r[2]) == r;
      NormalizeEscape(r[1], r[2], t);
    }
  }

  /** Second pass over a stray '%': it is harmless exactly when it spells nothing new. */
  lemma {:induction false} StrayStep(t: string)
    ensures Normalize(['%'] + t) == ['%'] + t <==> Normalize(t) == t && !SpellsNonCanonical(t)
  {
    var s := ['%'] + t;
    assert s[1..] == t;
    if EscapeAt(s) {
      assert s == ['%', t[0], t[1]] + t[2..];
      NormalizeEscape(t[0], t[1], t[2..]);
      assert t == [t[0]] + ([t[1]] + t[2..]);
      NormalizePlain(t[0], [t[1]] + t[2..]);
      NormalizePlain(t[1], t[2..]);
      var r := Replace(t[0], t[1]);
      if |r| == 3 {
        assert (r + Normalize(t[2..]))[..3] == r;
        assert s[..3] == ['%', t[0], t[1]];
        assert (r + Normalize(t[2..]))[3..] == Normalize(t[2..]);
        assert s[3..] == t[2..];
        assert Normalize(t) == [t[0], t[1]] + Normalize(t[2..]);
        assert Normalize(t)[2..] == Normalize(t[2..]);
      }
    }
  }

  /** Percent normalisation is idempotent exactly on the texts whose stray '%' are safe. */
  lemma {:induction false} IdempotentIff(s: string)
    ensures Normalize(Normalize(s)) == Normalize(s) <==> StraySafe(s)
  {
    if s == "" {
    } else if EscapeAt(s) {
      IdempotentIff(s[3..]);
      var r, t := Replace(s[1], s[2]), Normalize(s[3..]);
      ReplaceIsCanonical(s[1], s[2], t);
      assert (r + Normalize(t))[|r|..] == Normalize(t) && (r + t)[|r|..] == t;
    } else {
      IdempotentIff(s[1..]);
      var t := Normalize(s[1..]);
      if s[0] == '%' {
        StrayStep(t);
        RawSpellsIff(s[1..]);
      } else {
        NormalizePlain(s[0], t);
        assert ([s[0]] + Normalize(t))[1..] == Normalize(t) && ([s[0]] + t)[1..] == t;
      }
    }
  }

  lemma {:induction false} WellFormedIsSafe(s: string)
    requires WellFormed(s)
    ensures StraySafe(s)
  {
    if s != "" {
      WellFormedIsSafe(if EscapeAt(s) then s[3..] else s[1..]);
    }
  }

  /** `%%34%31` becomes `%41` and then `A`: a stray '%' breaks idempotence. */
  lemma StrayPercentCounterexample()
    ensures Normalize("%%34%31") == "%41"
    ensures Normalize(Normalize("%%34%31")) == "A"
    ensures !StraySafe("%%34%31")
  {
    assert "%%34%31"[1..] == "%34%31";
    assert "%34%31"[3..] == "%31";
    assert "%31"[3..] == "";
    assert Normalize("%31") == "1";
    assert Normalize("%34%31") == "41";
    assert "%41"[3..] == "";
    assert "%34%31"[1..] == "34%31";
    assert FirstChar("%34%31") == "4" && FirstChar("%31") == "1";
    assert "4" + "1" == "41";
  }

  lemma ConcatAssoc(a: string, b: string, c: string, d: string)
    ensures a + (b + c + d) == a + b + c + d
  {
  }

  /** Escapes never straddle a '/', and decoding never produces one. */
  lemma {:induction false} DistributesOverSlash(a: string, b: string)
    ensures Normalize(a + "/" + b) == Normalize(a) + "/" + Normalize(b)
  {
    var s := a + "/" + b;
    if a == "" {
      assert s == ['/'] + b;
      NormalizePlain('/', b);
    } else {
      var n := if EscapeAt(a) then 3 else 1;
      assert s[n..] == a[n..] + "/" + b;
      assert EscapeAt(s) == EscapeAt(a);
      DistributesOverSlash(a[n..], b);
      var head := if EscapeAt(a) then Replace(a[1], a[2]) else [a[0]];
      assert Normalize(s) == head + Normalize(s[n..]) && Normalize(a) == head + Normalize(a[n..]);
      ConcatAssoc(head, Normalize(a[n..]), "/", Normalize(b));
    }
  }

  lemma {:induction false} NormalizeSegment(seg: string, rest: string)
    requires rest == "" || rest[0] == '/'
    ensures Normalize("/" + seg + rest) == "/" + Normalize(seg) + Normalize(rest)
  {
    assert "/" + seg + rest == ['/'] + (seg + rest);
    NormalizePlain('/', seg + rest);
    if rest == "" {
      assert seg + rest == seg;
    } else {
      assert rest == ['/'] + rest[1..];
      assert seg + rest == seg + "/" + rest[1..];
      DistributesOverSlash(seg, rest[1..]);
      NormalizePlain('/', rest[1..]);
    }
  }

  lemma {:induction false} KeepsSlashFree(s: string)
    requires '/' !in s
    ensures '/' !in Normalize(s)
  {
    if s != "" {
      KeepsSlashFree(if EscapeAt(s) then s[3..] else s[1..]);
    }
  }
}

module DotSegments {

  predicate SlashFree(segs: seq<string>) {
    forall i :: 0 <= i < |segs| ==> '/' !in segs[i]
  }

  /** First '/' of p at or after position i, or |p|. */
  function NextSlash(p: string, i: nat): (b: nat)
    requires i <= |p|
    ensures i <= b <= |p|
    ensures '/' !in p[i..b]
    ensures b < |p| ==> p[b] == '/'
    decreases |p| - i
  {
    if i == |p| || p[i] == '/' then i
    else
      var b := NextSlash(p, i + 1);
      assert p[i..b] == [p[i]] + p[i + 1..b];
      b
  }

  lemma {:induction false} NextSlashUnique(p: string, i: nat, b: nat)
    requires i <= b <= |p| && '/' !in p[i..b] && (b < |p| ==> p[b] == '/')
    ensures NextSlash(p, i) == b
    decreases b - i
  {
    if i < b {
      assert p[i] == p[i..b][0] && p[i + 1..b] == p[i..b][1..];
      NextSlashUnique(p, i + 1, b);
    }
  }

  /** The segments of an absolute path: "/a//b" has segments "a", "" and "b". */
  function Split(p: string): (segs: seq<string>)
    requires p != "" && p[0] == '/'
    ensures segs != [] && SlashFree(segs)
    decreases |p|
  {
    var b := NextSlash(p, 1);
    if b == |p| then [p[1..]] else [p[1..b]] + Split(p[b..])
  }

  function Join(segs: seq<string>): string {
    if segs == [] then "" else "/" + segs[0] + Join(segs[1..])
  }

  lemma {:induction false} SplitCons(seg: string, rest: string)
    requires '/' !in seg
    requires rest == "" || rest[0] == '/'
    ensures Split("/" + seg + rest) == if rest == "" then [seg] else [seg] + Split(rest)
  {
    var p, b := "/" + seg + rest, 1 + |seg|;
    assert p[1..b] == seg && p[b..] == rest;
    NextSlashUnique(p, 1, b);
    if rest == "" {
      assert p[1..] == seg;
    }
  }

  lemma {:induction false} SplitJoin(segs: seq<string>)
    requires segs != [] && SlashFree(segs)
    ensures Join(segs) != "" && Join(segs)[0] == '/'
    ensures Split(Join(segs)) == segs
  {
    if |segs| == 1 {
      assert Join(segs) == "/" + segs[0] + "";
      SplitCons(segs[0], "");
      assert segs == [segs[0]];
    } else {
      SplitJoin(segs[1..]);
      SplitCons(segs[0], Join(segs[1..]));
      assert segs == [segs[0]] + segs[1..];
    }
  }

  lemma {:induction false} JoinSplit(p: string)
    requires p != "" && p[0] == '/'
    ensures Join(Split(p)) == p
    decreases |p|
  {
    var b := NextSlash(p, 1);
    var seg, rest := p[1..b], p[b..];
    assert p == "/" + seg + rest;
    SplitCons(seg, rest);
    if rest != "" {
      JoinSplit(rest);
    }
    assert Split(p)[1..] == if rest == "" then [] else Split(rest);
  }

  lemma {:induction false} JoinAppend(a: seq<string>, b: seq<string>)
    ensures Join(a + b) == Join(a) + Join(b)
  {
    if a == [] {
      assert a + b == b;
    } else {
      JoinAppend(a[1..], b);
      assert (a + b)[1..] == a[1..] + b;
      Concat3("/" + a[0], Join(a[1..]), Join(b));
    }
  }

  /**
    The output buffer of the algorithm: a relative first segment without a leading slash
    (empty for absolute paths) and the segments pushed after it.
   */
  datatype Stack = Stack(base: string, segs: seq<string>) {
    function Render(): string { base + Join(segs) }

    function Push(seg: string): Stack { this.(segs := segs + [seg]) }

    function Pop(): Stack {
      if segs == [] then Stack("", []) else this.(segs := segs[..|segs| - 1])
    }

    ghost predicate Valid() { '/' !in base && SlashFree(segs) }
  }

  /** Reference definition: one left-to-right pass over whole segments. */
  function Resolve(st: Stack, segs: seq<string>): Stack
    decreases |segs|
  {
    if segs == [] then st
    else if segs[0] == "." then
      if |segs| == 1 then st.Push("") else Resolve(st, segs[1..])
    else if segs[0] == ".." then
      if |segs| == 1 then st.Pop().Push("") else Resolve(st.Pop(), segs[1..])
    else Resolve(st.Push(segs[0]), segs[1..])
  }

  predicate StartsWith(s: string, prefix: string) { prefix <= s }

  function StripRelative(p: string): string {
    if StartsWith(p, "../") then StripRelative(p[3..])
    else if StartsWith(p, "./") then StripRelative(p[2..])
    else p
  }

  /** Section 5.2.4 of RFC 3986 as a fold over segments, for absolute and relative paths. */
  function RemoveDots(p: string): string {
    var q := StripRelative(p);
    if q == "" || q == "." || q == ".." then ""
    else
      var b := NextSlash(q, 0);
      if b == |q| then q else Resolve(Stack(q[..b], []), Split(q[b..])).Render()
  }

  /** What remains to be output by the loop for a given buffer and remaining input. */
  function Outcome(st: Stack, remaining: string): string {
    if remaining == "" then st.Render()
    else if remaining[0] == '/' then Resolve(st, Split(remaining)).Render()
    else RemoveDots(remaining)
  }

  /** Position of the last '/' of s before position n, or -1. */
  function LastSlash(s: string, n: nat): (k: int)
    requires n <= |s|
    ensures -1 <= k < n
    ensures k >= 0 ==> s[k] == '/'
    ensures forall j :: k < j < n ==> s[j] != '/'
  {
    if n == 0 then -1 else if s[n - 1] == '/' then n - 1 else LastSlash(s, n - 1)
  }

  function RemoveLastSegment(s: string): string {
    var k := LastSlash(s, |s|);
    if k >= 0 then s[..k] else ""
  }

  lemma {:induction false} RemoveLastIsPop(st: Stack)
    requires st.Valid()
    ensures RemoveLastSegment(st.Render()) == st.Pop().Render()
  {
    var s := st.Render();
    if st.segs == [] {
      assert s == st.base;
    } else {
      var n := |st.segs| - 1;
      assert st.segs == st.segs[..n] + [st.segs[n]];
      JoinAppend(st.segs[..n], [st.segs[n]]);
      assert [st.segs[n]][1..] == [];
      var front := st.base + Join(st.segs[..n]);
      assert s == front + "/" + st.segs[n];
      assert s[|front|] == '/' && s[..|front|] == front;
      assert forall j :: |front| < j < |s| ==> s[j] == st.segs[n][j - |front| - 1];
    }
  }

  lemma {:induction false} PushRenders(st: Stack, seg: string)
    ensures st.Push(seg).Render() == st.Render() + ("/" + seg)
  {
    JoinAppend(st.segs, [seg]);
    assert [seg][1..] == [];
    assert Join([seg]) == "/" + seg;
    Concat3(st.base, Join(st.segs), "/" + seg);
  }

  lemma Concat3(a: string, b: string, c: string)
    ensures a + (b + c) == a + b + c
  {
  }

  /** One segment of `remaining` with the text after it. */
  lemma {:induction false} OutcomeCons(st: Stack, seg: string, rest: string)
    requires '/' !in seg
    requires rest == "" || rest[0] == '/'
    ensures var rem := "/" + seg + rest;
            Outcome(st, rem) ==
            if seg == "." then (if rest == "" then Outcome(st, "/") else Outcome(st, rest))
            else if seg == ".." then (if rest == "" then Outcome(st.Pop(), "/") else Outcome(st.Pop(), rest))
            else Outcome(st.Push(seg), rest)
  {
    var rem := "/" + seg + rest;
    SplitCons(seg, rest);
    SplitCons("", "");
    assert "/" + "" + "" == "/";
    var segs := Split(rem);
    assert Outcome(st, rem) == Resolve(st, segs).Render();
    assert segs[0] == seg && segs[1..] == if rest == "" then [] else Split(rest);
    if rest == "" {
      assert [""][1..] == [];
      assert Resolve(st, [""]) == st.Push("") && Resolve(st.Pop(), [""]) == st.Pop().Push("");
      assert Resolve(st.Push(seg), segs[1..]) == st.Push(seg);
    }
  }

  /** The four rewrites of a leading dot segment. */
  lemma {:induction false} DotStep(st: Stack, remaining: string)
    ensures StartsWith(remaining, "/./") ==> Outcome(st, remaining) == Outcome(st, "/" + remaining[3..])
    ensures remaining == "/." ==> Outcome(st, remaining) == Outcome(st, "/")
    ensures StartsWith(remaining, "/../") ==> Outcome(st, remaining) == Outcome(st.Pop(), "/" + remaining[4..])
    ensures remaining == "/.." ==> Outcome(st, remaining) == Outcome(st.Pop(), "/")
  {
    if StartsWith(remaining, "/./") {
      assert remaining == "/" + "." + remaining[2..] && "/" + remaining[3..] == remaining[2..];
      OutcomeCons(st, ".", remaining[2..]);
    } else if StartsWith(remaining, "/../") {
      assert remaining == "/" + ".." + remaining[3..] && "/" + remaining[4..] == remaining[3..];
      OutcomeCons(st, "..", remaining[3..]);
    } else if remaining == "/." {
      assert remaining == "/" + "." + "";
      OutcomeCons(st, ".", "");
    } else if remaining == "/.." {
      assert remaining == "/" + ".." + "";
      OutcomeCons(st, "..", "");
    }
  }

  ghost predicate LoopInv(goal: string, st: Stack, output: string, remaining: string) {
    && st.Valid() && output == st.Render()
    && (remaining != "" && remaining[0] != '/' ==> st == Stack("", []))
    && Outcome(st, remaining) == goal
  }

  lemma {:induction false} StripStep(goal: string, st: Stack, output: string, remaining: string, n: nat)
    requires LoopInv(goal, st, output, remaining)
    requires (n == 3 && StartsWith(remaining, "../")) || (n == 2 && StartsWith(remaining, "./"))
    ensures LoopInv(goal, st, output, remaining[n..])
  {
    RelativeStep(remaining[n..]);
    assert remaining[1] == if n == 3 then '.' else '/';
    assert StripRelative(remaining) == StripRelative(remaining[n..]);
  }

  lemma {:induction false} SkipStep(goal: string, st: Stack, output: string, remaining: string, next: string)
    requires LoopInv(goal, st, output, remaining)
    requires (StartsWith(remaining, "/./") && next == "/" + remaining[3..]) || (remaining == "/." && next == "/")
    ensures LoopInv(goal, st, output, next)
  {
    DotStep(st, remaining);
  }

  lemma {:induction false} PopStep(goal: string, st: Stack, output: string, remaining: string, next: string)
    requires LoopInv(goal, st, output, remaining)
    requires (StartsWith(remaining, "/../") && next == "/" + remaining[4..]) || (remaining == "/.." && next == "/")
    ensures LoopInv(goal, st.Pop(), RemoveLastSegment(output), next)
  {
    DotStep(st, remaining);
    RemoveLastIsPop(st);
  }

  /** The buffer-and-remaining loop computes the segment fold. */
  method RemoveDotSegments(path: string) returns (output: string)
    ensures output == RemoveDots(path)
  {
    var remaining := path;
    output := "";
    ghost var st, goal := Stack("", []), RemoveDots(path);
    RelativeStep(path);
    while remaining != ""
      invariant LoopInv(goal, st, output, remaining)
      decreases |remaining|
    {
      if StartsWith(remaining, "../") {
        StripStep(goal, st, output, remaining, 3);
        remaining := remaining[3..];
      } else if StartsWith(remaining, "./") {
        StripStep(goal, st, output, remaining, 2);
        remaining := remaining[2..];
      } else if StartsWith(remaining, "/./") {
        SkipStep(goal, st, output, remaining, "/" + remaining[3..]);
        remaining := "/" + remaining[3..];
      } else if remaining == "/." {
        SkipStep(goal, st, output, remaining, "/");
        remaining := "/";
      } else if StartsWith(remaining, "/../") {
        PopStep(goal, st, output, remaining, "/" + remaining[4..]);
        remaining := "/" + remaining[4..];
        output := RemoveLastSegment(output);
        st := st.Pop();
      } else if remaining == "/.." {
        PopStep(goal, st, output, remaining, "/");
        remaining := "/";
        output := RemoveLastSegment(output);
        st := st.Pop();
      } else if remaining == "." || remaining == ".." {
        remaining := "";
      } else {
        var boundary := NextSlash(remaining, if StartsWith(remaining, "/") then 1 else 0);
        if remaining[0] == '/' {
          ghost var seg, rest := remaining[1..boundary], remaining[boundary..];
          assert remaining == "/" + seg + rest && remaining[..boundary] == "/" + seg;
          DotPrefix(seg, rest);
          PushStep(goal, st, output, seg, rest);
          st := st.Push(seg);
        } else {
          BaseStep(goal, st, output, remaining, boundary);
          st := Stack(remaining[..boundary], []);
        }
        output := output + remaining[..boundary];
        remaining := remaining[boundary..];
      }
    }
  }

  lemma {:induction false} RelativeStep(q: string)
    ensures Outcome(Stack("", []), q) == RemoveDots(q)
  {
    if q != "" && q[0] == '/' {
      assert NextSlash(q, 0) == 0 && q[..0] == "" && q[0..] == q;
      assert StripRelative(q) == q;
    }
  }

  /** A segment that is not a dot segment moves to the output buffer. */
  lemma {:induction false} PushStep(goal: string, st: Stack, output: string, seg: string, rest: string)
    requires '/' !in seg && seg != "." && seg != ".." && (rest == "" || rest[0] == '/')
    requires LoopInv(goal, st, output, "/" + seg + rest)
    ensures LoopInv(goal, st.Push(seg), output + ("/" + seg), rest)
  {
    assert Outcome(st.Push(seg), rest) == goal by {
      OutcomeCons(st, seg, rest);
    }
    PushRenders(st, seg);
  }

  lemma DotPrefix(seg: string, rest: string)
    requires rest == "" || rest[0] == '/'
    ensures seg == "." ==> "/" + seg + rest == "/." || StartsWith("/" + seg + rest, "/./")
    ensures seg == ".." ==> "/" + seg + rest == "/.." || StartsWith("/" + seg + rest, "/../")
  {
    assert rest != "" ==> rest == "/" + rest[1..];
  }

  /** The first segment of a relative path becomes the base of the buffer. */
  lemma {:induction false} BaseStep(goal: string, st: Stack, output: string, remaining: string, boundary: nat)
    requires LoopInv(goal, st, output, remaining)
    requires remaining != "" && remaining[0] != '/' && boundary == NextSlash(remaining, 0)
    requires !StartsWith(remaining, "../") && !StartsWith(remaining, "./") && remaining !in {".", ".."}
    ensures LoopInv(goal, Stack(remaining[..boundary], []), output + remaining[..boundary], remaining[boundary..])
  {
    assert remaining[0..boundary] == remaining[..boundary];
    assert output == "" && Stack(remaining[..boundary], []).Render() == remaining[..boundary];
    if boundary == |remaining| {
      assert remaining[..boundary] == remaining;
    }
  }
}

module PathIdentity {
  import opened DotSegments
  import PercentEncoding

  function RStripSlash(s: string): string {
    if s != "" && s[|s| - 1] == '/' then RStripSlash(s[..|s| - 1]) else s
  }

  /** The path part of normalize_url: an empty path stands for "/". */
  function PathId(path: string): string {
    RStripSlash(RemoveDots(PercentEncoding.Normalize(if path == "" then "/" else path)))
  }

  predicate IsUrlPath(path: string) { path == "" || path[0] == '/' }

  /** Apply a segment rewriting f to every segment. */
  function Map(f: string -> string, segs: seq<string>): seq<string> {
    seq(|segs|, i requires 0 <= i < |segs| => f(segs[i]))
  }

  function NormalizeAll(segs: seq<string>): seq<string> {
    Map(PercentEncoding.Normalize, segs)
  }

  /** A rewriting that acts on each '/'-delimited segment separately. */
  ghost predicate SegmentWise(f: string -> string) {
    forall seg, rest :: SeparatesAt(f, seg, rest)
  }

  ghost predicate SeparatesAt(f: string -> string, seg: string, rest: string) {
    '/' !in seg && (rest == "" || rest[0] == '/') ==>
      '/' !in f(seg) && f("/" + seg + rest) == "/" + f(seg) + f(rest)
  }

  lemma MapCons(f: string -> string, s: string, segs: seq<string>)
    ensures Map(f, [s] + segs) == [f(s)] + Map(f, segs)
  {
  }

  /** A rewriting that neither creates nor removes empty segments. */
  ghost predicate KeepsEmpty(f: string -> string) {
    forall s :: f(s) == "" <==> s == ""
  }

  /** Dot resolution of an absolute path, on segments alone. */
  function Fold(kept: seq<string>, segs: seq<string>): seq<string>
    decreases |segs|
  {
    Resolve(Stack("", kept), segs).segs
  }

  function DropTrailingEmpty(segs: seq<string>): (r: seq<string>)
    ensures r <= segs
    ensures r != [] ==> r[|r| - 1] != ""
  {
    if segs != [] && segs[|segs| - 1] == "" then DropTrailingEmpty(segs[..|segs| - 1]) else segs
  }

  predicate HasDots(segs: seq<string>) { "." in segs || ".." in segs }

  /**
    The raw segments that survive dot resolution when dots are recognised after rewriting
    each segment with f: what a caller can compute without rewriting the path.
   */
  function Survivors(f: string -> string, kept: seq<string>, segs: seq<string>): seq<string>
    decreases |segs|
  {
    if segs == [] then kept
    else
      var popped := if kept == [] then [] else kept[..|kept| - 1];
      if f(segs[0]) == "." then
        if |segs| == 1 then kept + [""] else Survivors(f, kept, segs[1..])
      else if f(segs[0]) == ".." then
        if |segs| == 1 then popped + [""] else Survivors(f, popped, segs[1..])
      else Survivors(f, kept + [segs[0]], segs[1..])
  }

  function Kept(path: string): seq<string>
    requires IsUrlPath(path)
  {
    DropTrailingEmpty(Survivors(PercentEncoding.Normalize, [], Split(if path == "" then "/" else path)))
  }

  lemma {:induction false} ResolveKeepsBase(kept: seq<string>, segs: seq<string>)
    ensures Resolve(Stack("", kept), segs).base == ""
    decreases |segs|
  {
    if segs != [] && segs[0] == "." {
      ResolveKeepsBase(kept, segs[1..]);
    } else if segs != [] && segs[0] == ".." {
      ResolveKeepsBase(Stack("", kept).Pop().segs, segs[1..]);
    } else if segs != [] {
      ResolveKeepsBase(kept + [segs[0]], segs[1..]);
    }
  }

  lemma {:induction false} FoldStep(kept: seq<string>, segs: seq<string>)
    requires segs != []
    ensures var popped := if kept == [] then [] else kept[..|kept| - 1];
            Fold(kept, segs) ==
            if segs[0] == "." then (if |segs| == 1 then kept + [""] else Fold(kept, segs[1..]))
            else if segs[0] == ".." then (if |segs| == 1 then popped + [""] else Fold(popped, segs[1..]))
            else Fold(kept + [segs[0]], segs[1..])
  {
  }

  /** Resolution keeps slash-free segments slash-free, and leaves no dot segment behind. */
  lemma {:induction false} FoldIsClean(kept: seq<string>, segs: seq<string>)
    requires SlashFree(kept) && SlashFree(segs) && !HasDots(kept)
    ensures SlashFree(Fold(kept, segs)) && !HasDots(Fold(kept, segs))
    decreases |segs|
  {
    if segs != [] {
      FoldStep(kept, segs);
      var popped := if kept == [] then [] else kept[..|kept| - 1];
      if segs[0] == "." {
        FoldIsClean(kept, segs[1..]);
      } else if segs[0] == ".." {
        FoldIsClean(popped, segs[1..]);
      } else {
        FoldIsClean(kept + [segs[0]], segs[1..]);
      }
    }
  }

  lemma {:induction false} FoldWithoutDots(kept: seq<string>, segs: seq<string>)
    requires !HasDots(segs)
    ensures Fold(kept, segs) == kept + segs
    decreases |segs|
  {
    if segs == [] {
      assert kept + segs == kept;
    } else {
      assert segs[0] in segs;
      FoldStep(kept, segs);
      FoldWithoutDots(kept + [segs[0]], segs[1..]);
      assert kept + [segs[0]] + segs[1..] == kept + segs;
    }
  }

  /** A path with a dot segment gets strictly shorter once trailing empties are dropped. */
  lemma {:induction false} DotsShrink(kept: seq<string>, segs: seq<string>)
    ensures |Fold(kept, segs)| <= |kept| + |segs|
    ensures HasDots(segs) ==> |DropTrailingEmpty(Fold(kept, segs))| < |kept| + |segs|
    decreases |segs|
  {
    if segs != [] {
      FoldStep(kept, segs);
      var popped := if kept == [] then [] else kept[..|kept| - 1];
      if segs[0] == "." {
        DotsShrink(kept, segs[1..]);
        assert (kept + [""])[..|kept|] == kept;
      } else if segs[0] == ".." {
        DotsShrink(popped, segs[1..]);
        assert (popped + [""])[..|popped|] == popped;
      } else {
        DotsShrink(kept + [segs[0]], segs[1..]);
        assert segs == [segs[0]] + segs[1..];
      }
    }
  }

  lemma {:induction false} SurvivorsAreFold(f: string -> string, kept: seq<string>, segs: seq<string>)
    requires KeepsEmpty(f)
    ensures Map(f, Survivors(f, kept, segs)) == Fold(Map(f, kept), Map(f, segs))
    decreases |segs|
  {
    if segs != [] {
      var popped := if kept == [] then [] else kept[..|kept| - 1];
      FoldStep(Map(f, kept), Map(f, segs));
      assert Map(f, segs)[1..] == Map(f, segs[1..]);
      assert Map(f, kept + [""]) == Map(f, kept) + [""];
      assert Map(f, popped + [""]) == Map(f, popped) + [""];
      assert Map(f, kept + [segs[0]]) == Map(f, kept) + [f(segs[0])];
      assert kept != [] ==> Map(f, popped) == Map(f, kept)[..|kept| - 1];
      if f(segs[0]) == "." {
        SurvivorsAreFold(f, kept, segs[1..]);
      } else if f(segs[0]) == ".." {
        SurvivorsAreFold(f, popped, segs[1..]);
      } else {
        SurvivorsAreFold(f, kept + [segs[0]], segs[1..]);
      }
    }
  }

  lemma {:induction false} DropCommutes(f: string -> string, segs: seq<string>)
    requires KeepsEmpty(f)
    ensures Map(f, DropTrailingEmpty(segs)) == DropTrailingEmpty(Map(f, segs))
  {
    if segs != [] {
      var n := |segs| - 1;
      if segs[n] == "" {
        DropCommutes(f, segs[..n]);
        assert Map(f, segs)[..n] == Map(f, segs[..n]);
      }
    }
  }

  lemma {:induction false} NormalizeIsSegmentWise()
    ensures SegmentWise(PercentEncoding.Normalize) && KeepsEmpty(PercentEncoding.Normalize)
  {
    forall seg, rest
      ensures SeparatesAt(PercentEncoding.Normalize, seg, rest)
    {
      if '/' !in seg && (rest == "" || rest[0] == '/') {
        PercentEncoding.NormalizeSegment(seg, rest);
        PercentEncoding.KeepsSlashFree(seg);
      }
    }
  }

  lemma {:induction false} SplitMapped(f: string -> string, p: string)
    requires SegmentWise(f) && KeepsEmpty(f)
    requires p != "" && p[0] == '/'
    ensures f(p) != "" && f(p)[0] == '/' && Split(f(p)) == Map(f, Split(p))
    decreases |p|
  {
    var b := NextSlash(p, 1);
    var seg, rest := p[1..b], p[b..];
    assert p == "/" + seg + rest;
    assert SeparatesAt(f, seg, rest);
    SplitCons(seg, rest);
    if rest == "" {
      SplitCons(f(seg), "");
    } else {
      SplitMapped(f, rest);
      SplitCons(f(seg), f(rest));
      MapCons(f, seg, Split(rest));
    }
  }

  lemma {:induction false} RStripJoin(segs: seq<string>)
    requires SlashFree(segs)
    ensures RStripSlash(Join(segs)) == Join(DropTrailingEmpty(segs))
  {
    if segs != [] {
      var n := |segs| - 1;
      assert segs == segs[..n] + [segs[n]];
      JoinAppend(segs[..n], [segs[n]]);
      assert [segs[n]][1..] == [];
      assert Join([segs[n]]) == "/" + segs[n];
      var s := Join(segs);
      assert s == Join(segs[..n]) + "/" + segs[n];
      if segs[n] == "" {
        assert s[|s| - 1] == '/' && s[..|s| - 1] == Join(segs[..n]);
        RStripJoin(segs[..n]);
      } else {
        assert s[|s| - 1] == segs[n][|segs[n]| - 1];
      }
    }
  }

  lemma {:induction false} RewriteBySegments(f: string -> string, p: string)
    requires SegmentWise(f) && KeepsEmpty(f)
    requires p != "" && p[0] == '/'
    ensures var kept := Map(f, DropTrailingEmpty(Survivors(f, [], Split(p))));
            && RStripSlash(RemoveDots(f(p))) == Join(kept)
            && SlashFree(kept) && !HasDots(kept)
  {
    SplitMapped(f, p);
    RelativeStep(f(p));
    var segs := Split(f(p));
    ResolveKeepsBase([], segs);
    var folded := Fold([], segs);
    assert "" + Join(folded) == Join(folded);
    FoldIsClean([], segs);
    RStripJoin(folded);
    SurvivorsAreFold(f, [], Split(p));
    assert Map(f, []) == [];
    DropCommutes(f, Survivors(f, [], Split(p)));
    assert forall s :: s in DropTrailingEmpty(folded) ==> s in folded;
  }

  /** The path identity, computed on segments. */
  lemma {:induction false} PathIdBySegments(path: string)
    requires IsUrlPath(path)
    ensures PathId(path) == Join(NormalizeAll(Kept(path)))
    ensures SlashFree(NormalizeAll(Kept(path))) && !HasDots(NormalizeAll(Kept(path)))
  {
    NormalizeIsSegmentWise();
    RewriteBySegments(PercentEncoding.Normalize, if path == "" then "/" else path);
  }

  lemma {:induction false} JoinInjective(a: seq<string>, b: seq<string>)
    requires SlashFree(a) && SlashFree(b) && Join(a) == Join(b)
    ensures a == b
  {
    if a != [] && b != [] {
      SplitJoin(a);
      SplitJoin(b);
    }
  }

  lemma {:induction false} MapFixes(f: string -> string, segs: seq<string>)
    ensures Map(f, []) == [] && |Map(f, segs)| == |segs|
    ensures Map(f, segs) == segs <==> forall i :: 0 <= i < |segs| ==> f(segs[i]) == segs[i]
  {
    assert forall i :: 0 <= i < |segs| ==> Map(f, segs)[i] == f(segs[i]);
  }

  /** Resolving already resolved segments again changes nothing iff rewriting changes nothing. */
  lemma {:induction false} SecondPass(f: string -> string, once: seq<string>)
    requires KeepsEmpty(f) && once != [] && once[|once| - 1] != "" && !HasDots(once)
    ensures Map(f, DropTrailingEmpty(Survivors(f, [], once))) == once
            <==> forall i :: 0 <= i < |once| ==> f(once[i]) == once[i]
  {
    hide Map;
    hide Survivors;
    hide Fold;
    hide HasDots;
    var twice := Map(f, once);
    MapFixes(f, once);
    SurvivorsAreFold(f, [], once);
    DropCommutes(f, Survivors(f, [], once));
    var result := DropTrailingEmpty(Fold([], twice));
    if HasDots(twice) {
      DotsShrink([], twice);
      assert twice != once;
    } else {
      FoldWithoutDots([], twice);
      assert [] + twice == twice;
      if result == once {
        assert result == twice[..|twice|] == twice;
      }
    }
  }

  lemma {:induction false} EmptyPathIsRoot()
    ensures Kept("") == []
  {
    SplitCons("", "");
    assert "/" + "" + "" == "/";
    var f := PercentEncoding.Normalize;
    assert f("") == "" && [""][1..] == [];
    assert Survivors(f, [], [""]) == Survivors(f, [] + [""], []) == [""];
    assert [""][..0] == [] && DropTrailingEmpty([""]) == [];
  }

  /**
    Normalising a path twice is normalising it once exactly when every segment that survives
    dot resolution is free of stray '%' that decode into a new escape.
   */
  lemma {:induction false} IdempotentIff(path: string)
    requires IsUrlPath(path)
    ensures PathId(PathId(path)) == PathId(path)
            <==> forall i :: 0 <= i < |Kept(path)| ==> PercentEncoding.StraySafe(Kept(path)[i])
  {
    PathIdBySegments(path);
    var kept := Kept(path);
    var once := NormalizeAll(kept);
    if kept == [] {
      EmptyPathIsRoot();
      PathIdBySegments("");
    } else {
      SplitJoin(once);
      PathIdBySegments(Join(once));
      SecondPass(PercentEncoding.Normalize, once);
      forall i | 0 <= i < |kept|
        ensures PercentEncoding.Normalize(once[i]) == once[i] <==> PercentEncoding.StraySafe(kept[i])
      {
        PercentEncoding.IdempotentIff(kept[i]);
      }
      var again := NormalizeAll(Kept(Join(once)));
      if PathId(Join(once)) == Join(once) {
        JoinInjective(again, once);
      }
    }
  }

  /** On well-formed escapes the identity is idempotent. */
  lemma {:induction false} IdempotentOnWellFormed(path: string)
    requires IsUrlPath(path) && PercentEncoding.WellFormed(path)
    ensures PathId(PathId(path)) == PathId(path)
  {
    var p := if path == "" then "/" else path;
    WellFormedSegments(p);
    SurvivorsAreSegments(PercentEncoding.Normalize, [], Split(p));
    forall i | 0 <= i < |Kept(path)|
      ensures PercentEncoding.StraySafe(Kept(path)[i])
    {
      var survivors := Survivors(PercentEncoding.Normalize, [], Split(p));
      assert survivors[i] in survivors;
      PercentEncoding.WellFormedIsSafe(Kept(path)[i]);
    }
    IdempotentIff(path);
  }

  lemma {:induction false} SurvivorsAreSegments(f: string -> string, kept: seq<string>, segs: seq<string>)
    ensures forall s :: s in Survivors(f, kept, segs) ==> s in kept || s in segs || s == ""
    decreases |segs|
  {
    if segs != [] {
      var popped := if kept == [] then [] else kept[..|kept| - 1];
      SurvivorsAreSegments(f, kept, segs[1..]);
      SurvivorsAreSegments(f, popped, segs[1..]);
      SurvivorsAreSegments(f, kept + [segs[0]], segs[1..]);
    }
  }

  lemma {:induction false} WellFormedSegments(p: string)
    requires p != "" && p[0] == '/' && PercentEncoding.WellFormed(p)
    ensures forall s :: s in Split(p) ==> PercentEncoding.WellFormed(s)
    decreases |p|
  {
    var b := NextSlash(p, 1);
    var seg, rest := p[1..b], p[b..];
    assert p[1..] == seg + rest;
    WellFormedSplits(seg, rest);
    if rest != "" {
      WellFormedSegments(rest);
    } else {
      assert seg == p[1..];
    }
  }

  lemma {:induction false} WellFormedSplits(seg: string, rest: string)
    requires '/' !in seg && (rest == "" || rest[0] == '/') && PercentEncoding.WellFormed(seg + rest)
    ensures PercentEncoding.WellFormed(seg) && PercentEncoding.WellFormed(rest)
  {
    var s := seg + rest;
    if seg == "" {
      assert s == rest;
    } else {
      var n := if PercentEncoding.EscapeAt(s) then 3 else 1;
      assert |seg| < 3 && rest != "" ==> s[|seg|] == '/';
      assert PercentEncoding.EscapeAt(seg) == PercentEncoding.EscapeAt(s);
      assert s[n..] == seg[n..] + rest;
      WellFormedSplits(seg[n..], rest);
    }
  }
}
