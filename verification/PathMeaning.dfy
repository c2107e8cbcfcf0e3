/**
  What normalising a path keeps and what it promises: which texts still read the same once their escapes are
  rewritten, that the result is in the canonical form of sections 6.2.2.1 and 6.2.2.2 of RFC 3986, and that dot
  segments mean what a file path makes of them.
 */
module PathMeaning {
  import opened PercentEncoding
  import opened DotSegments

  // ---- what a text says ---------------------------------------------------------------------

  function Digit(c: char): nat
    requires IsHex(c)
  {
    match c
    case '0' => 0
    case '1' => 1
    case '2' => 2
    case '3' => 3
    case '4' => 4
    case '5' => 5
    case '6' => 6
    case '7' => 7
    case '8' => 8
    case '9' => 9
    case _ => if c in "aA" then 10 else if c in "bB" then 11 else if c in "cC" then 12 else if c in "dD" then 13
              else if c in "eE" then 14 else 15
  }

  /** The characters a text stands for: every valid escape, read from the left, is one. */
  function Decoded(s: string): seq<int> {
    if s == "" then []
    else if EscapeAt(s) then [16 * Digit(s[1]) + Digit(s[2])] + Decoded(s[3..])
    else [s[0] as int] + Decoded(s[1..])
  }

  lemma DigitIs(c: char)
    requires IsHex(c)
    ensures Digit(c) == HexValue(c)
  {
  }

  /** The two units behind a stray '%', each a raw character or an escape, mean two hex digits. */
  predicate SpellsEscape(t: string) {
    var a := FirstChar(t);
    a != "" && IsHex(a[0]) &&
    var b := FirstChar(AfterFirst(t));
    b != "" && IsHex(b[0])
  }

  /** No stray '%' stands before two units that mean hex digits. */
  predicate SpellsNothing(s: string) {
    if s == "" then true
    else if EscapeAt(s) then SpellsNothing(s[3..])
    else SpellsNothing(s[1..]) && (s[0] == '%' ==> !SpellsEscape(s[1..]))
  }

  lemma SpellsEscapeIff(t: string)
    ensures SpellsEscape(t) <==> |Normalize(t)| >= 2 && IsHex(Normalize(t)[0]) && IsHex(Normalize(t)[1])
  {
    if t != "" {
      FirstCharIs(t);
      FirstCharIs(AfterFirst(t));
      var a, n := FirstChar(t), Normalize(AfterFirst(t));
      if a != "" {
        assert Normalize(t) == a + n;
        if n != "" {
          assert Normalize(t)[1] == n[0];
        }
      }
    }
  }

  lemma DecodedPlain(c: char, t: string)
    requires !EscapeAt([c] + t)
    ensures Decoded([c] + t) == [c as int] + Decoded(t)
  {
    assert ([c] + t)[1..] == t;
  }

  /** A letter, a digit or one of the four marks of section 2.3 of RFC 3986. */
  predicate NeedsNoEscape(code: int) {
    || 0x41 <= code <= 0x5A || 0x61 <= code <= 0x7A || 0x30 <= code <= 0x39
    || code == 0x2D || code == 0x2E || code == 0x5F || code == 0x7E
  }

  /** What an escape is rewritten to: the character itself, or the same escape in upper case. */
  lemma ReplaceIs(h: char, l: char)
    requires IsHex(h) && IsHex(l)
    ensures var r, code := Replace(h, l), 16 * Digit(h) + Digit(l);
            if NeedsNoEscape(code) then |r| == 1 && r[0] as int == code && r[0] != '%'
            else && |r| == 3 && r[0] == '%' && IsHex(r[1]) && IsHex(r[2])
                 && Digit(r[1]) == Digit(h) && Digit(r[2]) == Digit(l)
                 && !('a' <= r[1] <= 'f') && !('a' <= r[2] <= 'f')
  {
    hide HexValue;
    hide Digit;
    hide IsHex;
    DigitIs(h);
    DigitIs(l);
    var v, w := HexValue(h), HexValue(l);
    assert (16 * v + w) / 16 == v && (16 * v + w) % 16 == w;
    DigitIs(HexDigit(v));
    DigitIs(HexDigit(w));
  }

  /** It says the same character. */
  lemma ReplaceSays(h: char, l: char, t: string)
    requires IsHex(h) && IsHex(l)
    ensures Decoded(Replace(h, l) + t) == [16 * Digit(h) + Digit(l)] + Decoded(t)
  {
    hide Digit;
    hide Replace;
    ReplaceIs(h, l);
    var r := Replace(h, l);
    if |r| == 1 {
      DecodedPlain(r[0], t);
      assert r + t == [r[0]] + t;
    } else {
      var s := r + t;
      assert s[3..] == t && s[0] == '%' && s[1] == r[1] && s[2] == r[2];
    }
  }

  /**
    The rewritten text stands for the same characters exactly when no stray '%' gets two hex digits behind it; else
    it stands for fewer.
   */
  lemma {:induction false} SaysTheSameIff(s: string)
    ensures |Decoded(Normalize(s))| <= |Decoded(s)|
    ensures Decoded(Normalize(s)) == Decoded(s) <==> SpellsNothing(s)
    ensures !SpellsNothing(s) ==> |Decoded(Normalize(s))| < |Decoded(s)|
  {
    hide Digit;
    hide Replace;
    hide SpellsEscape;
    hide FirstChar;
    if s == "" {
    } else if EscapeAt(s) {
      SaysTheSameIff(s[3..]);
      ReplaceSays(s[1], s[2], Normalize(s[3..]));
      SameTail(16 * Digit(s[1]) + Digit(s[2]), Decoded(Normalize(s[3..])), Decoded(s[3..]));
    } else {
      SaysTheSameIff(s[1..]);
      var t := Normalize(s[1..]);
      if s[0] != '%' || !SpellsEscape(s[1..]) {
        SpellsEscapeIff(s[1..]);
        NotEscape(s[0], t);
        DecodedPlain(s[0], t);
        SameTail(s[0] as int, Decoded(t), Decoded(s[1..]));
      } else {
        SpellsEscapeIff(s[1..]);
        StrayMerges(t);
      }
    }
  }

  lemma SameTail(x: int, a: seq<int>, b: seq<int>)
    ensures [x] + a == [x] + b <==> a == b
  {
    assert ([x] + a)[1..] == a && ([x] + b)[1..] == b;
  }

  lemma NotEscape(c: char, t: string)
    requires c != '%' || !(|t| >= 2 && IsHex(t[0]) && IsHex(t[1]))
    ensures !EscapeAt([c] + t)
  {
  }

  lemma StrayMerges(t: string)
    requires |t| >= 2 && IsHex(t[0]) && IsHex(t[1])
    ensures |Decoded(['%'] + t)| < |Decoded(t)|
  {
    var s := ['%'] + t;
    assert s[3..] == t[2..] && s[1] == t[0] && s[2] == t[1];
    assert t == [t[0]] + t[1..] && t[1..] == [t[1]] + t[2..];
    DecodedPlain(t[0], t[1..]);
    DecodedPlain(t[1], t[2..]);
  }

  /** A text whose every '%' starts a valid escape keeps saying the same. */
  lemma {:induction false} WellFormedSaysTheSame(s: string)
    requires WellFormed(s)
    ensures Decoded(Normalize(s)) == Decoded(s)
  {
    WellFormedSpellsNothing(s);
    SaysTheSameIff(s);
  }

  lemma {:induction false} WellFormedSpellsNothing(s: string)
    requires WellFormed(s)
    ensures SpellsNothing(s)
  {
    if s != "" {
      WellFormedSpellsNothing(if EscapeAt(s) then s[3..] else s[1..]);
    }
  }

  // ---- the canonical form -------------------------------------------------------------------

  /** Every valid escape is in upper case and of a character that needs one. */
  predicate Canonical(s: string) {
    if s == "" then true
    else if EscapeAt(s) then
      && !('a' <= s[1] <= 'f') && !('a' <= s[2] <= 'f') && !NeedsNoEscape(16 * Digit(s[1]) + Digit(s[2]))
      && Canonical(s[3..])
    else Canonical(s[1..])
  }

  lemma {:induction false} CanonicalIff(s: string)
    ensures Canonical(s) <==> Normalize(s) == s
  {
    if s == "" {
    } else if EscapeAt(s) {
      CanonicalIff(s[3..]);
      CanonicalEscape(s[1], s[2]);
      assert s == ['%', s[1], s[2]] + s[3..];
      var r := Replace(s[1], s[2]);
      if |r| == 3 {
        assert (r + Normalize(s[3..]))[..3] == r && (r + Normalize(s[3..]))[3..] == Normalize(s[3..]) && s[..3] == ['%', s[1], s[2]];
      }
    } else {
      CanonicalIff(s[1..]);
      assert s == [s[0]] + s[1..];
      assert ([s[0]] + Normalize(s[1..]))[1..] == Normalize(s[1..]);
    }
  }

  lemma CanonicalEscape(h: char, l: char)
    requires IsHex(h) && IsHex(l)
    ensures Replace(h, l) == ['%', h, l] <==>
              !('a' <= h <= 'f') && !('a' <= l <= 'f') && !NeedsNoEscape(16 * Digit(h) + Digit(l))
  {
    hide Replace;
    hide Digit;
    ReplaceIs(h, l);
    var r := Replace(h, l);
    if |r| == 3 && !('a' <= h <= 'f') && !('a' <= l <= 'f') {
      SameDigit(h, r[1]);
      SameDigit(l, r[2]);
    }
  }

  /** Of the two spellings of a digit only one is in upper case. */
  lemma SameDigit(c: char, d: char)
    requires IsHex(c) && IsHex(d) && Digit(c) == Digit(d) && !('a' <= c <= 'f') && !('a' <= d <= 'f')
    ensures c == d
  {
    DigitIs(c);
    DigitIs(d);
  }

  /** The rewritten text is canonical exactly when no stray '%' spells an escape that is not. */
  lemma NormalizedIsCanonicalIff(s: string)
    ensures Canonical(Normalize(s)) <==> StraySafe(s)
  {
    CanonicalIff(Normalize(s));
    IdempotentIff(s);
  }

  // ---- dot segments -------------------------------------------------------------------------

  predicate Plain(seg: string) { seg != "." && seg != ".." && '/' !in seg }

  lemma {:induction false} UpCancels(st: Stack, a: seq<string>, seg: string, b: seq<string>)
    requires b != [] && Plain(seg)
    ensures Resolve(st, a + [seg, ".."] + b) == Resolve(st, a + b)
    decreases |a|
  {
    if a == [] {
      assert a + [seg, ".."] + b == [seg] + ([".."] + b) && a + b == b;
      assert ([seg] + ([".."] + b))[1..] == [".."] + b && ([".."] + b)[1..] == b;
      assert st.Push(seg).Pop() == st;
    } else {
      assert a + [seg, ".."] + b == [a[0]] + (a[1..] + [seg, ".."] + b) && a + b == [a[0]] + (a[1..] + b);
      assert (a + [seg, ".."] + b)[1..] == a[1..] + [seg, ".."] + b && (a + b)[1..] == a[1..] + b;
      UpCancels(st, a[1..], seg, b);
      UpCancels(st.Pop(), a[1..], seg, b);
      UpCancels(st.Push(a[0]), a[1..], seg, b);
    }
  }

  lemma {:induction false} DotIsNothing(st: Stack, a: seq<string>, b: seq<string>)
    requires b != []
    ensures Resolve(st, a + ["."] + b) == Resolve(st, a + b)
    decreases |a|
  {
    if a == [] {
      assert a + ["."] + b == ["."] + b && a + b == b && (["."] + b)[1..] == b;
    } else {
      assert a + ["."] + b == [a[0]] + (a[1..] + ["."] + b) && a + b == [a[0]] + (a[1..] + b);
      assert (a + ["."] + b)[1..] == a[1..] + ["."] + b && (a + b)[1..] == a[1..] + b;
      DotIsNothing(st, a[1..], b);
      DotIsNothing(st.Pop(), a[1..], b);
      DotIsNothing(st.Push(a[0]), a[1..], b);
    }
  }

  lemma {:induction false} PlainStays(st: Stack, segs: seq<string>)
    requires forall i :: 0 <= i < |segs| ==> Plain(segs[i])
    ensures Resolve(st, segs) == st.(segs := st.segs + segs)
    decreases |segs|
  {
    if segs == [] {
      assert st.segs + segs == st.segs;
    } else {
      PlainStays(st.Push(segs[0]), segs[1..]);
      assert st.segs + segs == (st.segs + [segs[0]]) + segs[1..];
    }
  }

  lemma ResolvesFromRoot(segs: seq<string>)
    requires segs != [] && SlashFree(segs)
    ensures RemoveDots(Join(segs)) == Resolve(Stack("", []), segs).Render()
  {
    SplitJoin(segs);
    RelativeStep(Join(segs));
  }

  /**
    In an absolute path a segment followed by ".." leaves no trace, nor does ".", nor does ".." at the root, each as
    long as more follows; and a path without dot segments stays as it is.
   */
  lemma DotsMeanNothingElse(a: seq<string>, seg: string, b: seq<string>)
    requires SlashFree(a) && SlashFree(b) && b != [] && Plain(seg)
    ensures RemoveDots(Join(a + [seg, ".."] + b)) == RemoveDots(Join(a + b))
    ensures RemoveDots(Join(a + ["."] + b)) == RemoveDots(Join(a + b))
    ensures RemoveDots(Join([".."] + b)) == RemoveDots(Join(b))
    ensures (forall i :: 0 <= i < |b| ==> Plain(b[i])) ==> RemoveDots(Join(b)) == Join(b)
  {
    hide RemoveDots;
    hide Join;
    hide Resolve;
    ResolvesFromRoot(a + [seg, ".."] + b);
    ResolvesFromRoot(a + ["."] + b);
    ResolvesFromRoot([".."] + b);
    ResolvesFromRoot(a + b);
    ResolvesFromRoot(b);
    UpCancels(Stack("", []), a, seg, b);
    DotIsNothing(Stack("", []), a, b);
    UpAtRoot(b);
    if forall i :: 0 <= i < |b| ==> Plain(b[i]) {
      PlainStays(Stack("", []), b);
      assert [] + b == b;
      assert "" + Join(b) == Join(b);
    }
  }

  lemma UpAtRoot(b: seq<string>)
    requires b != []
    ensures Resolve(Stack("", []), [".."] + b) == Resolve(Stack("", []), b)
  {
    assert ([".."] + b)[1..] == b;
  }
}
