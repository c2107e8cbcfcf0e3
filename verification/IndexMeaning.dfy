/**
  What the semantic index means to its callers: which rows a filter asks for, in what order they come back, and
  which chunks a document is replaced by.
 */
module IndexMeaning {
  import opened PythonText
  import opened IndexModel
  import opened IndexProofs

  // ---- the filter ---------------------------------------------------------------------------

  /** A value without the blanks around it. */
  lemma {:induction false} StripIs(s: string) returns (i: nat, j: nat)
    ensures i <= j <= |s| && Strip(s) == s[i..j]
    ensures forall n :: 0 <= n < i || j <= n < |s| ==> IsSpace(s[n])
    ensures Strip(s) != "" ==> !IsSpace(Strip(s)[0]) && !IsSpace(Strip(s)[|Strip(s)| - 1])
    decreases |s|
  {
    hide IsSpace;
    if s == [] {
      i, j := 0, 0;
    } else if IsSpace(s[0]) {
      var p, q := StripIs(s[1..]);
      i, j := p + 1, q + 1;
      assert s[1..][p..q] == s[i..j];
      forall n | 0 <= n < i || j <= n < |s| ensures IsSpace(s[n]) {
        assert n > 0 ==> s[n] == s[1..][n - 1];
      }
    } else if IsSpace(s[|s| - 1]) {
      i, j := StripIs(s[..|s| - 1]);
      assert s[..|s| - 1][i..j] == s[i..j];
      forall n | 0 <= n < i || j <= n < |s| ensures IsSpace(s[n]) {
        assert n < |s| - 1 ==> s[n] == s[..|s| - 1][n];
      }
    } else {
      i, j := 0, |s|;
      assert s[0..|s|] == s;
    }
  }

  /** The filter asks for this value of this facet. */
  predicate AsksFor(filters: map<string, string>, name: string, value: string) {
    name in filters && (name == "namespace" || name == "bucket" || name == "tier" || name == "framework")
    && value == Strip(filters[name]) && value != ""
  }

  function KeyOf(name: string): string {
    if name == "bucket" then "license_bucket" else if name == "tier" then "quality_tier" else name
  }

  /** Metadata of strings only; a missing entry is as good as an empty one. */
  predicate StringsOnly(meta: Meta) { forall key :: key in meta ==> meta[key].Text? }

  function TextAt(meta: Meta, key: string): string
    requires StringsOnly(meta)
  {
    if key in meta then meta[key].text else ""
  }

  /** The facet has this value; an untiered record is one without a tier. */
  predicate Has(meta: Meta, name: string, value: string)
    requires StringsOnly(meta)
  {
    if name == "tier" && value == "untiered" then TextAt(meta, "quality_tier") == ""
    else TextAt(meta, KeyOf(name)) == value
  }

  lemma FacetIs(name: string)
    ensures name in FACETS <==> name == "namespace" || name == "bucket" || name == "tier" || name == "framework"
    ensures name in FACETS ==> FACETS[name] == KeyOf(name)
  {
  }

  lemma EffectiveIs(filters: map<string, string>, name: string, value: string)
    ensures name in Effective(filters) && Effective(filters)[name] == value <==> AsksFor(filters, name, value)
  {
    hide Strip;
    FacetIs(name);
  }

  /**
    Vector search takes a row exactly if it is of the kind asked for, if any, and, once any facet is asked for, a
    corpus record with every value asked.
   */
  lemma MatchesExactly(r: Row, kind: Option<string>, filters: map<string, string>)
    requires StringsOnly(r.meta)
    ensures Matches(r, kind, filters) <==>
              && (kind.None? || kind.value == "" || kind.value == r.kind)
              && (forall name, value :: AsksFor(filters, name, value) ==> r.kind == "corpus" && Has(r.meta, name, value))
  {
    hide Effective;
    hide AsksFor;
    hide Has;
    hide FacetMatches;
    forall name, value ensures name in Effective(filters) && Effective(filters)[name] == value <==> AsksFor(filters, name, value) {
      EffectiveIs(filters, name, value);
    }
    forall name, value | AsksFor(filters, name, value)
      ensures name in FACETS && (FacetMatches(r.meta, name, value) <==> Has(r.meta, name, value))
    {
      AskedFacet(r.meta, filters, name, value);
    }
    if Matches(r, kind, filters) {
      forall name, value | AsksFor(filters, name, value) ensures r.kind == "corpus" && Has(r.meta, name, value) {
        assert name in Effective(filters);
      }
    }
    if forall name, value :: AsksFor(filters, name, value) ==> r.kind == "corpus" && Has(r.meta, name, value) {
      forall name | name in Effective(filters)
        ensures r.kind == "corpus" && name in FACETS && FacetMatches(r.meta, name, Effective(filters)[name])
      {
        assert AsksFor(filters, name, Effective(filters)[name]);
      }
    }
  }

  lemma AskedFacet(meta: Meta, filters: map<string, string>, name: string, value: string)
    requires StringsOnly(meta) && AsksFor(filters, name, value)
    ensures name in FACETS && (FacetMatches(meta, name, value) <==> Has(meta, name, value))
  {
    hide Strip;
    FacetIs(name);
  }

  // ---- the order ----------------------------------------------------------------------------

  /** What a search returns comes back by growing distance, each row once. */
  lemma FoundByDistance(t: Tables, order: seq<nat>, dist: nat -> real, kind: Option<string>, filters: map<string, string>, k: nat)
    requires DistanceOrder(t, order, dist)
    ensures var found := Take(Hits(t.rows, order, kind, filters), k);
            forall i, j :: 0 <= i < j < |found| ==> dist(found[i].id) <= dist(found[j].id) && found[i].id != found[j].id
  {
    hide Hits;
    HitsSorted(t.rows, order, dist, kind, filters);
    HitsDiffer(t.rows, order, kind, filters);
  }

  ghost predicate IdsDiffer(rows: seq<Row>) { forall i, j :: 0 <= i < j < |rows| ==> rows[i].id != rows[j].id }

  lemma {:induction false} HitsDiffer(rows: seq<Row>, order: seq<nat>, kind: Option<string>, filters: map<string, string>)
    requires forall i, j :: 0 <= i < j < |order| ==> order[i] != order[j]
    ensures forall r :: r in Hits(rows, order, kind, filters) ==> r.id in order
    ensures IdsDiffer(Hits(rows, order, kind, filters))
  {
    hide Matches;
    hide IdsDiffer;
    if order == [] {
      NothingDiffers();
    } else {
      var n := |order| - 1;
      var front, r := Hits(rows, order[..n], kind, filters), RowOf(rows, order[n]);
      HitsDiffer(rows, order[..n], kind, filters);
      RowOfHasId(rows, order[n]);
      assert order == order[..n] + [order[n]];
      if r.Some? && Matches(r.value, kind, filters) {
        forall h | h in front ensures h.id != order[n] {
          var m :| 0 <= m < n && order[..n][m] == h.id;
          assert order[m] != order[n];
        }
        OneMoreDiffers(front, r.value);
      } else {
        assert front + [] == front;
      }
    }
  }

  lemma NothingDiffers()
    ensures IdsDiffer([])
  {
  }

  lemma OneMoreDiffers(rows: seq<Row>, r: Row)
    requires IdsDiffer(rows) && forall h :: h in rows ==> h.id != r.id
    ensures IdsDiffer(rows + [r])
  {
  }

  lemma {:induction false} RowOfHasId(rows: seq<Row>, id: nat)
    ensures RowOf(rows, id).Some? ==> RowOf(rows, id).value.id == id
  {
    if rows != [] {
      RowOfHasId(rows[1..], id);
    }
  }

  // ---- the chunks of a document -------------------------------------------------------------

  /** The chunks kept, by position in the document. */
  ghost predicate KeepsChunks(d: Document, dim: nat, n: nat, entries: seq<Entry>, at: seq<nat>)
    requires n <= |d.texts| == |d.vectors|
  {
    && |at| == |entries|
    && (forall i :: 0 <= i < |at| ==> at[i] < n && |d.vectors[at[i]]| == dim)
    && (forall i :: 0 <= i < |at| ==> entries[i] == Entry(at[i], d.texts[at[i]], d.vectors[at[i]], d.url, d.meta))
    && (forall i, j :: 0 <= i < j < |at| ==> at[i] < at[j])
    && forall p :: 0 <= p < n && |d.vectors[p]| == dim ==> p in at
  }

  /**
    A document comes to consist of its own texts in order, each with its vector, its url and its metadata, but for
    those whose vector has another dimension than the first.
   */
  lemma {:induction false} EntriesAre(d: Document, dim: nat, n: nat) returns (at: seq<nat>)
    requires n <= |d.texts| == |d.vectors|
    ensures KeepsChunks(d, dim, n, Entries(d, dim, n), at)
  {
    at := [];
    if n > 0 {
      at := EntriesAre(d, dim, n - 1);
      if |d.vectors[n - 1]| == dim {
        KeepsOneMore(d, dim, n, Entries(d, dim, n - 1), at);
        at := at + [n - 1];
      }
    }
  }

  lemma KeepsOneMore(d: Document, dim: nat, n: nat, entries: seq<Entry>, at: seq<nat>)
    requires 0 < n <= |d.texts| == |d.vectors| && KeepsChunks(d, dim, n - 1, entries, at) && |d.vectors[n - 1]| == dim
    ensures KeepsChunks(d, dim, n, entries + [Entry(n - 1, d.texts[n - 1], d.vectors[n - 1], d.url, d.meta)], at + [n - 1])
  {
    forall p | 0 <= p < n && |d.vectors[p]| == dim ensures p in at + [n - 1] {
      if p == n - 1 {
        assert (at + [n - 1])[|at|] == p;
      }
    }
  }

  /** With vectors of one dimension nothing is left out: the document has exactly its chunks. */
  lemma UpsertedIs(t: Tables, d: Document, fts: bool, i: nat)
    requires Valid(t, fts) && Acceptable(d) && t.dim == Some(|d.vectors[0]|)
    requires i < |d.texts| && forall j :: 0 <= j < |d.vectors| ==> |d.vectors[j]| == |d.vectors[0]|
    ensures var doc := Doc(Upserted(t, d, fts), d.kind, d.ref);
            |doc| == |d.texts| && doc[i] == Entry(i, d.texts[i], d.vectors[i], d.url, d.meta)
  {
    hide Valid;
    hide Doc;
    hide Upserted;
    UpsertedDoc(t, d, fts, d.kind, d.ref);
    AllEntries(d, |d.texts|);
  }

  lemma {:induction false} AllEntries(d: Document, n: nat)
    requires Acceptable(d) && n <= |d.texts| && forall j :: 0 <= j < |d.vectors| ==> |d.vectors[j]| == |d.vectors[0]|
    ensures var e := Entries(d, |d.vectors[0]|, n);
            |e| == n && forall i :: 0 <= i < n ==> e[i] == Entry(i, d.texts[i], d.vectors[i], d.url, d.meta)
  {
    if n > 0 {
      AllEntries(d, n - 1);
    }
  }
}
