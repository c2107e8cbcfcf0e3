/**
  The semantic index (app/vecindex.py): chunk rows, their vectors and their keyword mirror change together or
  not at all; filtered search widens its candidate prefix until it has k hits; and the two filter predicates.
 */
module IndexModel {
  import opened PythonText

  datatype Option<+T> = None | Some(value: T)

  type Vec = seq<real>

  /**
    A metadata value as JSON has it.  Any other value, a fraction, list or object, is what Python renders it to
    (nothing, if it is falsy) and the text SQL extracts, if it extracts one.
   */
  datatype Json = Null | Text(text: string) | Number(n: int) | Truth(b: bool) | Other(python: string, sql: Option<string>)

  type Meta = map<string, Json>

  /** Content hash and snippet are functions of the text. */
  datatype Row = Row(id: nat, kind: string, ref: string, url: Option<string>, index: nat, text: string, meta: Meta)

  /** `vecs` and `mirror` are keyed by row id; `dim` is the stamped dimension. */
  datatype Tables = Tables(rows: seq<Row>, vecs: map<nat, Vec>, mirror: map<nat, string>, nextId: nat, dim: Option<nat>)

  datatype Document = Document(kind: string, ref: string, url: Option<string>, texts: seq<string>, vectors: seq<Vec>, meta: Meta)

  predicate Of(r: Row, kind: string, ref: string) { r.kind == kind && r.ref == ref }

  function Ids(rows: seq<Row>): set<nat> { set i | 0 <= i < |rows| :: rows[i].id }

  /** The three tables agree, and every vector has the stamped dimension. */
  ghost predicate Valid(t: Tables, fts: bool) {
    && (forall i, j :: 0 <= i < j < |t.rows| ==> t.rows[i].id < t.rows[j].id)
    && (forall i :: 0 <= i < |t.rows| ==> t.rows[i].id < t.nextId)
    && t.vecs.Keys == Ids(t.rows)
    && (forall id :: id in t.vecs ==> t.dim == Some(|t.vecs[id]|))
    && (fts ==> t.mirror.Keys == Ids(t.rows) && forall i :: 0 <= i < |t.rows| ==> t.mirror[t.rows[i].id] == t.rows[i].text)
  }

  // ---- upsert ----

  function Others(rows: seq<Row>, kind: string, ref: string): seq<Row> {
    if rows == [] then []
    else Others(rows[..|rows| - 1], kind, ref) + (if Of(rows[|rows| - 1], kind, ref) then [] else [rows[|rows| - 1]])
  }

  function Mine(rows: seq<Row>, kind: string, ref: string): seq<Row> {
    if rows == [] then []
    else Mine(rows[..|rows| - 1], kind, ref) + (if Of(rows[|rows| - 1], kind, ref) then [rows[|rows| - 1]] else [])
  }

  function Removed(t: Tables, kind: string, ref: string, fts: bool): Tables {
    var gone := Ids(Mine(t.rows, kind, ref));
    t.(rows := Others(t.rows, kind, ref), vecs := t.vecs - gone, mirror := if fts then t.mirror - gone else t.mirror)
  }

  function Inserted(t: Tables, d: Document, i: nat, fts: bool): Tables
    requires i < |d.texts| == |d.vectors|
  {
    var r := Row(t.nextId, d.kind, d.ref, d.url, i, d.texts[i], d.meta);
    t.(rows := t.rows + [r], vecs := t.vecs[r.id := d.vectors[i]],
       mirror := if fts then t.mirror[r.id := r.text] else t.mirror, nextId := t.nextId + 1)
  }

  function InsertedUpTo(t: Tables, d: Document, dim: nat, n: nat, fts: bool): Tables
    requires n <= |d.texts| == |d.vectors|
  {
    if n == 0 then t
    else
      var t1 := InsertedUpTo(t, d, dim, n - 1, fts);
      if |d.vectors[n - 1]| != dim then t1 else Inserted(t1, d, n - 1, fts)
  }

  predicate Acceptable(d: Document) { d.texts != [] && d.vectors != [] && |d.texts| == |d.vectors| }

  function Upserted(t: Tables, d: Document, fts: bool): Tables
    requires Acceptable(d)
  {
    InsertedUpTo(Removed(t, d.kind, d.ref, fts), d, |d.vectors[0]|, |d.texts|, fts)
  }

  // ---- what the index means: a map from documents to their chunks ----

  datatype Entry = Entry(index: nat, text: string, vec: Vec, url: Option<string>, meta: Meta)

  function Contents(t: Tables, rows: seq<Row>, kind: string, ref: string): seq<Entry> {
    if rows == [] then []
    else
      var r := rows[|rows| - 1];
      Contents(t, rows[..|rows| - 1], kind, ref) +
      (if Of(r, kind, ref) && r.id in t.vecs then [Entry(r.index, r.text, t.vecs[r.id], r.url, r.meta)] else [])
  }

  function Doc(t: Tables, kind: string, ref: string): seq<Entry> { Contents(t, t.rows, kind, ref) }

  /** What a document's chunks are to be: its texts in order, without those whose vector has another dimension. */
  function Entries(d: Document, dim: nat, n: nat): seq<Entry>
    requires n <= |d.texts| == |d.vectors|
  {
    if n == 0 then []
    else
      Entries(d, dim, n - 1) +
      (if |d.vectors[n - 1]| != dim then [] else [Entry(n - 1, d.texts[n - 1], d.vectors[n - 1], d.url, d.meta)])
  }

  // ---- filters ----

  const FACETS: map<string, string> := map[
    "namespace" := "namespace", "bucket" := "license_bucket", "tier" := "quality_tier", "framework" := "framework"]

  function Strip(s: string): string
    decreases |s|
  {
    if s == [] then s
    else if IsSpace(s[0]) then Strip(s[1..])
    else if IsSpace(s[|s| - 1]) then Strip(s[..|s| - 1])
    else s
  }

  /** Only known facets with a value. */
  function Effective(filters: map<string, string>): map<string, string> {
    map name | name in filters && name in FACETS && Strip(filters[name]) != "" :: Strip(filters[name])
  }

  predicate Given(kind: Option<string>) { kind.Some? && kind.value != "" }

  function Digits(n: nat): string {
    if n < 10 then ["0123456789"[n]] else Digits(n / 10) + ["0123456789"[n % 10]]
  }

  /** str(value or ""): a falsy value renders as nothing. */
  function Rendered(v: Json): string {
    match v
    case Null => ""
    case Text(s) => s
    case Number(n) => if n == 0 then "" else if n < 0 then "-" + Digits(-n) else Digits(n)
    case Truth(b) => if b then "True" else ""
    case Other(python, _) => python
  }

  function SqlText(v: Json): Option<string> {
    match v
    case Text(s) => Some(s)
    case Other(_, sql) => sql
    case _ => None
  }

  /** What a facet is compared with: nothing at all for an untiered tier. */
  function Target(name: string, value: string): string { if name == "tier" && value == "untiered" then "" else value }

  function Lookup(meta: Meta, key: string): Json { if key in meta then meta[key] else Null }

  predicate FacetMatches(meta: Meta, name: string, value: string)
    requires name in FACETS
  {
    Rendered(Lookup(meta, FACETS[name])) == Target(name, value)
  }

  /** json_extract(...) = ? against a text parameter: only a value that SQL extracts as text can equal it. */
  predicate FacetSelected(meta: Meta, name: string, value: string)
    requires name in FACETS
  {
    var actual := Lookup(meta, FACETS[name]);
    SqlText(actual) == Some(Target(name, value)) || (name == "tier" && value == "untiered" && actual.Null?)
  }

  predicate EffectiveMatches(meta: Meta, filters: map<string, string>) {
    forall name :: name in Effective(filters) ==> FacetMatches(meta, name, Effective(filters)[name])
  }

  /** _matches_filters, the predicate of vector search. */
  predicate Matches(r: Row, kind: Option<string>, filters: map<string, string>) {
    && (Given(kind) ==> r.kind == kind.value)
    && (Effective(filters) != map[] ==> r.kind == "corpus")
    && EffectiveMatches(r.meta, filters)
  }

  /** _filter_sql, the predicate of keyword search. */
  predicate Selected(r: Row, kind: Option<string>, filters: map<string, string>) {
    && (Given(kind) ==> r.kind == kind.value)
    && (!Given(kind) && Effective(filters) != map[] ==> r.kind == "corpus")
    && forall name :: name in Effective(filters) ==> FacetSelected(r.meta, name, Effective(filters)[name])
  }

  predicate Filtering(kind: Option<string>, filters: map<string, string>) { Given(kind) || filters != map[] }

  // ---- search ----

  /** One exact order of all the vectors by distance from the query; a KNN answer is a prefix of it. */
  ghost predicate DistanceOrder(t: Tables, order: seq<nat>, dist: nat -> real) {
    && (forall i, j :: 0 <= i < j < |order| ==> order[i] != order[j] && dist(order[i]) <= dist(order[j]))
    && (forall id :: id in t.vecs <==> id in order)
    && |order| == |t.rows|
  }

  function RowOf(rows: seq<Row>, id: nat): Option<Row> {
    if rows == [] then None else if rows[0].id == id then Some(rows[0]) else RowOf(rows[1..], id)
  }

  /** The rows of the order that satisfy the filter, in order. */
  function Hits(rows: seq<Row>, order: seq<nat>, kind: Option<string>, filters: map<string, string>): seq<Row> {
    if order == [] then []
    else
      var r := RowOf(rows, order[|order| - 1]);
      Hits(rows, order[..|order| - 1], kind, filters) +
      (if r.Some? && Matches(r.value, kind, filters) then [r.value] else [])
  }

  function Min(a: int, b: int): int { if a < b then a else b }

  function Max(a: int, b: int): int { if a < b then b else a }

  function Take<T>(s: seq<T>, n: int): seq<T>
    requires n >= 0
  {
    s[..Min(n, |s|)]
  }

  datatype Turn = Return(found: seq<Row>) | Widen(candidates: nat)

  /** One turn of the loop over a KNN answer: enough hits, or nothing left to widen to, or twice the candidates. */
  function Round(rows: seq<Row>, order: seq<nat>, kind: Option<string>, k: int, filters: map<string, string>, candidates: nat): (t: Turn)
    requires candidates <= |order|
    ensures t.Widen? ==> t.candidates <= |order|
  {
    var hits := Hits(rows, order[..candidates], kind, filters);
    if |hits| >= Max(1, k) then Return(Take(hits, Max(1, k)))
    else if candidates >= |order| then Return(hits)
    else Widen(Min(|order|, candidates * 2))
  }

  /**
    What at most n turns come to, None if the loop still runs.  `fault` counts the KNN queries that succeed before
    one raises (negative: none does); a negative candidate count raises at once.
   */
  function Rounds(rows: seq<Row>, order: seq<nat>, kind: Option<string>, k: int, filters: map<string, string>, candidates: int,
                  fault: int, n: nat): Option<seq<Row>>
    requires candidates <= |order|
    decreases n
  {
    if n == 0 then None
    else if candidates < 0 || fault == 0 then Some([])
    else
      match Round(rows, order, kind, k, filters, candidates)
      case Return(found) => Some(found)
      case Widen(more) => Rounds(rows, order, kind, k, filters, more, if fault < 0 then fault else fault - 1, n - 1)
  }

  function Candidates(total: nat, kind: Option<string>, k: int, filters: map<string, string>): int {
    if Filtering(kind, filters) then Min(total, Max(k * 10, 50)) else Min(total, k)
  }

  /** The whole search, watched for n turns. */
  function Searched(t: Tables, queryDim: nat, order: seq<nat>, kind: Option<string>, k: int, filters: map<string, string>,
                    fault: int, n: nat): Option<seq<Row>>
    requires |order| == |t.rows|
  {
    if t.dim != Some(queryDim) || t.rows == [] then Some([])
    else Rounds(t.rows, order, kind, k, filters, Candidates(|order|, kind, k, filters), fault, n)
  }
}

module IndexProofs {
  import opened IndexModel

  // ---- the tables agree after every upsert ----

  ghost predicate Ordered(rows: seq<Row>) { forall i, j :: 0 <= i < j < |rows| ==> rows[i].id < rows[j].id }

  lemma {:induction false} OthersAndMine(rows: seq<Row>, kind: string, ref: string)
    ensures forall r :: r in Others(rows, kind, ref) <==> r in rows && !Of(r, kind, ref)
    ensures forall r :: r in Mine(rows, kind, ref) <==> r in rows && Of(r, kind, ref)
  {
    hide Of;
    if rows != [] {
      OthersAndMine(rows[..|rows| - 1], kind, ref);
      assert rows == rows[..|rows| - 1] + [rows[|rows| - 1]];
    }
  }

  lemma {:induction false} OthersOrdered(rows: seq<Row>, kind: string, ref: string)
    requires Ordered(rows)
    ensures Ordered(Others(rows, kind, ref))
  {
    hide Of;
    if rows != [] {
      var front := rows[..|rows| - 1];
      OthersOrdered(front, kind, ref);
      OthersAndMine(front, kind, ref);
      forall i | 0 <= i < |Others(front, kind, ref)| ensures Others(front, kind, ref)[i].id < rows[|rows| - 1].id {
        assert Others(front, kind, ref)[i] in front;
      }
    }
  }

  lemma LastIdIsNew(rows: seq<Row>)
    requires Ordered(rows) && rows != []
    ensures Ordered(rows[..|rows| - 1]) && rows[|rows| - 1].id !in Ids(rows[..|rows| - 1])
    ensures Ids(rows) == Ids(rows[..|rows| - 1]) + {rows[|rows| - 1].id}
  {
    IdsAppend(rows[..|rows| - 1], rows[|rows| - 1]);
    assert rows == rows[..|rows| - 1] + [rows[|rows| - 1]];
  }

  lemma {:induction false} IdsSplit(rows: seq<Row>, kind: string, ref: string)
    requires Ordered(rows)
    ensures Ids(Others(rows, kind, ref)) == Ids(rows) - Ids(Mine(rows, kind, ref))
    ensures Ids(Mine(rows, kind, ref)) <= Ids(rows)
  {
    hide Ids;
    hide Of;
    hide Ordered;
    if rows == [] {
      NoIds();
    } else {
      var front, r := rows[..|rows| - 1], rows[|rows| - 1];
      LastIdIsNew(rows);
      IdsSplit(front, kind, ref);
      IdsAppend(Others(front, kind, ref), r);
      IdsAppend(Mine(front, kind, ref), r);
      assert Others(front, kind, ref) + [] == Others(front, kind, ref);
      assert Mine(front, kind, ref) + [] == Mine(front, kind, ref);
    }
  }

  lemma NoIds()
    ensures Ids([]) == {}
  {
  }

  lemma IdsAreRows(rows: seq<Row>)
    ensures forall id :: id in Ids(rows) <==> exists r :: r in rows && r.id == id
  {
    forall id | id in Ids(rows) ensures exists r :: r in rows && r.id == id {
      var i :| 0 <= i < |rows| && rows[i].id == id;
      assert rows[i] in rows;
    }
  }

  lemma IdsUnique(rows: seq<Row>, a: Row, b: Row)
    requires forall i, j :: 0 <= i < j < |rows| ==> rows[i].id < rows[j].id
    requires a in rows && b in rows && a.id == b.id
    ensures a == b
  {
  }

  lemma RemovedValid(t: Tables, kind: string, ref: string, fts: bool)
    requires Valid(t, fts)
    ensures Valid(Removed(t, kind, ref, fts), fts)
  {
    hide Others;
    hide Mine;
    hide Ids;
    var t1 := Removed(t, kind, ref, fts);
    OthersAndMine(t.rows, kind, ref);
    OthersOrdered(t.rows, kind, ref);
    IdsSplit(t.rows, kind, ref);
    RowIds(t1.rows);
    forall i | 0 <= i < |t1.rows| ensures t1.rows[i] in t.rows && t1.rows[i].id in Ids(t1.rows) {
      assert t1.rows[i] in t1.rows;
    }
  }

  lemma RowIds(rows: seq<Row>)
    ensures forall i :: 0 <= i < |rows| ==> rows[i].id in Ids(rows)
  {
  }

  lemma IdsAppend(rows: seq<Row>, r: Row)
    ensures Ids(rows + [r]) == Ids(rows) + {r.id}
  {
    assert (rows + [r])[|rows|] == r;
    forall id | id in Ids(rows) ensures id in Ids(rows + [r]) {
      var i :| 0 <= i < |rows| && rows[i].id == id;
      assert (rows + [r])[i] == rows[i];
    }
  }

  lemma InsertedValid(t: Tables, d: Document, i: nat, fts: bool)
    requires Valid(t, fts) && i < |d.texts| == |d.vectors| && t.dim == Some(|d.vectors[i]|)
    ensures Valid(Inserted(t, d, i, fts), fts)
  {
    hide Ids;
    IdsBelow(t, fts);
    IdsAppend(t.rows, Row(t.nextId, d.kind, d.ref, d.url, i, d.texts[i], d.meta));
  }

  lemma IdsBelow(t: Tables, fts: bool)
    requires Valid(t, fts)
    ensures t.nextId !in Ids(t.rows)
    ensures forall i :: 0 <= i < |t.rows| ==> t.rows[i].id in Ids(t.rows)
  {
  }

  lemma {:induction false} InsertedUpToValid(t: Tables, d: Document, dim: nat, n: nat, fts: bool)
    requires Valid(t, fts) && n <= |d.texts| == |d.vectors| && t.dim == Some(dim)
    ensures Valid(InsertedUpTo(t, d, dim, n, fts), fts) && InsertedUpTo(t, d, dim, n, fts).dim == Some(dim)
  {
    hide Valid;
    if n > 0 {
      InsertedUpToValid(t, d, dim, n - 1, fts);
      if |d.vectors[n - 1]| == dim {
        InsertedValid(InsertedUpTo(t, d, dim, n - 1, fts), d, n - 1, fts);
      }
    }
  }

  lemma UpsertedValid(t: Tables, d: Document, fts: bool)
    requires Valid(t, fts) && Acceptable(d) && t.dim == Some(|d.vectors[0]|)
    ensures Valid(Upserted(t, d, fts), fts)
  {
    hide Valid;
    RemovedValid(t, d.kind, d.ref, fts);
    InsertedUpToValid(Removed(t, d.kind, d.ref, fts), d, |d.vectors[0]|, |d.texts|, fts);
  }

  // ---- the index refines a map from documents to chunks ----

  lemma {:induction false} ContentsSame(t: Tables, t1: Tables, rows: seq<Row>, kind: string, ref: string)
    requires forall r :: r in rows && Of(r, kind, ref) ==>
               (r.id in t.vecs <==> r.id in t1.vecs) && (r.id in t.vecs ==> t.vecs[r.id] == t1.vecs[r.id])
    ensures Contents(t, rows, kind, ref) == Contents(t1, rows, kind, ref)
  {
    if rows != [] {
      ContentsSame(t, t1, rows[..|rows| - 1], kind, ref);
    }
  }

  lemma {:induction false} ContentsOfOthers(t: Tables, rows: seq<Row>, kind: string, ref: string, k2: string, r2: string)
    ensures Contents(t, Others(rows, kind, ref), k2, r2)
            == if (k2, r2) == (kind, ref) then [] else Contents(t, rows, k2, r2)
  {
    if rows != [] {
      var front, r := rows[..|rows| - 1], rows[|rows| - 1];
      ContentsOfOthers(t, front, kind, ref, k2, r2);
      if !Of(r, kind, ref) {
        assert (Others(front, kind, ref) + [r])[..|Others(front, kind, ref)|] == Others(front, kind, ref);
      } else {
        assert Others(rows, kind, ref) == Others(front, kind, ref);
      }
    }
  }

  lemma RemovedDoc(t: Tables, kind: string, ref: string, fts: bool, k2: string, r2: string)
    requires Valid(t, fts)
    ensures Doc(Removed(t, kind, ref, fts), k2, r2) == if (k2, r2) == (kind, ref) then [] else Doc(t, k2, r2)
  {
    hide Others;
    hide Mine;
    hide Contents;
    var t1 := Removed(t, kind, ref, fts);
    ContentsOfOthers(t, t.rows, kind, ref, k2, r2);
    OthersAndMine(t.rows, kind, ref);
    forall r | r in t1.rows ensures r.id in t1.vecs <==> r.id in t.vecs {
      if r.id in Ids(Mine(t.rows, kind, ref)) {
        var i :| 0 <= i < |Mine(t.rows, kind, ref)| && Mine(t.rows, kind, ref)[i].id == r.id;
        assert Mine(t.rows, kind, ref)[i] in Mine(t.rows, kind, ref);
        IdsUnique(t.rows, r, Mine(t.rows, kind, ref)[i]);
      }
    }
    ContentsSame(t, t1, t1.rows, k2, r2);
  }

  lemma InsertedDoc(t: Tables, d: Document, i: nat, fts: bool, k2: string, r2: string)
    requires Valid(t, fts) && i < |d.texts| == |d.vectors|
    ensures Doc(Inserted(t, d, i, fts), k2, r2)
            == Doc(t, k2, r2) + (if (k2, r2) == (d.kind, d.ref) then [Entry(i, d.texts[i], d.vectors[i], d.url, d.meta)] else [])
  {
    hide Valid;
    hide Ids;
    var t1 := Inserted(t, d, i, fts);
    IdsBelow(t, fts);
    assert t1.rows[..|t.rows|] == t.rows;
    ContentsSame(t, t1, t.rows, k2, r2);
  }

  lemma {:induction false} InsertedUpToDoc(t: Tables, d: Document, dim: nat, n: nat, fts: bool, k2: string, r2: string)
    requires Valid(t, fts) && n <= |d.texts| == |d.vectors| && t.dim == Some(dim)
    ensures Doc(InsertedUpTo(t, d, dim, n, fts), k2, r2)
            == Doc(t, k2, r2) + (if (k2, r2) == (d.kind, d.ref) then Entries(d, dim, n) else [])
  {
    hide Valid;
    hide Doc;
    hide Inserted;
    if n > 0 {
      InsertedUpToDoc(t, d, dim, n - 1, fts, k2, r2);
      InsertedUpToValid(t, d, dim, n - 1, fts);
      if |d.vectors[n - 1]| == dim {
        InsertedDoc(InsertedUpTo(t, d, dim, n - 1, fts), d, n - 1, fts, k2, r2);
      }
    }
  }

  /** An upsert replaces the document by its new chunks, at least one, and touches no other document. */
  lemma UpsertedDoc(t: Tables, d: Document, fts: bool, k2: string, r2: string)
    requires Valid(t, fts) && Acceptable(d) && t.dim == Some(|d.vectors[0]|)
    ensures Doc(Upserted(t, d, fts), k2, r2)
            == if (k2, r2) == (d.kind, d.ref) then Entries(d, |d.vectors[0]|, |d.texts|) else Doc(t, k2, r2)
    ensures |Entries(d, |d.vectors[0]|, |d.texts|)| >= 1
  {
    hide Valid;
    hide Doc;
    RemovedValid(t, d.kind, d.ref, fts);
    RemovedDoc(t, d.kind, d.ref, fts, k2, r2);
    InsertedUpToDoc(Removed(t, d.kind, d.ref, fts), d, |d.vectors[0]|, |d.texts|, fts, k2, r2);
    SomeEntry(d, |d.texts|);
  }

  lemma {:induction false} SomeEntry(d: Document, n: nat)
    requires Acceptable(d) && 1 <= n <= |d.texts|
    ensures |Entries(d, |d.vectors[0]|, n)| >= 1
  {
    if n > 1 {
      SomeEntry(d, n - 1);
    }
  }

  // ---- filtered search ----

  lemma {:induction false} RowFound(rows: seq<Row>, id: nat)
    ensures RowOf(rows, id).Some? <==> id in Ids(rows)
    ensures RowOf(rows, id).Some? ==> RowOf(rows, id).value in rows && RowOf(rows, id).value.id == id
  {
    if rows != [] && rows[0].id != id {
      RowFound(rows[1..], id);
      if id in Ids(rows) {
        var i :| 0 <= i < |rows| && rows[i].id == id;
        assert rows[1..][i - 1].id == id;
      }
      if id in Ids(rows[1..]) {
        var i :| 0 <= i < |rows[1..]| && rows[1..][i].id == id;
        assert rows[i + 1].id == id;
      }
    }
  }

  lemma {:induction false} HitsPrefix(rows: seq<Row>, order: seq<nat>, n: nat, kind: Option<string>, filters: map<string, string>)
    requires n <= |order|
    ensures Hits(rows, order[..n], kind, filters) <= Hits(rows, order, kind, filters)
    decreases |order|
  {
    if n < |order| {
      assert order[..|order| - 1][..n] == order[..n];
      HitsPrefix(rows, order[..|order| - 1], n, kind, filters);
    } else {
      assert order[..n] == order;
    }
  }

  /** Hits are exactly the rows of the index that satisfy the filter. */
  lemma {:induction false} HitsComplete(rows: seq<Row>, order: seq<nat>, kind: Option<string>, filters: map<string, string>)
    ensures forall r :: r in Hits(rows, order, kind, filters) ==> r in rows && r.id in order && Matches(r, kind, filters)
    ensures forall id :: id in order && RowOf(rows, id).Some? && Matches(RowOf(rows, id).value, kind, filters) ==>
              RowOf(rows, id).value in Hits(rows, order, kind, filters)
  {
    hide Matches;
    if order != [] {
      var last := order[|order| - 1];
      HitsComplete(rows, order[..|order| - 1], kind, filters);
      RowFound(rows, last);
      assert order == order[..|order| - 1] + [last];
    }
  }

  lemma {:induction false} HitsSorted(rows: seq<Row>, order: seq<nat>, dist: nat -> real, kind: Option<string>, filters: map<string, string>)
    requires forall i, j :: 0 <= i < j < |order| ==> dist(order[i]) <= dist(order[j])
    ensures forall i, j :: 0 <= i < j < |Hits(rows, order, kind, filters)| ==>
              dist(Hits(rows, order, kind, filters)[i].id) <= dist(Hits(rows, order, kind, filters)[j].id)
  {
    hide Matches;
    if order != [] {
      var front := order[..|order| - 1];
      HitsSorted(rows, front, dist, kind, filters);
      HitsComplete(rows, front, kind, filters);
      RowFound(rows, order[|order| - 1]);
      forall r | r in Hits(rows, front, kind, filters) ensures dist(r.id) <= dist(order[|order| - 1]) {
        var i :| 0 <= i < |front| && front[i] == r.id;
        assert front[i] == order[i];
      }
    }
  }

  /** The first k hits are the k nearest matching rows: whatever matches and is left out is no nearer. */
  lemma NearestFirst(t: Tables, fts: bool, order: seq<nat>, dist: nat -> real, kind: Option<string>, filters: map<string, string>, k: nat)
    requires Valid(t, fts) && DistanceOrder(t, order, dist)
    ensures var found := Take(Hits(t.rows, order, kind, filters), k);
            && (forall r :: r in found ==> r in t.rows && Matches(r, kind, filters))
            && (|found| < k ==> forall r :: r in t.rows && Matches(r, kind, filters) ==> r in found)
            && forall r, s :: r in found && s in t.rows && Matches(s, kind, filters) && s !in found ==> dist(r.id) <= dist(s.id)
  {
    hide Matches;
    hide Hits;
    hide Valid;
    var hits := Hits(t.rows, order, kind, filters);
    HitsComplete(t.rows, order, kind, filters);
    HitsSorted(t.rows, order, dist, kind, filters);
    forall s | s in t.rows && Matches(s, kind, filters) ensures s in hits {
      RowsAreFound(t, fts, s);
    }
    forall r, s | r in Take(hits, k) && s in hits && s !in Take(hits, k) ensures dist(r.id) <= dist(s.id) {
      TakenIsNearer(hits, dist, k, r, s);
    }
  }

  lemma TakenIsNearer(hits: seq<Row>, dist: nat -> real, k: nat, r: Row, s: Row)
    requires forall i, j :: 0 <= i < j < |hits| ==> dist(hits[i].id) <= dist(hits[j].id)
    requires r in Take(hits, k) && s in hits && s !in Take(hits, k)
    ensures dist(r.id) <= dist(s.id)
  {
    var taken := Take(hits, k);
    var i :| 0 <= i < |taken| && taken[i] == r;
    var j :| 0 <= j < |hits| && hits[j] == s;
    assert forall l :: 0 <= l < |taken| ==> taken[l] == hits[l] && taken[l] in taken;
  }

  /** A full take from a prefix is a take from the whole. */
  lemma TakeFromPrefix<T>(front: seq<T>, whole: seq<T>, n: nat)
    requires front <= whole && |front| >= n
    ensures Take(front, n) == Take(whole, n)
  {
    assert front == whole[..|front|];
  }

  lemma RowsAreFound(t: Tables, fts: bool, s: Row)
    requires Valid(t, fts) && s in t.rows
    ensures s.id in t.vecs && RowOf(t.rows, s.id) == Some(s)
  {
    IdsAreRows(t.rows);
    RowFound(t.rows, s.id);
    IdsUnique(t.rows, s, RowOf(t.rows, s.id).value);
  }

  // ---- the two filter predicates ----

  predicate TextMeta(meta: Meta) { forall key :: key in meta ==> meta[key].Null? || meta[key].Text? }

  function FacetValue(filters: map<string, string>, name: string): Json {
    if name !in filters || (name == "tier" && filters[name] == "untiered") then Null else Text(filters[name])
  }

  function Satisfying(filters: map<string, string>): Meta {
    map["namespace" := FacetValue(filters, "namespace"), "license_bucket" := FacetValue(filters, "bucket"),
        "quality_tier" := FacetValue(filters, "tier"), "framework" := FacetValue(filters, "framework")]
  }

  lemma SameFacets(r: Row, filters: map<string, string>)
    requires TextMeta(r.meta)
    ensures EffectiveMatches(r.meta, filters) <==>
            forall name :: name in Effective(filters) ==> FacetSelected(r.meta, name, Effective(filters)[name])
  {
    hide Strip;
    forall name | name in Effective(filters)
      ensures FacetMatches(r.meta, name, Effective(filters)[name]) == FacetSelected(r.meta, name, Effective(filters)[name])
    {
      EffectiveHasValue(filters, name);
    }
  }

  lemma EffectiveHasValue(filters: map<string, string>, name: string)
    requires name in Effective(filters)
    ensures name in FACETS && Effective(filters)[name] != ""
  {
  }

  /**
    Vector search and keyword search filter alike, on rows whose metadata are strings, exactly when there
    is no effective filter, or no kind, or the kind is corpus.
   */
  lemma FiltersAgree(kind: Option<string>, filters: map<string, string>)
    ensures (forall r: Row | TextMeta(r.meta) :: Matches(r, kind, filters) == Selected(r, kind, filters))
            <==> Effective(filters) == map[] || !Given(kind) || kind.value == "corpus"
  {
    hide Effective;
    if Effective(filters) == map[] || !Given(kind) || kind.value == "corpus" {
      forall r: Row | TextMeta(r.meta) ensures Matches(r, kind, filters) == Selected(r, kind, filters) {
        SameFacets(r, filters);
      }
    } else {
      var r := Row(0, kind.value, "", None, 0, "", Satisfying(Effective(filters)));
      SatisfyingSelected(filters);
      assert Selected(r, kind, filters) && !Matches(r, kind, filters);
    }
  }

  lemma SatisfyingSelected(filters: map<string, string>)
    ensures TextMeta(Satisfying(Effective(filters)))
    ensures forall name :: name in Effective(filters) ==>
              name in FACETS && FacetSelected(Satisfying(Effective(filters)), name, Effective(filters)[name])
  {
    hide Strip;
  }

  /** Python renders the value to the target, and SQL does not extract it as text. */
  predicate PythonOnly(v: Json, target: string) { !v.Null? && Rendered(v) == target && SqlText(v) != Some(target) }

  predicate SqlOnly(v: Json, target: string) { v.Other? && v.sql == Some(target) && v.python != target }

  lemma FacetsDiffer(meta: Meta, name: string, value: string)
    requires name in FACETS && value != ""
    ensures var v := Lookup(meta, FACETS[name]);
            && (FacetMatches(meta, name, value) && !FacetSelected(meta, name, value) <==> PythonOnly(v, Target(name, value)))
            && (!FacetMatches(meta, name, value) && FacetSelected(meta, name, value) <==> SqlOnly(v, Target(name, value)))
  {
  }

  /** A facet value as the row has it, and what it is compared with. */
  function ValueOf(r: Row, name: string): Json
    requires name in FACETS
  {
    Lookup(r.meta, FACETS[name])
  }

  function TargetOf(filters: map<string, string>, name: string): string
    requires name in Effective(filters)
  {
    Target(name, Effective(filters)[name])
  }

  /**
    On any row whatever the two predicates differ exactly when vector search takes a row with a facet value that only
    Python renders to what is asked, or keyword search takes one with a value that only SQL extracts as that, or a
    row that is no corpus record for a facet.
   */
  lemma DifferIff(r: Row, kind: Option<string>, filters: map<string, string>)
    ensures Matches(r, kind, filters) != Selected(r, kind, filters) <==>
            || (Matches(r, kind, filters) && exists name :: name in Effective(filters) && PythonOnly(ValueOf(r, name), TargetOf(filters, name)))
            || (Selected(r, kind, filters) &&
                ((Effective(filters) != map[] && r.kind != "corpus")
                 || exists name :: name in Effective(filters) && SqlOnly(ValueOf(r, name), TargetOf(filters, name))))
  {
    hide Strip;
    hide FacetMatches;
    hide FacetSelected;
    hide PythonOnly;
    hide SqlOnly;
    forall name | name in Effective(filters)
      ensures var v, t := ValueOf(r, name), TargetOf(filters, name);
              && (FacetMatches(r.meta, name, Effective(filters)[name]) && !FacetSelected(r.meta, name, Effective(filters)[name])
                  <==> PythonOnly(v, t))
              && (!FacetMatches(r.meta, name, Effective(filters)[name]) && FacetSelected(r.meta, name, Effective(filters)[name])
                  <==> SqlOnly(v, t))
    {
      EffectiveHasValue(filters, name);
      FacetsDiffer(r.meta, name, Effective(filters)[name]);
    }
  }

  /** A fraction and a list: 1.5 is a number to SQL; a list renders with other quotes in each. */
  lemma FractionsAndListsDisagree(name: string, kind: Option<string>, filters: map<string, string>)
    requires name in FACETS && !Given(kind)
    ensures var r := Row(0, "corpus", "", None, 0, "", map[FACETS[name] := Other("1.5", None)]);
            Effective(filters) == map[name := "1.5"] ==> Matches(r, kind, filters) && !Selected(r, kind, filters)
    ensures var list := Other("['a']", Some("[\"a\"]"));
            var r := Row(0, "corpus", "", None, 0, "", map[FACETS[name] := list]);
            && (Effective(filters) == map[name := "['a']"] ==> Matches(r, kind, filters) && !Selected(r, kind, filters))
            && (Effective(filters) == map[name := "[\"a\"]"] ==> !Matches(r, kind, filters) && Selected(r, kind, filters))
  {
    hide Effective;
    var e := Effective(filters);
    assert e == map[name := "1.5"] ==> name in e;
    assert e == map[name := "['a']"] ==> name in e;
    assert e == map[name := "[\"a\"]"] ==> name in e;
  }

  predicate IsNumeral(v: string) { v != "" && v[0] != '0' && forall i :: 0 <= i < |v| ==> '0' <= v[i] <= '9' }

  /** A facet value that a number or a truth value renders to. */
  predicate Renders(v: string) { v == "True" || IsNumeral(v) || (v != "" && v[0] == '-' && IsNumeral(v[1..])) }

  predicate Ambiguous(name: string, value: string) { (name == "tier" && value == "untiered") || Renders(value) }

  lemma {:induction false} DigitsAreNumeral(n: nat)
    requires n > 0
    ensures IsNumeral(Digits(n))
  {
    if n >= 10 {
      DigitsAreNumeral(n / 10);
    }
  }

  lemma {:induction false} NumeralHasValue(v: string) returns (n: nat)
    requires IsNumeral(v)
    ensures n > 0 && Digits(n) == v
  {
    var d := (v[|v| - 1] - '0') as nat;
    assert "0123456789"[d] == v[|v| - 1];
    if |v| == 1 {
      n := d;
    } else {
      var m := NumeralHasValue(v[..|v| - 1]);
      n := 10 * m + d;
      assert v == v[..|v| - 1] + [v[|v| - 1]];
    }
  }

  predicate Plain(v: Json) { v.Number? || v.Truth? }

  /** The values a number or a truth value can render to are exactly the integer numerals, "True", and nothing. */
  lemma RendersIff(v: string)
    ensures Renders(v) <==> v != "" && exists j: Json :: Plain(j) && Rendered(j) == v
  {
    if Renders(v) {
      var j := AValue(v);
    } else if v != "" {
      forall j: Json | Plain(j) ensures Rendered(j) != v {
        if j.Number? && j.n != 0 {
          DigitsAreNumeral(if j.n < 0 then -j.n else j.n);
          assert j.n < 0 ==> Rendered(j)[1..] == Digits(-j.n);
        }
      }
    }
  }

  lemma AValue(v: string) returns (j: Json)
    requires Renders(v)
    ensures Plain(j) && Rendered(j) == v
  {
    if v == "True" {
      j := Truth(true);
    } else if IsNumeral(v) {
      var n := NumeralHasValue(v);
      j := Number(n);
    } else {
      var n: int := NumeralHasValue(v[1..]);
      j := Number(-n);
      assert v == "-" + v[1..];
    }
  }

  /** The metadata hold no fractions, lists or objects but these. */
  ghost predicate Admits(others: iset<Json>, meta: Meta) { forall key :: key in meta && meta[key].Other? ==> meta[key] in others }

  predicate Clashes(v: Json, target: string) { PythonOnly(v, target) || SqlOnly(v, target) }

  /**
    On all metadata that hold strings, integers, truth values, null, and of other values only those given, the two
    predicates agree exactly when no filter is effective, or kind is absent or corpus and no facet value is "untiered"
    for the tier, the rendering of an integer or truth value, or told apart by one of the others.
   */
  lemma FiltersAgreeOnAll(kind: Option<string>, filters: map<string, string>, others: iset<Json>)
    requires forall v :: v in others ==> v.Other?
    ensures (forall r: Row | Admits(others, r.meta) :: Matches(r, kind, filters) == Selected(r, kind, filters))
            <==> Effective(filters) == map[] || ((!Given(kind) || kind.value == "corpus") &&
                 forall name :: name in Effective(filters) ==>
                   && !Ambiguous(name, Effective(filters)[name])
                   && forall v :: v in others ==> !Clashes(v, TargetOf(filters, name)))
  {
    hide Effective;
    hide Matches;
    hide Selected;
    hide Renders;
    hide PythonOnly;
    hide SqlOnly;
    var e := Effective(filters);
    if e != map[] && Given(kind) && kind.value != "corpus" {
      FiltersAgree(kind, filters);
      var r: Row :| TextMeta(r.meta) && Matches(r, kind, filters) != Selected(r, kind, filters);
      assert Admits(others, r.meta);
    } else if name :| name in e && Ambiguous(name, e[name]) {
      var v := AmbiguousValue(filters, name);
      ClashingRow(kind, filters, name, v, others);
    } else if name, v :| name in e && v in others && Clashes(v, TargetOf(filters, name)) {
      ClashingRow(kind, filters, name, v, others);
    } else {
      forall r: Row | Admits(others, r.meta) ensures Matches(r, kind, filters) == Selected(r, kind, filters) {
        Unambiguous(r, kind, filters, others);
      }
    }
  }

  lemma Unambiguous(r: Row, kind: Option<string>, filters: map<string, string>, others: iset<Json>)
    requires Effective(filters) == map[] || !Given(kind) || kind.value == "corpus"
    requires forall name :: name in Effective(filters) ==>
               && !Ambiguous(name, Effective(filters)[name])
               && forall v :: v in others ==> !Clashes(v, TargetOf(filters, name))
    requires Admits(others, r.meta)
    ensures Matches(r, kind, filters) == Selected(r, kind, filters)
  {
    hide Strip;
    hide Renders;
    DifferIff(r, kind, filters);
    forall name | name in Effective(filters) ensures !Clashes(ValueOf(r, name), TargetOf(filters, name)) {
      EffectiveHasValue(filters, name);
      RendersIff(Effective(filters)[name]);
      assert ValueOf(r, name).Other? ==> ValueOf(r, name) in others;
    }
  }

  lemma AmbiguousValue(filters: map<string, string>, name: string) returns (v: Json)
    requires name in Effective(filters) && Ambiguous(name, Effective(filters)[name])
    ensures Plain(v) && PythonOnly(v, TargetOf(filters, name))
  {
    hide Renders;
    EffectiveHasValue(filters, name);
    if name == "tier" && Effective(filters)[name] == "untiered" {
      v := Truth(false);
    } else {
      v := AValue(Effective(filters)[name]);
    }
  }

  /** A corpus record on which they differ: its other facets are met by strings. */
  lemma ClashingRow(kind: Option<string>, filters: map<string, string>, name: string, v: Json, others: iset<Json>)
    requires name in Effective(filters) && Clashes(v, TargetOf(filters, name)) && (!Given(kind) || kind.value == "corpus")
    requires v.Other? ==> v in others
    ensures exists r: Row :: Admits(others, r.meta) && Matches(r, kind, filters) != Selected(r, kind, filters)
  {
    hide Strip;
    hide Matches;
    hide Selected;
    hide Satisfying;
    hide PythonOnly;
    hide SqlOnly;
    var e := Effective(filters);
    EffectiveHasValue(filters, name);
    var r := Row(0, "corpus", "", None, 0, "", Satisfying(e)[FACETS[name] := v]);
    SatisfyingSelected(filters);
    forall other | other in e && other != name
      ensures FacetMatches(r.meta, other, e[other]) && FacetSelected(r.meta, other, e[other])
    {
      EffectiveHasValue(filters, other);
      OtherFacet(Satisfying(e), name, v, other, e[other]);
    }
    FacetsDiffer(r.meta, name, e[name]);
    OneFacetDecides(r, kind, filters, name);
    assert Admits(others, r.meta);
  }

  lemma OtherFacet(meta: Meta, name: string, v: Json, other: string, value: string)
    requires name in FACETS && other in FACETS && name != other && value != "" && TextMeta(meta) && FacetSelected(meta, other, value)
    ensures FacetMatches(meta[FACETS[name] := v], other, value) && FacetSelected(meta[FACETS[name] := v], other, value)
  {
    assert FACETS[other] != FACETS[name];
    FacetsDiffer(meta, other, value);
  }

  lemma OneFacetDecides(r: Row, kind: Option<string>, filters: map<string, string>, name: string)
    requires name in Effective(filters) && r.kind == "corpus" && (!Given(kind) || kind.value == "corpus")
    requires forall other :: other in Effective(filters) && other != name ==>
               FacetMatches(r.meta, other, Effective(filters)[other]) && FacetSelected(r.meta, other, Effective(filters)[other])
    requires FacetMatches(r.meta, name, Effective(filters)[name]) != FacetSelected(r.meta, name, Effective(filters)[name])
    ensures Matches(r, kind, filters) != Selected(r, kind, filters)
  {
    hide Strip;
    hide FacetMatches;
    hide FacetSelected;
  }

  // ---- when the search ends, and with what ----

  lemma {:induction false} RoundsMean(rows: seq<Row>, order: seq<nat>, kind: Option<string>, k: int, filters: map<string, string>,
                                      candidates: int, fault: int, n: nat)
    requires candidates <= |order|
    ensures var found := Rounds(rows, order, kind, k, filters, candidates, fault, n);
            found.Some? ==> found.value == Take(Hits(rows, order, kind, filters), Max(1, k))
                            || (found.value == [] && (candidates < 0 || fault >= 0))
    decreases n
  {
    hide Hits;
    if n > 0 && candidates >= 0 && fault != 0 {
      HitsPrefix(rows, order, candidates, kind, filters);
      var hits, all := Hits(rows, order[..candidates], kind, filters), Hits(rows, order, kind, filters);
      if |hits| >= Max(1, k) {
        TakeFromPrefix(hits, all, Max(1, k));
      } else if candidates >= |order| {
        assert order[..candidates] == order;
      } else {
        RoundsMean(rows, order, kind, k, filters, Min(|order|, candidates * 2), if fault < 0 then fault else fault - 1, n - 1);
      }
    }
  }

  /** From one candidate on, every turn that does not return sees more rows. */
  lemma {:induction false} RoundsEnd(rows: seq<Row>, order: seq<nat>, kind: Option<string>, k: int, filters: map<string, string>,
                                     candidates: int, fault: int, n: nat)
    requires candidates <= |order| && n > 0 && (candidates >= 0 ==> n > |order| - candidates)
    requires candidates != 0 || |order| == 0
    ensures Rounds(rows, order, kind, k, filters, candidates, fault, n).Some?
    decreases n
  {
    hide Hits;
    if candidates > 0 && fault != 0 && Round(rows, order, kind, k, filters, candidates).Widen? {
      RoundsEnd(rows, order, kind, k, filters, Min(|order|, candidates * 2), if fault < 0 then fault else fault - 1, n - 1);
    }
  }

  /** A query that raises ends the search. */
  lemma {:induction false} RoundsRaise(rows: seq<Row>, order: seq<nat>, kind: Option<string>, k: int, filters: map<string, string>,
                                       candidates: int, fault: nat, n: nat)
    requires candidates <= |order| && n > fault
    ensures Rounds(rows, order, kind, k, filters, candidates, fault, n).Some?
    decreases n
  {
    hide Hits;
    if candidates >= 0 && fault > 0 && Round(rows, order, kind, k, filters, candidates).Widen? {
      RoundsRaise(rows, order, kind, k, filters, Min(|order|, candidates * 2), fault - 1, n - 1);
    }
  }

  /** No candidates: no hits, and twice none. */
  lemma {:induction false} RoundsStay(rows: seq<Row>, order: seq<nat>, kind: Option<string>, k: int, filters: map<string, string>,
                                      fault: int, n: nat)
    requires order != [] && fault < 0
    ensures Rounds(rows, order, kind, k, filters, 0, fault, n) == None
  {
    if n > 0 {
      assert Hits(rows, order[..0], kind, filters) == [];
      RoundsStay(rows, order, kind, k, filters, fault, n - 1);
    }
  }

  /** Whether the search has anything to widen from. */
  predicate Ends(t: Tables, queryDim: nat, kind: Option<string>, k: int, filters: map<string, string>, fault: int) {
    k != 0 || Filtering(kind, filters) || t.rows == [] || t.dim != Some(queryDim) || fault >= 0
  }

  /**
    The search ends if and only if k is not 0, or there is a filter, or the index is empty or of another dimension,
    or a query raises; and if it ends, within as many turns as there are rows and queries before one raises, plus one.
   */
  lemma SearchEndsIff(t: Tables, queryDim: nat, order: seq<nat>, kind: Option<string>, k: int, filters: map<string, string>, fault: int)
    requires |order| == |t.rows|
    ensures (exists n: nat :: Searched(t, queryDim, order, kind, k, filters, fault, n).Some?)
            <==> Ends(t, queryDim, kind, k, filters, fault)
    ensures Ends(t, queryDim, kind, k, filters, fault) ==>
              forall n: nat :: n > |t.rows| + Max(0, fault) ==>
                Searched(t, queryDim, order, kind, k, filters, fault, n).Some?
  {
    hide Rounds;
    var c := Candidates(|order|, kind, k, filters);
    if t.dim == Some(queryDim) && t.rows != [] {
      if Ends(t, queryDim, kind, k, filters, fault) {
        forall n: nat | n > |t.rows| + Max(0, fault)
          ensures Searched(t, queryDim, order, kind, k, filters, fault, n).Some?
        {
          if c != 0 {
            RoundsEnd(t.rows, order, kind, k, filters, c, fault, n);
          } else {
            RoundsRaise(t.rows, order, kind, k, filters, c, fault, n);
          }
        }
        assert Searched(t, queryDim, order, kind, k, filters, fault, |t.rows| + Max(0, fault) + 1).Some?;
      } else {
        forall n: nat ensures Searched(t, queryDim, order, kind, k, filters, fault, n).None? {
          RoundsStay(t.rows, order, kind, k, filters, fault, n);
        }
      }
    } else {
      assert Searched(t, queryDim, order, kind, k, filters, fault, 0).Some?;
    }
  }

  /** What it ends with: the first k matching rows; nothing if the dimension differs, a query raises, or k is negative unfiltered. */
  lemma SearchFinds(t: Tables, queryDim: nat, order: seq<nat>, kind: Option<string>, k: int, filters: map<string, string>,
                    fault: int, n: nat)
    requires |order| == |t.rows|
    ensures var found := Searched(t, queryDim, order, kind, k, filters, fault, n);
            && (t.dim != Some(queryDim) ==> found == Some([]))
            && (k < 0 && !Filtering(kind, filters) && n > 0 ==> found == Some([]))
            && (found.Some? ==> found.value == [] || found.value == Take(Hits(t.rows, order, kind, filters), Max(1, k)))
            && (found.Some? && t.dim == Some(queryDim) && fault < 0 && (k > 0 || Filtering(kind, filters)) ==>
                  found.value == Take(Hits(t.rows, order, kind, filters), Max(1, k)))
  {
    hide Hits;
    RoundsMean(t.rows, order, kind, k, filters, Candidates(|order|, kind, k, filters), fault, n);
    if t.rows == [] {
      assert order == [];
      HitsOfNothing(kind, filters);
    }
  }

  lemma HitsOfNothing(kind: Option<string>, filters: map<string, string>)
    ensures Hits([], [], kind, filters) == []
  {
  }
}

module VectorIndex {
  import opened IndexModel
  import opened IndexProofs

  class Index {
    const fts: bool
    var rows: seq<Row>
    var vecs: map<nat, Vec>
    var mirror: map<nat, string>
    var nextId: nat
    var dim: Option<nat>

    ghost function View(): Tables
      reads this
    {
      Tables(rows, vecs, mirror, nextId, dim)
    }

    constructor (fts: bool)
      ensures this.fts == fts && Valid(View(), fts) && View() == Tables([], map[], map[], 1, None)
    {
      this.fts := fts;
      rows, vecs, mirror, nextId, dim := [], map[], map[], 1, None;
    }

    /** Stamps the dimension on the first write; afterwards another dimension is refused. */
    method EnsureVecTable(d: nat) returns (ok: bool)
      modifies this`dim
      ensures ok <==> old(dim) in {None, Some(d)}
      ensures dim == if old(dim).None? then Some(d) else old(dim)
    {
      if dim.None? {
        dim := Some(d);
        return true;
      }
      ok := dim.value == d;
    }

    /** A statement raises when its turn comes; a negative fault never does. */
    static method Execute(fault: int) returns (ok: bool, left: int)
      ensures ok <==> fault != 0
      ensures left == if fault < 0 then fault else fault - 1
    {
      ok, left := fault != 0, if fault < 0 then fault else fault - 1;
    }

    method DeleteOld(kind: string, ref: string, fault: int) returns (ok: bool, left: int)
      requires Valid(View(), fts)
      modifies this`rows, this`vecs, this`mirror
      ensures ok ==> View() == Removed(old(View()), kind, ref, fts)
      ensures fault < 0 ==> ok && left < 0
    {
      hide Others;
      hide Ids;
      ok, left := true, fault;
      var gone := Mine(rows, kind, ref);
      NoIds();
      OthersAndMine(rows, kind, ref);
      for i := 0 to |gone|
        invariant rows == old(rows)
        invariant vecs == old(vecs) - Ids(gone[..i])
        invariant mirror == if fts then old(mirror) - Ids(gone[..i]) else old(mirror)
        invariant fault < 0 ==> left < 0
      {
        var r := gone[i];
        assert gone[..i + 1] == gone[..i] + [r];
        IdsAppend(gone[..i], r);
        ok, left := Execute(left);
        if !ok { return; }
        vecs := vecs - {r.id};
        if fts {
          ok, left := Execute(left);
          if !ok { return; }
          assert r in gone;
          MirroredText(old(View()), r);
          if r.id in mirror && mirror[r.id] == r.text {
            mirror := mirror - {r.id};
          }
        }
      }
      assert gone[..|gone|] == gone;
      ok, left := Execute(left);
      if ok {
        rows := Others(rows, kind, ref);
      }
    }

    method InsertNew(d: Document, dimension: nat, fault: int) returns (ok: bool, n: nat, left: int)
      requires |d.texts| == |d.vectors|
      modifies this`rows, this`vecs, this`mirror, this`nextId
      ensures ok ==> View() == InsertedUpTo(old(View()), d, dimension, |d.texts|, fts) && n == |Entries(d, dimension, |d.texts|)|
      ensures fault < 0 ==> ok && left < 0
    {
      ok, n, left := true, 0, fault;
      for i := 0 to |d.texts|
        invariant View() == InsertedUpTo(old(View()), d, dimension, i, fts) && n == |Entries(d, dimension, i)|
        invariant fault < 0 ==> left < 0
      {
        if |d.vectors[i]| == dimension {
          var r := Row(nextId, d.kind, d.ref, d.url, i, d.texts[i], d.meta);
          ok, left := Execute(left);
          if !ok { return; }
          rows, nextId := rows + [r], nextId + 1;
          ok, left := Execute(left);
          if !ok { return; }
          vecs := vecs[r.id := d.vectors[i]];
          if fts {
            ok, left := Execute(left);
            if !ok { return; }
            mirror := mirror[r.id := r.text];
          }
          n := n + 1;
        }
      }
      ok := true;
    }

    /**
      One transaction: either the document is replaced whole, or nothing changes but the stamp.  The
      statement that raises is arbitrary.
     */
    method Upsert(d: Document, fault: int) returns (n: nat)
      requires Valid(View(), fts)
      modifies this
      ensures Valid(View(), fts)
      ensures n > 0 ==> Acceptable(d) && old(dim) in {None, Some(|d.vectors[0]|)}
      ensures n > 0 ==> View() == Upserted(old(View()).(dim := Some(|d.vectors[0]|)), d, fts)
      ensures n > 0 ==> n == |Doc(View(), d.kind, d.ref)| && Doc(View(), d.kind, d.ref) == Entries(d, |d.vectors[0]|, |d.texts|)
      ensures n == 0 ==> View() == old(View()).(dim := dim) && (dim == old(dim) || (old(dim).None? && Acceptable(d)))
      ensures fault < 0 && Acceptable(d) && old(dim) in {None, Some(|d.vectors[0]|)} ==> n > 0
      ensures forall k2, r2 :: (k2, r2) != (d.kind, d.ref) ==> Doc(View(), k2, r2) == Doc(old(View()), k2, r2)
    {
      hide Valid;
      hide Contents;
      hide Removed;
      hide InsertedUpTo;
      hide Entries;
      n := 0;
      DocsIgnoreStamp(View());
      if d.texts == [] || d.vectors == [] || |d.texts| != |d.vectors| { return; }
      var dimension := |d.vectors[0]|;
      StampedValid(View(), dimension, fts);
      var ok := EnsureVecTable(dimension);
      if !ok { return; }
      var left := fault;
      ok, left := Execute(left);
      if !ok { return; }
      ghost var before := View();
      var oldRows, oldVecs, oldMirror, oldNext := rows, vecs, mirror, nextId;
      ok, left := DeleteOld(d.kind, d.ref, left);
      if ok {
        ok, n, left := InsertNew(d, dimension, left);
        if ok {
          ok, left := Execute(left);
        }
      }
      if !ok {
        rows, vecs, mirror, nextId := oldRows, oldVecs, oldMirror, oldNext;
        return 0;
      }
      UpsertedValid(before, d, fts);
      forall k2, r2 ensures Doc(Upserted(before, d, fts), k2, r2)
            == if (k2, r2) == (d.kind, d.ref) then Entries(d, |d.vectors[0]|, |d.texts|) else Doc(before, k2, r2) {
        UpsertedDoc(before, d, fts, k2, r2);
      }
      UpsertedDoc(before, d, fts, d.kind, d.ref);
    }

    /** The rows a KNN answer leads to, up to k of them. */
    method Collect(prefix: seq<nat>, kind: Option<string>, k: int, filters: map<string, string>) returns (out: seq<Row>, enough: bool)
      ensures enough ==> out == Take(Hits(rows, prefix, kind, filters), Max(1, k)) && |out| == Max(1, k)
      ensures !enough ==> out == Hits(rows, prefix, kind, filters) && |out| < Max(1, k)
    {
      hide Matches;
      hide RowOf;
      out := [];
      for i := 0 to |prefix|
        invariant out == Hits(rows, prefix[..i], kind, filters) && |out| < Max(1, k)
      {
        assert prefix[..i + 1][..i] == prefix[..i];
        HitsPrefix(rows, prefix, i + 1, kind, filters);
        var r := RowOf(rows, prefix[i]);
        if r.Some? && Matches(r.value, kind, filters) {
          out := out + [r.value];
          if |out| >= k { return out, true; }
        }
      }
      assert prefix[..|prefix|] == prefix;
      enough := false;
    }

    /**
      The widening loop, watched for `watch` turns (None: it still runs).  `fault` counts the KNN queries that
      succeed before one raises.
     */
    method Search(queryDim: nat, order: seq<nat>, ghost dist: nat -> real, kind: Option<string>, k: int,
                  filters: map<string, string>, fault: int, watch: nat) returns (found: Option<seq<Row>>)
      requires Valid(View(), fts) && DistanceOrder(View(), order, dist)
      ensures found == Searched(View(), queryDim, order, kind, k, filters, fault, watch)
      ensures watch > |rows| + Max(0, fault) ==> (found.Some? <==> Ends(View(), queryDim, kind, k, filters, fault))
      ensures dim != Some(queryDim) ==> found == Some([])
      ensures found.Some? ==> found.value == [] || found.value == Take(Hits(rows, order, kind, filters), Max(1, k))
      ensures found.Some? && dim == Some(queryDim) && fault < 0 && (k > 0 || Filtering(kind, filters)) ==>
                found.value == Take(Hits(rows, order, kind, filters), Max(1, k))
    {
      hide Valid;
      hide Hits;
      hide Ends;
      SearchEndsIff(View(), queryDim, order, kind, k, filters, fault);
      SearchFinds(View(), queryDim, order, kind, k, filters, fault, watch);
      if dim != Some(queryDim) || rows == [] {
        return Some([]);
      }
      var total := |rows|;
      var candidates := if Filtering(kind, filters) then Min(total, Max(k * 10, 50)) else Min(total, k);
      var left, turns := fault, watch;
      while turns > 0
        invariant candidates <= total
        invariant Searched(View(), queryDim, order, kind, k, filters, fault, watch)
                  == Rounds(rows, order, kind, k, filters, candidates, left, turns)
      {
        var ok;
        ok, left := Execute(left);
        if !ok || candidates < 0 { return Some([]); }
        var out, enough := Collect(order[..candidates], kind, k, filters);
        if enough || candidates >= total {
          return Some(out);
        }
        candidates := Min(total, candidates * 2);
        turns := turns - 1;
      }
      found := None;
    }
  }

  lemma MirroredText(t: Tables, r: Row)
    requires Valid(t, true) && r in t.rows
    ensures r.id in t.mirror && t.mirror[r.id] == r.text
  {
  }

  lemma StampedValid(t: Tables, d: nat, fts: bool)
    requires Valid(t, fts)
    ensures t.dim.None? ==> Valid(t.(dim := Some(d)), fts)
  {
  }

  lemma DocsIgnoreStamp(t: Tables)
    ensures forall d, kind, ref :: Doc(t.(dim := d), kind, ref) == Doc(t, kind, ref)
  {
    forall d, kind, ref ensures Doc(t.(dim := d), kind, ref) == Doc(t, kind, ref) {
      ContentsSame(t, t.(dim := d), t.rows, kind, ref);
    }
  }
}

/** chunk_text: pack paragraphs, already split and stripped, into windows. */
module WindowChunker {

  const BREAK: string := "\n\n"

  datatype Packing = Packing(chunks: seq<string>, cur: string)

  function Max(a: int, b: int): int { if a < b then b else a }

  function Min(a: int, b: int): int { if a < b then a else b }

  function Step(maxChars: nat, overlap: nat): nat { Max(1, maxChars - overlap) }

  /** p[i:i+maxChars] for i in range(from, len(p), step). */
  function Pieces(p: string, from: nat, maxChars: nat, step: nat): seq<string>
    requires step >= 1
    decreases |p| - from
  {
    if from >= |p| then [] else [p[from..Min(from + maxChars, |p|)]] + Pieces(p, from + step, maxChars, step)
  }

  function Flushed(k: Packing): seq<string> { k.chunks + (if k.cur == "" then [] else [k.cur]) }

  function Packed(k: Packing, p: string, maxChars: nat, overlap: nat): Packing {
    if p == "" then k
    else if |p| > maxChars then Packing(Flushed(k) + Pieces(p, 0, maxChars, Step(maxChars, overlap)), "")
    else if k.cur != "" && |k.cur| + |p| + 2 > maxChars then Packing(k.chunks + [k.cur], p)
    else Packing(k.chunks, if k.cur == "" then p else k.cur + BREAK + p)
  }

  function PackAll(paras: seq<string>, maxChars: nat, overlap: nat): Packing {
    if paras == [] then Packing([], "")
    else Packed(PackAll(paras[..|paras| - 1], maxChars, overlap), paras[|paras| - 1], maxChars, overlap)
  }

  /** The windows with no limit on their number. */
  function Windows(paras: seq<string>, maxChars: nat, overlap: nat): seq<string> {
    Flushed(PackAll(paras, maxChars, overlap))
  }

  function Take(s: seq<string>, n: nat): seq<string> { s[..Min(n, |s|)] }

  function Join(parts: seq<string>): string {
    if parts == [] then ""
    else if |parts| == 1 then parts[0]
    else Join(parts[..|parts| - 1]) + BREAK + parts[|parts| - 1]
  }

  function NonEmpty(paras: seq<string>): seq<string> {
    if paras == [] then []
    else NonEmpty(paras[..|paras| - 1]) + (if paras[|paras| - 1] == "" then [] else [paras[|paras| - 1]])
  }

  // ---- no window is too long ----

  lemma {:induction false} PiecesFit(p: string, from: nat, maxChars: nat, step: nat)
    requires step >= 1
    ensures forall c :: c in Pieces(p, from, maxChars, step) ==> |c| <= maxChars
    decreases |p| - from
  {
    if from < |p| {
      PiecesFit(p, from + step, maxChars, step);
    }
  }

  lemma {:induction false} WindowsFit(paras: seq<string>, maxChars: nat, overlap: nat)
    ensures |PackAll(paras, maxChars, overlap).cur| <= maxChars
    ensures forall c :: c in PackAll(paras, maxChars, overlap).chunks ==> |c| <= maxChars
    ensures forall c :: c in Windows(paras, maxChars, overlap) ==> |c| <= maxChars
  {
    hide Pieces;
    if paras != [] {
      var k, p := PackAll(paras[..|paras| - 1], maxChars, overlap), paras[|paras| - 1];
      WindowsFit(paras[..|paras| - 1], maxChars, overlap);
      PiecesFit(p, 0, maxChars, Step(maxChars, overlap));
    }
  }

  // ---- nothing is lost ----

  lemma JoinSnoc(parts: seq<string>, p: string)
    ensures Join(parts + [p]) == if parts == [] then p else Join(parts) + BREAK + p
  {
    assert (parts + [p])[..|parts|] == parts;
  }

  lemma JoinGrow(parts: seq<string>, cur: string, p: string)
    ensures Join(parts + [cur + BREAK + p]) == Join(parts + [cur]) + BREAK + p
  {
    JoinSnoc(parts, cur + BREAK + p);
    JoinSnoc(parts, cur);
    assert Join(parts) + BREAK + (cur + BREAK + p) == Join(parts) + BREAK + cur + BREAK + p;
  }

  /** When no paragraph is over-long, joining the windows gives back the paragraphs. */
  lemma {:induction false} WindowsJoin(paras: seq<string>, maxChars: nat, overlap: nat)
    requires forall p :: p in paras ==> |p| <= maxChars
    ensures Join(Windows(paras, maxChars, overlap)) == Join(NonEmpty(paras))
    ensures Windows(paras, maxChars, overlap) == [] <==> NonEmpty(paras) == []
  {
    hide Join;
    if paras == [] {
      assert Windows(paras, maxChars, overlap) == [];
    } else {
      var front, p := paras[..|paras| - 1], paras[|paras| - 1];
      var k := PackAll(front, maxChars, overlap);
      WindowsJoin(front, maxChars, overlap);
      JoinSnoc(NonEmpty(front), p);
      JoinSnoc(Flushed(k), p);
      JoinGrow(k.chunks, k.cur, p);
      NoCurNoChunks(front, maxChars, overlap);
      var k1 := PackAll(paras, maxChars, overlap);
      if p == "" {
        assert NonEmpty(paras) == NonEmpty(front);
      } else if k.cur == "" {
        assert Flushed(k) == [] && Flushed(k1) == [] + [p] && NonEmpty(paras) == [] + [p];
      } else if |k.cur| + |p| + 2 > maxChars {
        assert Flushed(k1) == Flushed(k) + [p];
      } else {
        assert Flushed(k) == k.chunks + [k.cur] && Flushed(k1) == k.chunks + [k.cur + BREAK + p];
      }
    }
  }

  lemma {:induction false} NoCurNoChunks(paras: seq<string>, maxChars: nat, overlap: nat)
    requires forall p :: p in paras ==> |p| <= maxChars
    ensures PackAll(paras, maxChars, overlap).cur == "" ==> PackAll(paras, maxChars, overlap).chunks == []
  {
    if paras != [] {
      NoCurNoChunks(paras[..|paras| - 1], maxChars, overlap);
    }
  }

  // ---- where windows begin and end ----

  /** An over-long paragraph is cut into windows of its own; those before and after it are as if it were not there. */
  lemma {:induction false} LongStandsAlone(front: seq<string>, p: string, back: seq<string>, maxChars: nat, overlap: nat)
    requires |p| > maxChars
    ensures Windows(front + [p] + back, maxChars, overlap)
            == Windows(front, maxChars, overlap) + Pieces(p, 0, maxChars, Step(maxChars, overlap)) + Windows(back, maxChars, overlap)
  {
    hide Pieces;
    PacksAfterLong(front, p, back, maxChars, overlap);
    var done := Windows(front, maxChars, overlap) + Pieces(p, 0, maxChars, Step(maxChars, overlap));
    var k := PackAll(back, maxChars, overlap);
    assert (done + k.chunks) + [k.cur] == done + (k.chunks + [k.cur]);
    assert (done + k.chunks) + [] == done + (k.chunks + []);
  }

  lemma {:induction false} PacksAfterLong(front: seq<string>, p: string, back: seq<string>, maxChars: nat, overlap: nat)
    requires |p| > maxChars
    ensures var done := Windows(front, maxChars, overlap) + Pieces(p, 0, maxChars, Step(maxChars, overlap));
            var k := PackAll(back, maxChars, overlap);
            PackAll(front + [p] + back, maxChars, overlap) == Packing(done + k.chunks, k.cur)
    decreases |back|
  {
    hide Pieces;
    var all := front + [p] + back;
    var done := Windows(front, maxChars, overlap) + Pieces(p, 0, maxChars, Step(maxChars, overlap));
    if back == [] {
      assert all[..|all| - 1] == front && all[|all| - 1] == p;
      assert done + [] == done;
    } else {
      var n := |back| - 1;
      assert all[..|all| - 1] == front + [p] + back[..n] && all[|all| - 1] == back[n];
      PacksAfterLong(front, p, back[..n], maxChars, overlap);
      AddsAfter(done, PackAll(back[..n], maxChars, overlap), back[n], maxChars, overlap);
    }
  }

  /** Packing another paragraph does not look at the windows that are done. */
  lemma AddsAfter(done: seq<string>, k: Packing, p: string, maxChars: nat, overlap: nat)
    ensures Packed(Packing(done + k.chunks, k.cur), p, maxChars, overlap)
            == Packing(done + Packed(k, p, maxChars, overlap).chunks, Packed(k, p, maxChars, overlap).cur)
  {
    hide Pieces;
    var pieces := Pieces(p, 0, maxChars, Step(maxChars, overlap));
    assert (done + k.chunks + [k.cur]) + pieces == done + (k.chunks + [k.cur] + pieces);
    assert (done + k.chunks + []) + pieces == done + (k.chunks + [] + pieces);
    assert (done + k.chunks) + [k.cur] == done + (k.chunks + [k.cur]);
  }

  predicate NoneFits(windows: seq<string>, maxChars: nat) {
    forall i :: 0 <= i < |windows| - 1 ==> |windows[i]| + |windows[i + 1]| + 2 > maxChars
  }

  /** When no paragraph is over-long, no two windows that follow each other would have fitted one. */
  lemma {:induction false} WindowsAreFull(paras: seq<string>, maxChars: nat, overlap: nat)
    requires forall p :: p in paras ==> |p| <= maxChars
    ensures NoneFits(Windows(paras, maxChars, overlap), maxChars)
  {
    if paras != [] {
      var front, p := paras[..|paras| - 1], paras[|paras| - 1];
      var k := PackAll(front, maxChars, overlap);
      WindowsAreFull(front, maxChars, overlap);
      NoCurNoChunks(front, maxChars, overlap);
      if p != "" && k.cur != "" {
        if |k.cur| + |p| + 2 > maxChars {
          assert Windows(paras, maxChars, overlap) == Windows(front, maxChars, overlap) + [p];
        } else {
          assert Windows(front, maxChars, overlap) == k.chunks + [k.cur];
          assert Windows(paras, maxChars, overlap) == k.chunks + [k.cur + BREAK + p];
          LongerFitsNoBetter(k.chunks, k.cur, k.cur + BREAK + p, maxChars);
        }
      }
    }
  }

  lemma LongerFitsNoBetter(windows: seq<string>, a: string, b: string, maxChars: nat)
    requires NoneFits(windows + [a], maxChars) && |a| <= |b|
    ensures NoneFits(windows + [b], maxChars)
  {
    var x, y := windows + [a], windows + [b];
    forall i | 0 <= i < |y| - 1 ensures |y[i]| + |y[i + 1]| + 2 > maxChars {
      assert y[i] == x[i] && |x[i + 1]| <= |y[i + 1]|;
    }
  }

  function Heads(pieces: seq<string>, step: nat): string {
    if pieces == [] then "" else pieces[0][..Min(step, |pieces[0]|)] + Heads(pieces[1..], step)
  }

  /** The pieces of an over-long paragraph, without their overlaps, are the paragraph. */
  lemma {:induction false} PiecesCover(p: string, from: nat, maxChars: nat, step: nat)
    requires 1 <= step <= maxChars
    ensures Heads(Pieces(p, from, maxChars, step), step) == if from >= |p| then "" else p[from..]
    decreases |p| - from
  {
    if from < |p| {
      PiecesCover(p, from + step, maxChars, step);
      var piece := p[from..Min(from + maxChars, |p|)];
      var rest := Pieces(p, from + step, maxChars, step);
      assert Pieces(p, from, maxChars, step) == [piece] + rest;
      assert piece[..Min(step, |piece|)] == p[from..Min(from + step, |p|)];
      assert p[from..] == p[from..Min(from + step, |p|)] + p[Min(from + step, |p|)..];
    }
  }

  // ---- the loops, with their early exits ----

  lemma PackedGrows(k: Packing, p: string, maxChars: nat, overlap: nat)
    ensures k.chunks <= Packed(k, p, maxChars, overlap).chunks
  {
  }

  lemma {:induction false} PackAllGrows(paras: seq<string>, n: nat, maxChars: nat, overlap: nat)
    requires n <= |paras|
    ensures PackAll(paras[..n], maxChars, overlap).chunks <= PackAll(paras, maxChars, overlap).chunks
    decreases |paras|
  {
    if n < |paras| {
      assert paras[..|paras| - 1][..n] == paras[..n];
      PackAllGrows(paras[..|paras| - 1], n, maxChars, overlap);
      PackedGrows(PackAll(paras[..|paras| - 1], maxChars, overlap), paras[|paras| - 1], maxChars, overlap);
    } else {
      assert paras[..n] == paras;
    }
  }

  lemma TakeOfPrefix(front: seq<string>, whole: seq<string>, n: nat)
    requires front <= whole && |front| >= n
    ensures Take(front, n) == Take(whole, n)
  {
    assert front == whole[..|front|];
  }

  method SplitLong(p: string, chunks: seq<string>, maxChars: nat, step: nat, maxChunks: nat)
    returns (out: seq<string>, enough: bool)
    requires step >= 1
    ensures !enough ==> out == chunks + Pieces(p, 0, maxChars, step)
    ensures enough ==> out <= chunks + Pieces(p, 0, maxChars, step) && |out| >= maxChunks
  {
    out := chunks;
    var i := 0;
    while i < |p|
      invariant chunks + Pieces(p, 0, maxChars, step) == out + Pieces(p, i, maxChars, step)
      decreases |p| - i
    {
      var piece := p[i..Min(i + maxChars, |p|)];
      assert out + Pieces(p, i, maxChars, step) == out + [piece] + Pieces(p, i + step, maxChars, step);
      out := out + [piece];
      if |out| >= maxChunks { return out, true; }
      i := i + step;
    }
    assert out + Pieces(p, i, maxChars, step) == out;
    enough := false;
  }

  method PackOne(k: Packing, p: string, maxChars: nat, overlap: nat, maxChunks: nat) returns (k1: Packing, enough: bool)
    ensures !enough ==> k1 == Packed(k, p, maxChars, overlap)
    ensures enough ==> k1.chunks <= Packed(k, p, maxChars, overlap).chunks && |k1.chunks| >= maxChunks
  {
    hide Pieces;
    if p == "" { return k, false; }
    var chunks, cur := k.chunks, k.cur;
    if |p| > maxChars {
      if cur != "" {
        chunks := chunks + [cur];
        cur := "";
      }
      chunks, enough := SplitLong(p, chunks, maxChars, Step(maxChars, overlap), maxChunks);
      return Packing(chunks, cur), enough;
    }
    if cur != "" && |cur| + |p| + 2 > maxChars {
      chunks := chunks + [cur];
      cur := p;
    } else {
      cur := if cur == "" then p else cur + BREAK + p;
    }
    k1, enough := Packing(chunks, cur), |chunks| >= maxChunks;
  }

  /** Stopping at the limit early gives the same windows as packing everything and cutting. */
  method ChunkText(paras: seq<string>, maxChars: nat, overlap: nat, maxChunks: nat) returns (chunks: seq<string>)
    ensures chunks == Take(Windows(paras, maxChars, overlap), maxChunks)
    ensures |chunks| <= maxChunks && forall c :: c in chunks ==> |c| <= maxChars
  {
    hide Pieces;
    hide Packed;
    WindowsFit(paras, maxChars, overlap);
    var k := Packing([], "");
    for i := 0 to |paras|
      invariant k == PackAll(paras[..i], maxChars, overlap)
    {
      assert paras[..i + 1][..i] == paras[..i];
      PackAllGrows(paras, i + 1, maxChars, overlap);
      var enough;
      k, enough := PackOne(k, paras[i], maxChars, overlap, maxChunks);
      if enough {
        TakeOfPrefix(k.chunks, Windows(paras, maxChars, overlap), maxChunks);
        return Take(k.chunks, maxChunks);
      }
    }
    assert paras[..|paras|] == paras;
    chunks := k.chunks;
    if k.cur != "" {
      chunks := chunks + [k.cur];
    }
    chunks := Take(chunks, maxChunks);
  }
}
