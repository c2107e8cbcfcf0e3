/**
  The depth-bounded walk of a documentation graph (scripts/scrape_apple_docs.py): wave by wave, each page
  at most once, to a page cap.  A page's identity is its path without trailing slashes, which is also all
  that fetching depends on.
 */
module DocGraph {

  datatype Option<+T> = None | Some(value: T)

  type Key = string

  datatype Ref = Ref(kind: string, url: string)

  /** `order` lists the references in document order. */
  datatype Doc = Doc(topics: seq<seq<string>>, relationships: seq<seq<string>>, refs: map<string, Ref>, order: seq<string>)

  /** pathOf is the path part of a url; fetch answers None for a page that never came back. */
  datatype Site = Site(root: string, scope: string, pathOf: string -> string, fetch: Key -> Option<Doc>)

  function RStrip(s: string): string {
    if s != "" && s[|s| - 1] == '/' then RStrip(s[..|s| - 1]) else s
  }

  function LowerChar(c: char): char { if 'A' <= c <= 'Z' then c - 'A' + 'a' else c }

  function Lower(s: string): string { seq(|s|, i requires 0 <= i < |s| => LowerChar(s[i])) }

  predicate InScope(site: Site, url: string) {
    url != "" &&
    var path := Lower(RStrip(site.pathOf(url)));
    Lower(site.scope) <= path && path != RStrip(Lower(site.scope))
  }

  predicate Follows(site: Site, doc: Doc, ident: string) {
    ident in doc.refs && doc.refs[ident].kind == "topic" && InScope(site, doc.refs[ident].url)
  }

  function Flatten(groups: seq<seq<string>>): seq<string> {
    if groups == [] then [] else Flatten(groups[..|groups| - 1]) + groups[|groups| - 1]
  }

  function Urls(site: Site, doc: Doc, idents: seq<string>): seq<string> {
    if idents == [] then []
    else
      var last := idents[|idents| - 1];
      Urls(site, doc, idents[..|idents| - 1]) + (if Follows(site, doc, last) then [doc.refs[last].url] else [])
  }

  /** Members and relationships; for the root, every reference as well. */
  function Links(site: Site, doc: Doc, isRoot: bool): seq<string> {
    Urls(site, doc, Flatten(doc.topics) + Flatten(doc.relationships) + (if isRoot then doc.order else []))
  }

  function Keys(paths: seq<string>): set<Key> { set i | 0 <= i < |paths| :: RStrip(paths[i]) }

  function Distinct(paths: seq<string>): seq<string> {
    if paths == [] then []
    else
      var front := Distinct(paths[..|paths| - 1]);
      if RStrip(paths[|paths| - 1]) in Keys(paths[..|paths| - 1]) then front else front + [paths[|paths| - 1]]
  }

  /** Where a page leads. */
  function Targets(site: Site, page: Key): set<Key> {
    match site.fetch(page)
    case None => {}
    case Some(doc) => Keys(Links(site, doc, page == RStrip(site.root)))
  }

  /** The pages within n edges of the root, through pages that could be fetched. */
  ghost function Reach(site: Site, n: int): set<Key>
    decreases n
  {
    if n < 0 then {}
    else if n == 0 then {RStrip(site.root)}
    else Reach(site, n - 1) + Spread(site, Reach(site, n - 1))
  }

  ghost function Spread(site: Site, pages: set<Key>): set<Key> { set p, t | p in pages && t in Targets(site, p) :: t }

  ghost predicate NoRepeats(paths: seq<string>) {
    forall i, j :: 0 <= i < j < |paths| ==> RStrip(paths[i]) != RStrip(paths[j])
  }

  // ---- keys of sequences ----

  lemma KeysSnoc(paths: seq<string>, p: string)
    ensures Keys(paths + [p]) == Keys(paths) + {RStrip(p)}
  {
    assert (paths + [p])[|paths|] == p;
    forall k | k in Keys(paths) ensures k in Keys(paths + [p]) {
      var i :| 0 <= i < |paths| && RStrip(paths[i]) == k;
      assert (paths + [p])[i] == paths[i];
    }
  }

  lemma KeysTo(paths: seq<string>, i: nat)
    requires i < |paths|
    ensures Keys(paths[..i + 1]) == Keys(paths[..i]) + {RStrip(paths[i])}
  {
    assert paths[..i + 1] == paths[..i] + [paths[i]];
    KeysSnoc(paths[..i], paths[i]);
  }

  lemma NoKeys()
    ensures Keys([]) == {}
  {
  }

  lemma {:induction false} DistinctKeys(paths: seq<string>)
    ensures Keys(Distinct(paths)) == Keys(paths)
  {
    if paths != [] {
      var front, p := paths[..|paths| - 1], paths[|paths| - 1];
      DistinctKeys(front);
      KeysSnoc(front, p);
      KeysSnoc(Distinct(front), p);
      assert paths == front + [p];
    }
  }

  // ---- where a page leads ----

  predicate InGroups(groups: seq<seq<string>>, ident: string) { exists i :: 0 <= i < |groups| && ident in groups[i] }

  /** The page names the reference: as a member, in a relationship, or, for the root, anywhere. */
  predicate Names(doc: Doc, ident: string, isRoot: bool) {
    InGroups(doc.topics, ident) || InGroups(doc.relationships, ident) || (isRoot && ident in doc.order)
  }

  /** The reference is to a topic below the scope, upper and lower case alike, at this url. */
  predicate LeadsTo(site: Site, doc: Doc, ident: string, url: string) {
    && ident in doc.refs && doc.refs[ident] == Ref("topic", url) && url != ""
    && var path := Lower(RStrip(site.pathOf(url)));
       Lower(site.scope) <= path && path != RStrip(Lower(site.scope))
  }

  lemma {:induction false} FlattenedIff(groups: seq<seq<string>>, ident: string)
    ensures ident in Flatten(groups) <==> InGroups(groups, ident)
  {
    if groups != [] {
      var front, last := groups[..|groups| - 1], groups[|groups| - 1];
      FlattenedIff(front, ident);
      assert groups == front + [last];
      if InGroups(front, ident) {
        var i :| 0 <= i < |front| && ident in front[i];
        assert ident in groups[i];
      }
      if ident in last {
        assert ident in groups[|groups| - 1];
      }
    }
  }

  lemma FollowsIff(site: Site, doc: Doc, ident: string, url: string)
    ensures LeadsTo(site, doc, ident, url) <==> Follows(site, doc, ident) && doc.refs[ident].url == url
  {
    hide Lower;
    hide RStrip;
  }

  lemma {:induction false} UrlsIff(site: Site, doc: Doc, idents: seq<string>, url: string)
    ensures url in Urls(site, doc, idents) <==> exists ident :: ident in idents && LeadsTo(site, doc, ident, url)
  {
    hide LeadsTo;
    hide Follows;
    if idents != [] {
      var front, last := idents[..|idents| - 1], idents[|idents| - 1];
      UrlsIff(site, doc, front, url);
      FollowsIff(site, doc, last, url);
      assert idents == front + [last];
      if ident :| ident in idents && LeadsTo(site, doc, ident, url) && ident != last {
        assert ident in front;
      }
      if ident :| ident in front && LeadsTo(site, doc, ident, url) {
        assert ident in idents;
      }
      assert last in idents;
    }
  }

  lemma KeysIff(paths: seq<string>, t: Key)
    ensures t in Keys(paths) <==> exists p :: p in paths && RStrip(p) == t
  {
    hide RStrip;
    if p :| p in paths && RStrip(p) == t {
      var i :| 0 <= i < |paths| && paths[i] == p;
    }
  }

  /** The pages a page leads to are exactly those of the topics in scope that it names. */
  lemma TargetsExactly(site: Site, page: Key, t: Key)
    ensures t in Targets(site, page) <==>
              && site.fetch(page).Some?
              && exists ident, url :: && Names(site.fetch(page).value, ident, page == RStrip(site.root))
                                      && LeadsTo(site, site.fetch(page).value, ident, url) && RStrip(url) == t
  {
    hide RStrip;
    hide Keys;
    hide Urls;
    hide Flatten;
    hide LeadsTo;
    if site.fetch(page).Some? {
      var doc, isRoot := site.fetch(page).value, page == RStrip(site.root);
      var idents := Flatten(doc.topics) + Flatten(doc.relationships) + (if isRoot then doc.order else []);
      forall ident ensures ident in idents <==> Names(doc, ident, isRoot) {
        FlattenedIff(doc.topics, ident);
        FlattenedIff(doc.relationships, ident);
      }
      forall url ensures url in Links(site, doc, isRoot) <==> exists ident :: ident in idents && LeadsTo(site, doc, ident, url) {
        UrlsIff(site, doc, idents, url);
      }
      KeysIff(Links(site, doc, isRoot), t);
    }
  }

  // ---- reachability ----

  lemma {:induction false} ReachGrows(site: Site, m: int, n: int)
    requires m <= n
    ensures Reach(site, m) <= Reach(site, n)
    decreases n - m
  {
    hide Spread;
    hide RStrip;
    if m < n && n > 0 {
      ReachGrows(site, m, n - 1);
    }
  }

  lemma {:induction false} SpreadUnion(site: Site, a: set<Key>, b: set<Key>)
    ensures Spread(site, a + b) == Spread(site, a) + Spread(site, b)
  {
  }

  /** Once a wave finds nothing new, nothing is further away. */
  lemma {:induction false} ReachSettles(site: Site, m: int, n: int)
    requires 0 <= m <= n && Spread(site, Reach(site, m)) <= Reach(site, m)
    ensures Reach(site, n) == Reach(site, m)
    decreases n - m
  {
    hide Spread;
    if m < n {
      ReachSettles(site, m, n - 1);
    }
  }
}

module GraphWalk {
  import opened DocGraph

  /** child_paths: the links in order, each page once. */
  method ChildPaths(site: Site, doc: Doc, isRoot: bool) returns (out: seq<string>)
    ensures out == Distinct(Links(site, doc, isRoot))
    ensures Keys(out) == Keys(Links(site, doc, isRoot))
  {
    hide RStrip;
    hide Keys;
    hide Follows;
    var idents := [];
    for g := 0 to |doc.topics|
      invariant idents == Flatten(doc.topics[..g])
    {
      assert doc.topics[..g + 1][..g] == doc.topics[..g];
      idents := idents + doc.topics[g];
    }
    assert doc.topics[..|doc.topics|] == doc.topics;
    ghost var members := idents;
    for g := 0 to |doc.relationships|
      invariant idents == members + Flatten(doc.relationships[..g])
    {
      assert doc.relationships[..g + 1][..g] == doc.relationships[..g];
      idents := idents + doc.relationships[g];
    }
    assert doc.relationships[..|doc.relationships|] == doc.relationships;
    if isRoot {
      idents := idents + doc.order;
    } else {
      assert idents + [] == idents;
    }
    var urls := CollectUrls(site, doc, idents);
    out := [];
    var seen: set<Key> := {};
    NoKeys();
    for i := 0 to |urls|
      invariant seen == Keys(urls[..i]) && out == Distinct(urls[..i])
    {
      KeysTo(urls, i);
      assert urls[..i + 1][..i] == urls[..i];
      if RStrip(urls[i]) !in seen {
        seen := seen + {RStrip(urls[i])};
        out := out + [urls[i]];
      }
    }
    assert urls[..|urls|] == urls;
    DistinctKeys(urls);
  }

  method CollectUrls(site: Site, doc: Doc, idents: seq<string>) returns (urls: seq<string>)
    ensures urls == Urls(site, doc, idents)
  {
    urls := [];
    for i := 0 to |idents|
      invariant urls == Urls(site, doc, idents[..i])
    {
      assert idents[..i + 1][..i] == idents[..i];
      if Follows(site, doc, idents[i]) {
        urls := urls + [doc.refs[idents[i]].url];
      }
    }
    assert idents[..|idents|] == idents;
  }

  function Max(a: int, b: int): int { if a < b then b else a }

  ghost function Fetchable(site: Site, pages: set<Key>): set<Key> { set p | p in pages && site.fetch(p).Some? }

  /** The inner loop over the children: unseen ones join the next frontier. */
  method Discover(children: seq<string>, seen0: set<Key>, frontier0: seq<string>)
    returns (seen: set<Key>, frontier: seq<string>)
    requires NoRepeats(frontier0) && Keys(frontier0) <= seen0
    ensures seen == seen0 + Keys(children)
    ensures Keys(frontier) == Keys(frontier0) + (Keys(children) - seen0)
    ensures NoRepeats(frontier) && Keys(frontier) <= seen
  {
    hide RStrip;
    hide Keys;
    NoKeys();
    seen, frontier := seen0, frontier0;
    for i := 0 to |children|
      invariant seen == seen0 + Keys(children[..i])
      invariant Keys(frontier) == Keys(frontier0) + (Keys(children[..i]) - seen0)
      invariant NoRepeats(frontier) && Keys(frontier) <= seen
    {
      KeysTo(children, i);
      if RStrip(children[i]) !in seen {
        KeysSnoc(frontier, children[i]);
        NoRepeatsSnoc(frontier, children[i]);
        seen := seen + {RStrip(children[i])};
        frontier := frontier + [children[i]];
      }
    }
    assert children[..|children|] == children;
  }

  lemma NoRepeatsSnoc(paths: seq<string>, p: string)
    requires NoRepeats(paths) && RStrip(p) !in Keys(paths)
    ensures NoRepeats(paths + [p])
  {
    forall i | 0 <= i < |paths| ensures RStrip(paths[i]) in Keys(paths) {
    }
  }

  function DocKeys(docs: map<string, Doc>): set<Key> { set p | p in docs :: RStrip(p) }

  /** What is kept of the pages so far: the fetched ones under their paths, one path for each page. */
  ghost predicate Kept(site: Site, docs: map<string, Doc>, failed: seq<string>, pages: set<Key>) {
    && (forall p :: p in docs ==> site.fetch(RStrip(p)) == Some(docs[p]))
    && DocKeys(docs) == Fetchable(site, pages)
    && Keys(failed) == pages - Fetchable(site, pages)
    && |DocKeys(docs)| == |docs|
  }

  lemma DocKeysAdd(docs: map<string, Doc>, p: string, doc: Doc)
    requires RStrip(p) !in DocKeys(docs)
    ensures DocKeys(docs[p := doc]) == DocKeys(docs) + {RStrip(p)} && |docs[p := doc]| == |docs| + 1
    ensures forall q :: q in docs ==> docs[p := doc][q] == docs[q]
  {
    hide RStrip;
    assert p in docs ==> RStrip(p) in DocKeys(docs);
    var docs1 := docs[p := doc];
    forall k | k in DocKeys(docs) ensures k in DocKeys(docs1) {
      var q :| q in docs && RStrip(q) == k;
      assert q in docs1;
    }
    assert p in docs1;
  }

  lemma FetchableAdd(site: Site, pages: set<Key>, k: Key)
    ensures Fetchable(site, pages + {k}) == if site.fetch(k).Some? then Fetchable(site, pages) + {k} else Fetchable(site, pages)
  {
  }

  lemma KeepDoc(site: Site, docs: map<string, Doc>, failed: seq<string>, pages: set<Key>, p: string, doc: Doc)
    requires Kept(site, docs, failed, pages) && RStrip(p) !in pages && site.fetch(RStrip(p)) == Some(doc)
    ensures Kept(site, docs[p := doc], failed, pages + {RStrip(p)}) && |docs[p := doc]| == |docs| + 1
  {
    hide RStrip;
    hide Keys;
    hide DocKeys;
    FetchableIn(site, pages);
    DocKeysAdd(docs, p, doc);
    FetchableAdd(site, pages, RStrip(p));
  }

  lemma FetchableIn(site: Site, pages: set<Key>)
    ensures Fetchable(site, pages) <= pages
  {
  }

  lemma KeepFailed(site: Site, docs: map<string, Doc>, failed: seq<string>, pages: set<Key>, p: string)
    requires Kept(site, docs, failed, pages) && RStrip(p) !in pages && site.fetch(RStrip(p)).None?
    ensures Kept(site, docs, failed + [p], pages + {RStrip(p)})
  {
    hide RStrip;
    hide Keys;
    hide DocKeys;
    KeysSnoc(failed, p);
    FetchableIn(site, pages);
    FetchableAdd(site, pages, RStrip(p));
  }

  lemma SpreadOne(site: Site, pages: set<Key>, p: Key)
    ensures Spread(site, pages + {p}) == Spread(site, pages) + Targets(site, p)
  {
    hide RStrip;
    hide Targets;
    SpreadUnion(site, pages, {p});
    assert Spread(site, {p}) == Targets(site, p);
  }

  /** One page of a wave: kept or failed, and its unseen targets join the next frontier, unless the cap is hit. */
  method Visit(site: Site, p: string, docs0: map<string, Doc>, failed0: seq<string>, seen0: set<Key>, frontier0: seq<string>,
               maxPages: int, ghost pages: set<Key>)
    returns (docs: map<string, Doc>, failed: seq<string>, seen: set<Key>, frontier: seq<string>, capped: bool)
    requires Kept(site, docs0, failed0, pages) && RStrip(p) !in pages
    requires RStrip(p) == RStrip(site.root) ==> p == site.root
    requires NoRepeats(frontier0) && Keys(frontier0) <= seen0
    requires |docs0| < Max(1, maxPages)
    ensures Kept(site, docs, failed, pages + {RStrip(p)})
    ensures |docs| <= Max(1, maxPages)
    ensures capped ==> |docs| >= maxPages && |docs| >= 1
    ensures !capped ==> |docs| < Max(1, maxPages) && seen == seen0 + Targets(site, RStrip(p))
    ensures !capped ==> Keys(frontier) == Keys(frontier0) + (Targets(site, RStrip(p)) - seen0)
    ensures NoRepeats(frontier) && (!capped ==> Keys(frontier) <= seen)
  {
    hide RStrip;
    hide Keys;
    hide Targets;
    hide Kept;
    hide NoRepeats;
    docs, failed, seen, frontier, capped := docs0, failed0, seen0, frontier0, false;
    TargetsOf(site, p);
    var doc := site.fetch(RStrip(p));
    if doc.None? {
      KeepFailed(site, docs, failed, pages, p);
      failed := failed + [p];
    } else {
      KeepDoc(site, docs, failed, pages, p, doc.value);
      docs := docs[p := doc.value];
      if |docs| >= maxPages {
        capped := true;
      } else {
        var children := ChildPaths(site, doc.value, p == site.root);
        seen, frontier := Discover(children, seen, frontier);
      }
    }
  }

  /** One wave, to its end or to the cap; `took` pages of it were kept or failed. */
  method Wave(site: Site, wave: seq<string>, docs0: map<string, Doc>, failed0: seq<string>, seen0: set<Key>, maxPages: int,
              ghost before: set<Key>)
    returns (docs: map<string, Doc>, failed: seq<string>, seen: set<Key>, frontier: seq<string>, capped: bool, took: nat)
    requires Kept(site, docs0, failed0, before) && NoRepeats(wave) && before !! Keys(wave)
    requires forall p :: p in wave && RStrip(p) == RStrip(site.root) ==> p == site.root
    requires |docs0| < Max(1, maxPages)
    ensures took <= |wave| && Kept(site, docs, failed, before + Keys(wave[..took]))
    ensures capped ==> |docs| >= maxPages && |docs| >= 1
    ensures !capped ==> took == |wave| && |docs| < Max(1, maxPages)
    ensures |docs| <= Max(1, maxPages)
    ensures !capped ==> seen == seen0 + Spread(site, Keys(wave)) && Keys(frontier) == Spread(site, Keys(wave)) - seen0
    ensures NoRepeats(frontier)
  {
    hide RStrip;
    hide Keys;
    hide Spread;
    hide Targets;
    hide Kept;
    hide NoRepeats;
    NoKeys();
    NothingRepeats();
    NothingSpreads(site);
    docs, failed, seen, frontier, capped, took := docs0, failed0, seen0, [], false, 0;
    assert before + Keys(wave[..0]) == before;
    while took < |wave|
      invariant took <= |wave| && Kept(site, docs, failed, before + Keys(wave[..took]))
      invariant |docs| < Max(1, maxPages)
      invariant seen == seen0 + Spread(site, Keys(wave[..took])) && Keys(frontier) == Spread(site, Keys(wave[..took])) - seen0
      invariant NoRepeats(frontier)
    {
      var p := wave[took];
      KeysTo(wave, took);
      NewHere(wave, took, before);
      SpreadOne(site, Keys(wave[..took]), RStrip(p));
      ghost var pages := before + Keys(wave[..took]);
      assert before + Keys(wave[..took + 1]) == pages + {RStrip(p)};
      docs, failed, seen, frontier, capped := Visit(site, p, docs, failed, seen, frontier, maxPages, pages);
      took := took + 1;
      if capped { return; }
    }
    assert wave[..took] == wave;
  }

  lemma NothingRepeats()
    ensures NoRepeats([])
  {
  }

  lemma NothingSpreads(site: Site)
    ensures Spread(site, {}) == {}
  {
  }

  lemma NewHere(wave: seq<string>, i: nat, before: set<Key>)
    requires NoRepeats(wave) && before !! Keys(wave) && i < |wave|
    ensures RStrip(wave[i]) !in before + Keys(wave[..i])
  {
    assert RStrip(wave[i]) in Keys(wave);
  }

  lemma TargetsOf(site: Site, p: string)
    requires RStrip(p) == RStrip(site.root) ==> p == site.root
    ensures site.fetch(RStrip(p)).None? ==> Targets(site, RStrip(p)) == {}
    ensures site.fetch(RStrip(p)).Some? ==>
              Targets(site, RStrip(p)) == Keys(Links(site, site.fetch(RStrip(p)).value, p == site.root))
  {
  }

  // ---- the whole walk ----

  /** At the head of wave `depth`: everything nearer is done, and the frontier is exactly the next distance. */
  ghost predicate AtWave(site: Site, depth: int, docs: map<string, Doc>, failed: seq<string>, seen: set<Key>, frontier: seq<string>,
                         fetched: seq<string>)
  {
    && Kept(site, docs, failed, Reach(site, depth - 1))
    && seen == Reach(site, depth)
    && Keys(frontier) == Reach(site, depth) - Reach(site, depth - 1)
    && NoRepeats(frontier)
    && NoRepeats(fetched) && Keys(fetched) == Reach(site, depth - 1)
    && (forall p :: p in frontier && RStrip(p) == RStrip(site.root) ==> p == site.root)
  }

  lemma AtStart(site: Site)
    ensures AtWave(site, 0, map[], [], {RStrip(site.root)}, [site.root], [])
  {
    KeysSnoc([], site.root);
    assert [] + [site.root] == [site.root];
    NoKeys();
    assert DocKeys(map[]) == {};
  }

  lemma NextWave(site: Site, depth: nat, docs: map<string, Doc>, failed: seq<string>, seen: set<Key>, frontier: seq<string>,
                 fetched: seq<string>, docs1: map<string, Doc>, failed1: seq<string>, seen1: set<Key>, frontier1: seq<string>)
    requires AtWave(site, depth, docs, failed, seen, frontier, fetched)
    requires Kept(site, docs1, failed1, Reach(site, depth - 1) + Keys(frontier))
    requires seen1 == seen + Spread(site, Keys(frontier)) && Keys(frontier1) == Spread(site, Keys(frontier)) - seen
    requires NoRepeats(frontier1)
    ensures AtWave(site, depth + 1, docs1, failed1, seen1, frontier1, fetched + frontier)
  {
    hide RStrip;
    hide Keys;
    hide Kept;
    hide NoRepeats;
    hide Spread;
    var near, here := Reach(site, depth - 1), Reach(site, depth);
    ReachGrows(site, depth - 1, depth);
    assert near + Keys(frontier) == here;
    SpreadUnion(site, near, Keys(frontier));
    assert Spread(site, near) <= here by {
      if depth == 0 { NothingSpreads(site); }
    }
    assert seen1 == Reach(site, depth + 1);
    NoRepeatsBoth(fetched, frontier);
    RootIsBehind(site, depth);
    forall p | p in frontier1 ensures RStrip(p) in Keys(frontier1) {
      KeyOf(frontier1, p);
    }
  }

  lemma KeyOf(paths: seq<string>, p: string)
    requires p in paths
    ensures RStrip(p) in Keys(paths)
  {
    hide RStrip;
  }

  lemma {:induction false} RootIsBehind(site: Site, depth: nat)
    ensures RStrip(site.root) in Reach(site, depth)
  {
    ReachGrows(site, 0, depth);
  }

  lemma NoRepeatsBoth(a: seq<string>, b: seq<string>)
    requires NoRepeats(a) && NoRepeats(b) && Keys(a) !! Keys(b)
    ensures NoRepeats(a + b) && Keys(a + b) == Keys(a) + Keys(b)
  {
    forall i | 0 <= i < |a| ensures RStrip(a[i]) in Keys(a) && RStrip((a + b)[i]) == RStrip(a[i]) {}
    forall i | 0 <= i < |b| ensures RStrip(b[i]) in Keys(b) && RStrip((a + b)[|a| + i]) == RStrip(b[i]) {}
    forall i | |a| <= i < |a + b| ensures (a + b)[i] == b[i - |a|] {}
  }

  /** The cap cannot take more than is there: a capped walk saw at least maxPages pages that can be fetched. */
  lemma CapReached(site: Site, docs: map<string, Doc>, failed: seq<string>, pages: set<Key>, all: set<Key>)
    requires Kept(site, docs, failed, pages) && pages <= all
    ensures |docs| <= |Fetchable(site, all)| && DocKeys(docs) <= Fetchable(site, all)
  {
    hide DocKeys;
    SubsetSize(Fetchable(site, pages), Fetchable(site, all));
  }

  lemma {:induction false} SubsetSize(a: set<Key>, b: set<Key>)
    requires a <= b
    ensures |a| <= |b|
    decreases a
  {
    if a != {} {
      var x :| x in a;
      SubsetSize(a - {x}, b - {x});
    }
  }

  /** When the waves stop without the cap, everything within reach is done. */
  lemma WalkIsDone(site: Site, depth: nat, maxDepth: int, docs: map<string, Doc>, failed: seq<string>, seen: set<Key>,
                   frontier: seq<string>, fetched: seq<string>)
    requires AtWave(site, depth, docs, failed, seen, frontier, fetched)
    requires frontier == [] || depth > maxDepth
    requires depth == 0 || depth - 1 <= maxDepth
    ensures Kept(site, docs, failed, Reach(site, maxDepth)) && Keys(fetched) == Reach(site, maxDepth)
  {
    hide RStrip;
    hide Kept;
    hide Spread;
    if depth > maxDepth {
      assert Reach(site, depth - 1) == Reach(site, maxDepth);
    } else {
      NoKeys();
      RootIsBehind(site, depth);
      ReachGrows(site, depth - 1, depth);
      NothingBetween(Reach(site, depth - 1), Reach(site, depth));
      ReachSettles(site, depth - 1, maxDepth);
    }
  }

  lemma NothingBetween(a: set<Key>, b: set<Key>)
    requires a <= b && b - a == {}
    ensures a == b
  {
    assert forall k :: k in b ==> k in a || k in b - a;
  }

  lemma FetchedAtMostOnce(site: Site, depth: nat, docs: map<string, Doc>, failed: seq<string>, seen: set<Key>,
                          frontier: seq<string>, fetched: seq<string>)
    requires AtWave(site, depth, docs, failed, seen, frontier, fetched)
    ensures NoRepeats(fetched + frontier) && Keys(fetched + frontier) <= Reach(site, depth)
  {
    hide Reach;
    ReachGrows(site, depth - 1, depth);
    NoRepeatsBoth(fetched, frontier);
  }

  /**
    crawl_graph.  `fetched` is every request made, in waves.  No page is requested twice.  Without the cap the
    fetched and the failed pages are together exactly the pages within maxDepth edges of the root; the cap
    is hit exactly when maxPages of those can be fetched, and then at most maxPages (or one) are kept.
   */
  method CrawlGraph(site: Site, maxPages: int, maxDepth: int)
    returns (docs: map<string, Doc>, failed: seq<string>, fetched: seq<string>, capped: bool)
    ensures NoRepeats(fetched) && Keys(fetched) <= Reach(site, maxDepth)
    ensures |docs| <= Max(1, maxPages) && DocKeys(docs) <= Fetchable(site, Reach(site, maxDepth))
    ensures forall p :: p in docs ==> site.fetch(RStrip(p)) == Some(docs[p])
    ensures !capped ==> DocKeys(docs) == Fetchable(site, Reach(site, maxDepth))
    ensures !capped ==> Keys(failed) == Reach(site, maxDepth) - Fetchable(site, Reach(site, maxDepth))
    ensures !capped ==> Keys(fetched) == Reach(site, maxDepth)
    ensures capped <==> |Fetchable(site, Reach(site, maxDepth))| >= Max(1, maxPages)
  {
    hide RStrip;
    hide Keys;
    hide Reach;
    hide AtWave;
    hide Kept;
    docs, failed, fetched, capped := map[], [], [], false;
    var seen := {RStrip(site.root)};
    var frontier := [site.root];
    var depth: nat := 0;
    AtStart(site);
    while |frontier| > 0 && depth <= maxDepth
      invariant AtWave(site, depth, docs, failed, seen, frontier, fetched)
      invariant |docs| < Max(1, maxPages) && (depth == 0 || depth - 1 <= maxDepth)
      decreases maxDepth - depth
    {
      WaveFacts(site, depth, docs, failed, seen, frontier, fetched);
      FetchedAtMostOnce(site, depth, docs, failed, seen, frontier, fetched);
      ReachGrows(site, depth, maxDepth);
      var docs1, failed1, seen1, frontier1, stop, took :=
        Wave(site, frontier, docs, failed, seen, maxPages, Reach(site, depth - 1));
      if stop {
        KeysPart(frontier, took);
        CapReached(site, docs1, failed1, Reach(site, depth - 1) + Keys(frontier[..took]), Reach(site, maxDepth));
        KeptDocs(site, docs1, failed1, Reach(site, depth - 1) + Keys(frontier[..took]));
        docs, failed, fetched, capped := docs1, failed1, fetched + frontier, true;
        return;
      }
      assert frontier[..took] == frontier;
      NextWave(site, depth, docs, failed, seen, frontier, fetched, docs1, failed1, seen1, frontier1);
      docs, failed, seen, fetched, frontier := docs1, failed1, seen1, fetched + frontier, frontier1;
      depth := depth + 1;
    }
    WalkIsDone(site, depth, maxDepth, docs, failed, seen, frontier, fetched);
    WaveFacts(site, depth, docs, failed, seen, frontier, fetched);
    KeptDocs(site, docs, failed, Reach(site, maxDepth));
  }

  lemma WaveFacts(site: Site, depth: nat, docs: map<string, Doc>, failed: seq<string>, seen: set<Key>, frontier: seq<string>,
                  fetched: seq<string>)
    requires AtWave(site, depth, docs, failed, seen, frontier, fetched)
    ensures Kept(site, docs, failed, Reach(site, depth - 1)) && NoRepeats(frontier) && NoRepeats(fetched)
    ensures Reach(site, depth - 1) !! Keys(frontier) && Keys(frontier) <= Reach(site, depth)
    ensures Reach(site, depth - 1) <= Reach(site, depth)
    ensures forall p :: p in frontier && RStrip(p) == RStrip(site.root) ==> p == site.root
  {
    ReachGrows(site, depth - 1, depth);
  }

  lemma KeptDocs(site: Site, docs: map<string, Doc>, failed: seq<string>, pages: set<Key>)
    requires Kept(site, docs, failed, pages)
    ensures DocKeys(docs) == Fetchable(site, pages) && |docs| == |Fetchable(site, pages)|
    ensures Keys(failed) == pages - Fetchable(site, pages)
    ensures forall p :: p in docs ==> site.fetch(RStrip(p)) == Some(docs[p])
  {
  }

  lemma KeysPart(paths: seq<string>, n: nat)
    requires n <= |paths|
    ensures Keys(paths[..n]) <= Keys(paths)
  {
  }
}
