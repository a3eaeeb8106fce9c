/** The shared list that the proposal validators append their blockers to. */
module ProposalFindings {
  class Findings {
    var blockers: seq<string>

    constructor ()
      ensures blockers == []
    {
      blockers := [];
    }

    method Add(code: string)
      modifies this
      ensures blockers == old(blockers) + [code]
    {
      blockers := blockers + [code];
    }
  }
}

/** Evidence bundles: every requirement of the contract is met by exactly one item. */
module ProposalEvidence {
  import opened Common
  import opened ProposalFindings
  import opened ProposalPaths

  /** Fields are None when they are missing or of the wrong type. */
  datatype Source = Source(id: Option<string>, path: Option<string>, sha: Option<string>)

  datatype Item = Item(
    id: Option<string>, index: Option<int>, text: Option<string>, status: string, sources: seq<Option<Source>>)

  /** What resolving a relative path in the repository finds: nothing usable (private,
      outside the root, no file), or a file with this digest. */
  type Tree = string -> Option<string>

  predicate LowerOrDigit(c: char) { 'a' <= c <= 'z' || '0' <= c <= '9' }

  predicate SafeId(s: string) {
    && 1 <= |s| <= 80 && LowerOrDigit(s[0])
    && forall i :: 0 <= i < |s| ==> LowerOrDigit(s[i]) || s[i] == '.' || s[i] == '_' || s[i] == '-'
  }

  predicate IsSha256(s: string) {
    |s| == 64 && forall i :: 0 <= i < |s| ==> '0' <= s[i] <= '9' || 'a' <= s[i] <= 'f'
  }

  // ---------------------------------------------------------------- specification

  /** A source names a readable file of the repository by its exact digest. */
  predicate SourceOk(tree: Tree, source: Option<Source>) {
    && source.Some? && source.value.id.Some? && SafeId(source.value.id.value)
    && source.value.path.Some?
    && var relative := Normalize(source.value.path.value);
       && relative.Some? && relative.value != "."
       && source.value.sha.Some? && IsSha256(source.value.sha.value)
       && tree(relative.value) == Some(source.value.sha.value)
  }

  /** Sources with different ids. */
  predicate SourcesOk(tree: Tree, sources: seq<Option<Source>>) {
    && (forall i :: 0 <= i < |sources| ==> SourceOk(tree, sources[i]))
    && (forall i, j :: 0 <= i < j < |sources| ==> SourceOk(tree, sources[i]) && SourceOk(tree, sources[j]) ==>
          sources[i].value.id != sources[j].value.id)
  }

  predicate ItemOk(requirements: seq<string>, item: Option<Item>) {
    && item.Some? && item.value.id.Some? && SafeId(item.value.id.value)
    && item.value.index.Some? && 0 <= item.value.index.value < |requirements|
    && item.value.text == Some(requirements[item.value.index.value])
    && item.value.status == "satisfied" && item.value.sources != []
  }

  /** All sources of all items, in order. */
  function AllSources(items: seq<Option<Item>>): seq<Option<Source>> {
    if items == [] then []
    else
      var last := items[|items| - 1];
      AllSources(items[..|items| - 1]) + if last.Some? then last.value.sources else []
  }

  predicate ItemsOk(requirements: seq<string>, items: seq<Option<Item>>) {
    && (forall i :: 0 <= i < |items| ==> ItemOk(requirements, items[i]))
    && (forall i, j :: 0 <= i < j < |items| && ItemOk(requirements, items[i]) && ItemOk(requirements, items[j]) ==>
          items[i].value.id != items[j].value.id && items[i].value.index != items[j].value.index)
  }

  predicate Covers(items: seq<Option<Item>>, r: int) {
    exists i :: 0 <= i < |items| && items[i].Some? && items[i].value.index == Some(r)
  }

  predicate EvidenceOk(tree: Tree, requirements: seq<string>, items: seq<Option<Item>>) {
    && items != [] && ItemsOk(requirements, items) && SourcesOk(tree, AllSources(items))
    && forall r :: 0 <= r < |requirements| ==> Covers(items, r)
  }

  // ---------------------------------------------------------------- the loops

  lemma SourcesGrow(tree: Tree, sources: seq<Option<Source>>, more: seq<Option<Source>>)
    requires SourcesOk(tree, sources + more)
    ensures SourcesOk(tree, sources)
  {
    var all := sources + more;
    assert forall i :: 0 <= i < |sources| ==> all[i] == sources[i];
  }

  function SourceIds(sources: seq<Option<Source>>): set<string> {
    set s | s in sources && s.Some? && s.value.id.Some? :: s.value.id.value
  }

  lemma SourcesStep(tree: Tree, sources: seq<Option<Source>>, next: Option<Source>)
    requires SourcesOk(tree, sources)
    ensures SourcesOk(tree, sources + [next]) <==> SourceOk(tree, next) && next.value.id.value !in SourceIds(sources)
    ensures SourceOk(tree, next) ==> SourceIds(sources + [next]) == SourceIds(sources) + {next.value.id.value}
  {
    hide SafeId, IsSha256, Normalize;
    var all := sources + [next];
    assert all[|sources|] == next && forall i :: 0 <= i < |sources| ==> all[i] == sources[i];
    if SourceOk(tree, next) && next.value.id.value in SourceIds(sources) {
      var i :| 0 <= i < |sources| && sources[i].Some? && sources[i].value.id == next.value.id;
      assert SourceOk(tree, all[i]) && SourceOk(tree, all[|sources|]);
    }
    if SourceOk(tree, next) && next.value.id.value !in SourceIds(sources) {
      forall i | 0 <= i < |sources| ensures sources[i].value.id != next.value.id {
        assert sources[i] in sources;
      }
    }
  }

  predicate ItemFits(requirements: seq<string>, item: Option<Item>, ids: set<string>, covered: set<int>) {
    ItemOk(requirements, item) && item.value.id.value !in ids && item.value.index.value !in covered
  }

  function ItemIds(items: seq<Option<Item>>): set<string> {
    set item | item in items && item.Some? && item.value.id.Some? :: item.value.id.value
  }

  function Indices(items: seq<Option<Item>>): set<int> {
    set item | item in items && item.Some? && item.value.index.Some? :: item.value.index.value
  }

  lemma ItemsStep(requirements: seq<string>, items: seq<Option<Item>>, next: Option<Item>)
    requires ItemsOk(requirements, items)
    ensures ItemsOk(requirements, items + [next]) <==> ItemFits(requirements, next, ItemIds(items), Indices(items))
    ensures ItemOk(requirements, next) ==>
      && ItemIds(items + [next]) == ItemIds(items) + {next.value.id.value}
      && Indices(items + [next]) == Indices(items) + {next.value.index.value}
  {
    hide SafeId;
    var all := items + [next];
    assert all[|items|] == next && forall i :: 0 <= i < |items| ==> all[i] == items[i];
    if ItemOk(requirements, next) && next.value.id.value in ItemIds(items) {
      var i :| 0 <= i < |items| && items[i].Some? && items[i].value.id == next.value.id;
      assert ItemOk(requirements, all[i]) && ItemOk(requirements, all[|items|]);
    }
    if ItemOk(requirements, next) && next.value.index.value in Indices(items) {
      var i :| 0 <= i < |items| && items[i].Some? && items[i].value.index == next.value.index;
      assert ItemOk(requirements, all[i]) && ItemOk(requirements, all[|items|]);
    }
    if ItemFits(requirements, next, ItemIds(items), Indices(items)) {
      forall i | 0 <= i < |items| ensures items[i].value.id != next.value.id && items[i].value.index != next.value.index {
        assert items[i] in items && ItemOk(requirements, items[i]);
      }
    }
  }

  lemma ItemsGrow(requirements: seq<string>, items: seq<Option<Item>>, next: Option<Item>)
    requires ItemsOk(requirements, items + [next])
    ensures ItemsOk(requirements, items)
  {
    hide ItemOk;
    var all := items + [next];
    assert forall i :: 0 <= i < |items| ==> all[i] == items[i];
  }

  /** One source: adds nothing exactly when it is sound and new. */
  method CheckSource(tree: Tree, source: Option<Source>, ids: set<string>, findings: Findings) returns (seen: set<string>)
    modifies findings
    ensures old(findings.blockers) <= findings.blockers
    ensures |findings.blockers| == |old(findings.blockers)| <==> SourceOk(tree, source) && source.value.id.value !in ids
    ensures |findings.blockers| == |old(findings.blockers)| ==> seen == ids + {source.value.id.value}
  {
    hide SafeId, IsSha256, Normalize;
    seen := ids;
    if source.None? {
      findings.Add("evidence_source_invalid");
      return;
    }
    var s := source.value;
    if s.id.None? || !SafeId(s.id.value) {
      findings.Add("evidence_source_id_invalid");
    } else if s.id.value in ids {
      findings.Add("evidence_source_id_duplicate");
    } else {
      seen := ids + {s.id.value};
    }
    var relative := if s.path.Some? then Normalize(s.path.value) else None;
    if relative.None? || relative.value == "." || tree(relative.value).None? {
      findings.Add("evidence_source_path_invalid");
    } else if s.sha.None? || !IsSha256(s.sha.value) {
      findings.Add("evidence_source_sha256_invalid");
    } else if tree(relative.value) != s.sha {
      findings.Add("evidence_source_sha256_mismatch");
    }
  }

  /** The requirement an item claims to meet. */
  method CheckIndex(requirements: seq<string>, item: Item, covered: set<int>, findings: Findings) returns (covered': set<int>)
    modifies findings
    ensures old(findings.blockers) <= findings.blockers
    ensures |findings.blockers| == |old(findings.blockers)| <==>
      && item.index.Some? && 0 <= item.index.value < |requirements| && item.index.value !in covered
      && item.text == Some(requirements[item.index.value])
    ensures |findings.blockers| == |old(findings.blockers)| ==> covered' == covered + {item.index.value}
  {
    covered' := covered;
    if item.index.None? || item.index.value < 0 || item.index.value >= |requirements| {
      findings.Add("evidence_requirement_index_invalid");
    } else {
      if item.index.value in covered { findings.Add("evidence_requirement_duplicate"); }
      covered' := covered + {item.index.value};
      if item.text != Some(requirements[item.index.value]) { findings.Add("evidence_requirement_text_mismatch"); }
    }
  }

  /** One item without its sources: adds nothing exactly when it fits. */
  method CheckItem(
    requirements: seq<string>, item: Item, byId: map<string, Item>, covered: set<int>, findings: Findings)
    returns (byId': map<string, Item>, covered': set<int>)
    modifies findings
    ensures old(findings.blockers) <= findings.blockers
    ensures |findings.blockers| == |old(findings.blockers)| <==> ItemFits(requirements, Some(item), byId.Keys, covered)
    ensures |findings.blockers| == |old(findings.blockers)| ==>
      byId' == byId[item.id.value := item] && covered' == covered + {item.index.value}
  {
    hide SafeId;
    byId' := byId;
    if item.id.None? || !SafeId(item.id.value) {
      findings.Add("evidence_id_invalid");
    } else if item.id.value in byId {
      findings.Add("evidence_id_duplicate");
    } else {
      byId' := byId[item.id.value := item];
    }
    covered' := CheckIndex(requirements, item, covered, findings);
    if item.status != "satisfied" { findings.Add("evidence_not_satisfied"); }
    if item.sources == [] { findings.Add("evidence_sources_missing"); }
  }

  /** The sources of one item, after those of the items before it. */
  method CheckSources(
    tree: Tree, sources: seq<Option<Source>>, ids: set<string>, ghost before: seq<Option<Source>>, findings: Findings)
    returns (seen: set<string>)
    requires SourcesOk(tree, before) ==> ids == SourceIds(before)
    modifies findings
    ensures old(findings.blockers) <= findings.blockers
    ensures SourcesOk(tree, before) ==> (|findings.blockers| == |old(findings.blockers)| <==> SourcesOk(tree, before + sources))
    ensures SourcesOk(tree, before + sources) ==> seen == SourceIds(before + sources)
  {
    hide SourceOk, SourcesOk;
    ghost var n := |findings.blockers|;
    seen := ids;
    assert before + sources[..0] == before;
    for k := 0 to |sources|
      invariant old(findings.blockers) <= findings.blockers
      invariant SourcesOk(tree, before) ==> (|findings.blockers| == n <==> SourcesOk(tree, before + sources[..k]))
      invariant SourcesOk(tree, before) && SourcesOk(tree, before + sources[..k]) ==> seen == SourceIds(before + sources[..k])
    {
      ghost var done := before + sources[..k];
      assert before + sources[..k + 1] == done + [sources[k]];
      if SourcesOk(tree, done) { SourcesStep(tree, done, sources[k]); }
      if SourcesOk(tree, done + [sources[k]]) { SourcesGrow(tree, done, [sources[k]]); }
      seen := CheckSource(tree, sources[k], seen, findings);
    }
    assert before + sources[..|sources|] == before + sources;
    if SourcesOk(tree, before + sources) { SourcesGrow(tree, before, sources); }
  }

  /** The items up to k and all their sources are in order. */
  predicate SoFarOk(tree: Tree, requirements: seq<string>, items: seq<Option<Item>>) {
    ItemsOk(requirements, items) && SourcesOk(tree, AllSources(items))
  }

  lemma AllSourcesStep(items: seq<Option<Item>>, next: Option<Item>)
    ensures AllSources(items + [next]) == AllSources(items) + if next.Some? then next.value.sources else []
  {
    assert (items + [next])[..|items|] == items;
  }

  lemma SoFarGrows(tree: Tree, requirements: seq<string>, items: seq<Option<Item>>, next: Option<Item>)
    requires SoFarOk(tree, requirements, items + [next])
    ensures SoFarOk(tree, requirements, items)
  {
    hide ItemsOk, SourcesOk;
    ItemsGrow(requirements, items, next);
    AllSourcesStep(items, next);
    SourcesGrow(tree, AllSources(items), if next.Some? then next.value.sources else []);
  }

  /** What the loop remembers while it has found nothing. */
  ghost predicate Remembers(items: seq<Option<Item>>, byId: map<string, Item>, covered: set<int>, seen: set<string>) {
    && byId.Keys == ItemIds(items) && covered == Indices(items) && seen == SourceIds(AllSources(items))
    && forall id | id in byId :: Some(byId[id]) in items
  }

  /** validate_evidence_bundle over items and requirements: it adds no blocker exactly when
      the bundle is in order. */
  method ValidateEvidence(tree: Tree, requirements: seq<string>, items: seq<Option<Item>>, findings: Findings)
    returns (byId: map<string, Item>)
    modifies findings
    ensures old(findings.blockers) <= findings.blockers
    ensures |findings.blockers| == |old(findings.blockers)| <==> EvidenceOk(tree, requirements, items)
    ensures EvidenceOk(tree, requirements, items) ==> byId.Keys == ItemIds(items)
  {
    hide ItemsOk, SourcesOk, ItemIds, Indices, SourceIds, AllSources, ItemOk;
    ghost var n := |findings.blockers|;
    byId := map[];
    var covered: set<int> := {};
    var seen: set<string> := {};
    if items == [] { findings.Add("evidence_items_invalid"); }
    EmptyBundle(tree, requirements);
    assert items[..0] == [];
    for k := 0 to |items|
      invariant old(findings.blockers) <= findings.blockers
      invariant |findings.blockers| == n <==> items != [] && SoFarOk(tree, requirements, items[..k])
      invariant |findings.blockers| == n ==> Remembers(items[..k], byId, covered, seen)
    {
      ghost var clean := |findings.blockers| == n;
      ghost var done := items[..k];
      assert items[..k + 1] == done + [items[k]];
      if SoFarOk(tree, requirements, done + [items[k]]) { SoFarGrows(tree, requirements, done, items[k]); }
      if clean { BundleStep(tree, requirements, done, items[k]); }
      if items[k].None? {
        findings.Add("evidence_item_invalid");
      } else {
        byId, covered := CheckItem(requirements, items[k].value, byId, covered, findings);
        seen := CheckSources(tree, items[k].value.sources, seen, if clean then AllSources(done) else [None], findings);
      }
    }
    assert items[..|items|] == items;
    for r := 0 to |requirements|
      invariant old(findings.blockers) <= findings.blockers
      invariant |findings.blockers| == n <==>
        items != [] && SoFarOk(tree, requirements, items) && forall q :: 0 <= q < r ==> Covers(items, q)
    {
      if |findings.blockers| == n { CoveredMeansIndexed(items, r); }
      if r !in covered { findings.Add("evidence_requirement_missing"); }
    }
  }

  lemma EmptyBundle(tree: Tree, requirements: seq<string>)
    ensures SoFarOk(tree, requirements, []) && ItemIds([]) == {} && Indices([]) == {} && SourceIds(AllSources([])) == {}
    ensures !SourcesOk(tree, [None])
  {
    var bad: seq<Option<Source>> := [None];
    assert !SourceOk(tree, bad[0]);
  }

  lemma CoveredMeansIndexed(items: seq<Option<Item>>, r: int)
    ensures r in Indices(items) <==> Covers(items, r)
  {
    if Covers(items, r) {
      var i :| 0 <= i < |items| && items[i].Some? && items[i].value.index == Some(r);
      assert items[i] in items;
    }
  }

  lemma BundleStep(tree: Tree, requirements: seq<string>, done: seq<Option<Item>>, next: Option<Item>)
    requires SoFarOk(tree, requirements, done)
    ensures SoFarOk(tree, requirements, done + [next]) <==>
      && ItemFits(requirements, next, ItemIds(done), Indices(done))
      && SourcesOk(tree, AllSources(done) + next.value.sources)
    ensures next.None? ==> !SoFarOk(tree, requirements, done + [next])
    ensures ItemOk(requirements, next) ==>
      && ItemIds(done + [next]) == ItemIds(done) + {next.value.id.value}
      && Indices(done + [next]) == Indices(done) + {next.value.index.value}
      && AllSources(done + [next]) == AllSources(done) + next.value.sources
  {
    hide ItemsOk, SourcesOk, ItemIds, Indices;
    ItemsStep(requirements, done, next);
    AllSourcesStep(done, next);
  }

  // ---------------------------------------------------------------- one item per requirement

  lemma {:induction false} IndicesAreDistinct(requirements: seq<string>, items: seq<Option<Item>>)
    requires ItemsOk(requirements, items)
    ensures |Indices(items)| == |items|
  {
    hide ItemOk;
    if items != [] {
      var front, last := items[..|items| - 1], items[|items| - 1];
      assert items == front + [last];
      hide ItemsOk;
      ItemsGrow(requirements, front, last);
      IndicesAreDistinct(requirements, front);
      ItemsStep(requirements, front, last);
    }
  }

  function Range(n: nat): (s: set<int>)
    ensures |s| == n && forall r :: r in s <==> 0 <= r < n
  {
    if n == 0 then {} else Range(n - 1) + {n - 1}
  }

  /** Item i is the one that answers requirement r, word for word. */
  predicate Answers(requirements: seq<string>, items: seq<Option<Item>>, i: int, r: int) {
    && 0 <= i < |items| && 0 <= r < |requirements|
    && items[i].Some? && items[i].value.index == Some(r) && items[i].value.text == Some(requirements[r])
  }

  predicate HasRequirement(requirements: seq<string>, items: seq<Option<Item>>, i: int) {
    exists r | 0 <= r < |requirements| :: Answers(requirements, items, i, r)
  }

  predicate HasItem(requirements: seq<string>, items: seq<Option<Item>>, r: int) {
    exists i | 0 <= i < |items| :: Answers(requirements, items, i, r)
  }

  /** An accepted bundle pairs items and requirements one to one. */
  lemma EvidenceIsABijection(tree: Tree, requirements: seq<string>, items: seq<Option<Item>>)
    requires EvidenceOk(tree, requirements, items)
    ensures |items| == |requirements|
    ensures forall i :: 0 <= i < |items| ==> HasRequirement(requirements, items, i)
    ensures forall r :: 0 <= r < |requirements| ==> HasItem(requirements, items, r)
    ensures forall i, j, r :: Answers(requirements, items, i, r) && Answers(requirements, items, j, r) ==> i == j
    ensures forall i, r, q :: Answers(requirements, items, i, r) && Answers(requirements, items, i, q) ==> r == q
  {
    hide SourcesOk, SafeId, AllSources;
    forall i | 0 <= i < |items| ensures HasRequirement(requirements, items, i) {
      assert ItemOk(requirements, items[i]);
      assert Answers(requirements, items, i, items[i].value.index.value);
    }
    forall r | 0 <= r < |requirements| ensures HasItem(requirements, items, r) {
      assert Covers(items, r);
      var i :| 0 <= i < |items| && items[i].Some? && items[i].value.index == Some(r);
      assert ItemOk(requirements, items[i]);
      assert Answers(requirements, items, i, r);
    }
    forall i, j, r | Answers(requirements, items, i, r) && Answers(requirements, items, j, r) ensures i == j {
      assert ItemOk(requirements, items[i]) && ItemOk(requirements, items[j]);
    }
    SameSize(requirements, items);
  }

  lemma SameSize(requirements: seq<string>, items: seq<Option<Item>>)
    requires ItemsOk(requirements, items) && forall r :: 0 <= r < |requirements| ==> Covers(items, r)
    ensures |items| == |requirements|
  {
    hide SafeId;
    assert Indices(items) == Range(|requirements|) by {
      forall r ensures r in Indices(items) <==> r in Range(|requirements|) {
        CoveredMeansIndexed(items, r);
        if Covers(items, r) {
          var i :| 0 <= i < |items| && items[i].Some? && items[i].value.index == Some(r);
          assert ItemOk(requirements, items[i]);
        }
      }
    }
    hide ItemsOk, Indices;
    IndicesAreDistinct(requirements, items);
  }
}
