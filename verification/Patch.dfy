/** Append-once documentation patches: the fold that a preview shows, the duplicates that are
    dropped first, and the chain of digests that ties an approved action to its operations. */
module Patch {
  import opened Common
  import opened Text
  import opened Registry
  import opened Authority
  import opened Builder
  import opened QueueProtocol
  import opened QueueRules
  import opened Session

  const Once: string := "append_once"

  // ---------------------------------------------------------------- the fold over one file

  /** One turn of the preview loop. */
  function Apply(text: string, op: Operation): string {
    if op.kind != Once || Contains(text, op.marker) then text
    else (if text != "" && !EndsWith(text, "\n") then text + "\n" else text) + Section(op)
  }

  /** What an operation appends. */
  function Section(op: Operation): string {
    "\n" + Strip(op.content) + "\n"
  }

  function Fold(text: string, ops: seq<Operation>): string {
    if ops == [] then text else Apply(Fold(text, ops[..|ops| - 1]), ops[|ops| - 1])
  }

  /** The operation's own block shows its marker. */
  predicate Carries(op: Operation) {
    op.kind == Once ==> Contains(Section(op), op.marker)
  }

  predicate AllCarry(ops: seq<Operation>) {
    forall i :: 0 <= i < |ops| ==> Carries(ops[i])
  }

  /** The usual case: the marker is part of the content itself. */
  lemma MarkedContentCarries(op: Operation)
    requires Contains(Strip(op.content), op.marker)
    ensures Carries(op)
  {
    ContainsInside("\n", Strip(op.content), "\n", op.marker);
  }

  /** One operation, told on the text: only `append_once` acts, only where its marker is missing,
      and it appends its stripped content in a paragraph of its own. */
  lemma ApplyIsExact(text: string, op: Operation)
    ensures op.kind != "append_once" || Contains(text, op.marker) ==> Apply(text, op) == text
    ensures op.kind == "append_once" && !Contains(text, op.marker) ==>
      Apply(text, op) ==
        (if text == "" || text[|text| - 1] == '\n' then text + "\n" else text + "\n\n") + Strip(op.content) + "\n"
  {
    hide Contains, Strip;
    if text != "" {
      assert EndsWith(text, "\n") <==> text[|text| - 1] == '\n' by { EndsInNewline(text); }
    }
    assert text + "\n" + "\n" == text + "\n\n";
    assert text + ("\n" + Strip(op.content) + "\n") == text + "\n" + Strip(op.content) + "\n";
    assert (text + "\n") + ("\n" + Strip(op.content) + "\n") == text + "\n\n" + Strip(op.content) + "\n";
  }

  lemma EndsInNewline(text: string)
    requires text != ""
    ensures EndsWith(text, "\n") <==> text[|text| - 1] == '\n'
  {
    assert text[|text| - 1..] == [text[|text| - 1]];
  }

  lemma ApplyExtends(text: string, op: Operation)
    ensures StartsWith(Apply(text, op), text)
  {
    hide Contains, Strip;
  }

  /** The old text is a prefix of the new one. */
  lemma {:induction false} FoldExtends(text: string, ops: seq<Operation>)
    ensures StartsWith(Fold(text, ops), text)
  {
    hide Apply;
    if ops != [] {
      FoldExtends(text, ops[..|ops| - 1]);
      ApplyExtends(Fold(text, ops[..|ops| - 1]), ops[|ops| - 1]);
    }
  }

  lemma ContainsGrows(short: string, long: string, part: string)
    requires StartsWith(long, short) && Contains(short, part)
    ensures Contains(long, part)
  {
    ContainsInside("", short, long[|short|..], part);
    assert "" + short + long[|short|..] == long;
  }

  lemma ApplyShows(text: string, op: Operation)
    requires op.kind == Once && Carries(op)
    ensures Contains(Apply(text, op), op.marker)
  {
    if !Contains(text, op.marker) {
      var front := if text != "" && !EndsWith(text, "\n") then text + "\n" else text;
      ContainsInside(front, Section(op), "", op.marker);
      assert front + Section(op) + "" == Apply(text, op);
    }
  }

  /** Every marker is present afterwards. */
  lemma {:induction false} FoldShows(text: string, ops: seq<Operation>, k: nat)
    requires k < |ops| && ops[k].kind == Once && Carries(ops[k])
    ensures Contains(Fold(text, ops), ops[k].marker)
  {
    hide Apply, Carries, Contains, StartsWith;
    var n := |ops| - 1;
    if k == n {
      ApplyShows(Fold(text, ops[..n]), ops[n]);
    } else {
      FoldShows(text, ops[..n], k);
      ApplyExtends(Fold(text, ops[..n]), ops[n]);
      ContainsGrows(Fold(text, ops[..n]), Fold(text, ops), ops[k].marker);
    }
  }

  predicate Present(text: string, op: Operation) {
    op.kind == Once ==> Contains(text, op.marker)
  }

  lemma {:induction false} FoldOfPresent(text: string, ops: seq<Operation>)
    requires forall i :: 0 <= i < |ops| ==> Present(text, ops[i])
    ensures Fold(text, ops) == text
  {
    hide Contains;
    if ops != [] {
      FoldOfPresent(text, ops[..|ops| - 1]);
      assert Present(text, ops[|ops| - 1]);
    }
  }

  /** A second fold changes nothing. */
  lemma FoldIsIdempotent(text: string, ops: seq<Operation>)
    requires AllCarry(ops)
    ensures Fold(Fold(text, ops), ops) == Fold(text, ops)
  {
    hide Contains, Apply, Fold, Carries;
    forall i | 0 <= i < |ops| ensures Present(Fold(text, ops), ops[i]) {
      assert Carries(ops[i]);
      if ops[i].kind == Once { FoldShows(text, ops, i); }
    }
    FoldOfPresent(Fold(text, ops), ops);
  }

  /** The condition is exact: applying one operation twice is applying it once, for every
      file text, if and only if its block shows its marker. */
  lemma CarriesIsExact(op: Operation)
    ensures (forall text: string :: Apply(Apply(text, op), op) == Apply(text, op)) <==> Carries(op)
  {
    hide Contains, Strip;
    if Carries(op) {
      forall text: string ensures Apply(Apply(text, op), op) == Apply(text, op) {
        if op.kind == Once { ApplyShows(text, op); }
      }
    } else {
      var once := Apply("", op);
      if Contains("", op.marker) { EmptyTextShowsLittle(op); }
      assert once == "" + Section(op) == Section(op);
      assert |Apply(once, op)| > |once|;
    }
  }

  lemma EmptyTextShowsLittle(op: Operation)
    requires Contains("", op.marker)
    ensures Contains(Section(op), op.marker)
  {
    ContainsInside("", "", Section(op), op.marker);
    assert "" + "" + Section(op) == Section(op);
  }

  lemma AbsentLetter(text: string, c: char)
    requires c !in text
    ensures !Contains(text, [c])
  {
    forall i | 0 <= i <= |text| ensures !OccursAt(text, [c], i) {
      if i < |text| { assert text[i..i + 1][0] == text[i]; }
    }
  }

  /** An operation without its marker in its content is appended again by every preview. */
  lemma UnmarkedContentRepeats()
    ensures
      var op := Operation(Once, "README.md", "#", "a");
      Apply("", op) == "\na\n" && Apply(Apply("", op), op) == "\na\n\na\n"
  {
    hide Contains;
    assert Strip("a") == "a";
    AbsentLetter("", '#');
    AbsentLetter("\na\n", '#');
  }

  // ---------------------------------------------------------------- dropped duplicates

  datatype Key = Key(kind: string, path: string, marker: string)

  function KeyOf(op: Operation): Key {
    Key(op.kind, op.path, op.marker)
  }

  predicate HasKey(ops: seq<Operation>, key: Key) {
    exists i :: 0 <= i < |ops| && KeyOf(ops[i]) == key
  }

  /** The first operation of each key, in order. */
  function Dedupe(ops: seq<Operation>): seq<Operation> {
    if ops == [] then []
    else
      var front := Dedupe(ops[..|ops| - 1]);
      if HasKey(ops[..|ops| - 1], KeyOf(ops[|ops| - 1])) then front else front + [ops[|ops| - 1]]
  }

  /** _dedupe_operations, with its set of seen keys. */
  method DedupeOperations(ops: seq<Operation>) returns (r: seq<Operation>)
    ensures r == Dedupe(ops)
  {
    r := [];
    var seen: set<Key> := {};
    for k := 0 to |ops|
      invariant r == Dedupe(ops[..k])
      invariant forall key :: key in seen <==> HasKey(ops[..k], key)
    {
      var key := KeyOf(ops[k]);
      assert ops[..k + 1][..k] == ops[..k] && ops[..k + 1][k] == ops[k];
      KeysOfNext(ops, k);
      if key !in seen {
        seen := seen + {key};
        r := r + [ops[k]];
      }
    }
    assert ops[..|ops|] == ops;
  }

  lemma KeysOfNext(ops: seq<Operation>, k: nat)
    requires k < |ops|
    ensures forall key :: HasKey(ops[..k + 1], key) <==> HasKey(ops[..k], key) || key == KeyOf(ops[k])
  {
    forall key ensures HasKey(ops[..k + 1], key) <==> HasKey(ops[..k], key) || key == KeyOf(ops[k]) {
      assert ops[..k + 1][k] == ops[k];
      if HasKey(ops[..k], key) {
        var i :| 0 <= i < k && KeyOf(ops[..k][i]) == key;
        assert ops[..k + 1][i] == ops[..k][i];
      }
      if HasKey(ops[..k + 1], key) && key != KeyOf(ops[k]) {
        var i :| 0 <= i < k + 1 && KeyOf(ops[..k + 1][i]) == key;
        assert ops[..k][i] == ops[..k + 1][i];
      }
    }
  }

  /** No key twice, no key lost, nothing invented. */
  lemma {:induction false} DedupeIsExact(ops: seq<Operation>)
    ensures
      var r := Dedupe(ops);
      && (forall i, j :: 0 <= i < j < |r| ==> KeyOf(r[i]) != KeyOf(r[j]))
      && (forall i, j :: 0 <= i < j < |r| ==>
            r[i].kind != r[j].kind || r[i].path != r[j].path || r[i].marker != r[j].marker)
      && (forall key :: HasKey(r, key) <==> HasKey(ops, key))
      && (forall op | op in r :: op in ops)
  {
    if ops != [] {
      var n := |ops| - 1;
      DedupeIsExact(ops[..n]);
      KeysOfNext(ops, n);
      assert ops[..n + 1] == ops;
      var front := Dedupe(ops[..n]);
      if !HasKey(ops[..n], KeyOf(ops[n])) {
        var r := front + [ops[n]];
        assert r[..|front|] == front && r[..|front| + 1] == r;
        KeysOfNext(r, |front|);
        assert Dedupe(ops) == r && forall key :: HasKey(r, key) <==> HasKey(front, key) || key == KeyOf(ops[n]);
        forall i | 0 <= i < |front| ensures KeyOf(r[i]) != KeyOf(ops[n]) {
          assert HasKey(front, KeyOf(front[i]));
        }
      }
    }
  }

  function OpsFor(ops: seq<Operation>, path: string): seq<Operation> {
    if ops == [] then []
    else
      var front := OpsFor(ops[..|ops| - 1], path);
      if ops[|ops| - 1].path == path then front + [ops[|ops| - 1]] else front
  }

  lemma {:induction false} OpsForHas(ops: seq<Operation>, path: string, k: nat)
    requires k < |ops| && ops[k].path == path
    ensures exists i :: 0 <= i < |OpsFor(ops, path)| && OpsFor(ops, path)[i] == ops[k]
  {
    var n := |ops| - 1;
    if k == n {
      assert OpsFor(ops, path)[|OpsFor(ops, path)| - 1] == ops[k];
    } else {
      OpsForHas(ops[..n], path, k);
      var i :| 0 <= i < |OpsFor(ops[..n], path)| && OpsFor(ops[..n], path)[i] == ops[..n][k];
      assert OpsFor(ops, path)[i] == ops[k];
    }
  }

  /** Dropping duplicates does not change what any file becomes. */
  lemma {:induction false} DedupeKeepsMeaning(ops: seq<Operation>, path: string, text: string)
    requires AllCarry(ops)
    ensures Fold(text, OpsFor(Dedupe(ops), path)) == Fold(text, OpsFor(ops, path))
  {
    hide Apply, Carries, Contains;
    if ops != [] {
      var n := |ops| - 1;
      var last := ops[n];
      DedupeKeepsMeaning(ops[..n], path, text);
      if last.path == path {
        var front := OpsFor(ops[..n], path);
        assert (front + [last])[..|front|] == front;
        if HasKey(ops[..n], KeyOf(last)) {
          DuplicateIsIdle(ops, path, text);
        } else {
          var kept := OpsFor(Dedupe(ops[..n]), path);
          assert Dedupe(ops)[..|Dedupe(ops)| - 1] == Dedupe(ops[..n]);
          assert (kept + [last])[..|kept|] == kept;
        }
      } else if !HasKey(ops[..n], KeyOf(last)) {
        assert Dedupe(ops)[..|Dedupe(ops)| - 1] == Dedupe(ops[..n]);
      }
    }
  }

  /** A repeated key finds its marker already there. */
  lemma DuplicateIsIdle(ops: seq<Operation>, path: string, text: string)
    requires ops != [] && AllCarry(ops) && ops[|ops| - 1].path == path
    requires HasKey(ops[..|ops| - 1], KeyOf(ops[|ops| - 1]))
    ensures
      var done := Fold(text, OpsFor(ops[..|ops| - 1], path));
      Apply(done, ops[|ops| - 1]) == done
  {
    hide Carries, Contains, Fold, OpsFor;
    var n := |ops| - 1;
    var j :| 0 <= j < n && KeyOf(ops[..n][j]) == KeyOf(ops[n]);
    OpsForHas(ops[..n], path, j);
    var i :| 0 <= i < |OpsFor(ops[..n], path)| && OpsFor(ops[..n], path)[i] == ops[..n][j];
    assert Carries(ops[j]);
    if ops[n].kind == Once { FoldShows(text, OpsFor(ops[..n], path), i); }
  }

  // ---------------------------------------------------------------- the preview

  /** The working tree as the preview reads it (a missing file reads as empty), the unified
      diff of two texts, and Python's sorted order of a set of paths. */
  datatype Repo = Repo(text: string -> string, diff: (string, string, string) -> string, order: set<string> -> seq<string>)

  function PathsOf(ops: seq<Operation>): set<string> {
    set op | op in ops :: op.path
  }

  function FileAfter(repo: Repo, ops: seq<Operation>, path: string): string {
    Fold(repo.text(path), OpsFor(ops, path))
  }

  function Diffs(repo: Repo, ops: seq<Operation>, paths: seq<string>): string {
    if paths == [] then ""
    else
      var last := paths[|paths| - 1];
      Diffs(repo, ops, paths[..|paths| - 1]) + repo.diff(last, repo.text(last), FileAfter(repo, ops, last))
  }

  function Preview(repo: Repo, ops: seq<Operation>): string {
    Diffs(repo, ops, repo.order(PathsOf(ops)))
  }

  lemma PathsOfNext(ops: seq<Operation>, k: nat)
    requires k < |ops|
    ensures PathsOf(ops[..k + 1]) == PathsOf(ops[..k]) + {ops[k].path}
    ensures forall path :: OpsFor(ops[..k + 1], path)
                        == OpsFor(ops[..k], path) + if ops[k].path == path then [ops[k]] else []
  {
    assert ops[..k + 1] == ops[..k] + [ops[k]];
    assert ops[..k + 1][..k] == ops[..k];
  }

  lemma {:induction false} NoOpsElsewhere(ops: seq<Operation>, path: string)
    requires path !in PathsOf(ops)
    ensures OpsFor(ops, path) == []
  {
    if ops != [] {
      var n := |ops| - 1;
      assert ops[n] in ops;
      assert PathsOf(ops[..n]) <= PathsOf(ops);
      NoOpsElsewhere(ops[..n], path);
    }
  }

  /** The first loop of the preview. */
  method GroupByPath(ops: seq<Operation>) returns (byPath: map<string, seq<Operation>>)
    ensures byPath.Keys == PathsOf(ops)
    ensures forall path | path in byPath :: byPath[path] == OpsFor(ops, path)
  {
    hide PathsOf, OpsFor;
    byPath := map[];
    NoOps();
    assert ops[..0] == [];
    for k := 0 to |ops|
      invariant byPath.Keys == PathsOf(ops[..k])
      invariant forall path | path in byPath :: byPath[path] == OpsFor(ops[..k], path)
    {
      PathsOfNext(ops, k);
      var path := ops[k].path;
      if path !in byPath { NoOpsElsewhere(ops[..k], path); }
      byPath := byPath[path := (if path in byPath then byPath[path] else []) + [ops[k]]];
    }
    assert ops[..|ops|] == ops;
  }

  lemma NoOps()
    ensures PathsOf([]) == {}
  {
  }

  /** _patch_preview: group the operations by path, then fold each group over its file. */
  method PatchPreview(repo: Repo, ops: seq<Operation>) returns (r: string)
    requires forall path | path in repo.order(PathsOf(ops)) :: path in PathsOf(ops)
    ensures r == Preview(repo, ops)
  {
    hide PathsOf, OpsFor, Fold;
    var byPath := GroupByPath(ops);
    r := "";
    var paths := repo.order(byPath.Keys);
    for k := 0 to |paths|
      invariant r == Diffs(repo, ops, paths[..k])
    {
      assert paths[k] in repo.order(PathsOf(ops));
      var before := repo.text(paths[k]);
      var after := FoldOperations(before, byPath[paths[k]]);
      assert paths[..k + 1][..k] == paths[..k];
      r := r + repo.diff(paths[k], before, after);
    }
    assert paths[..|paths|] == paths;
  }

  /** The inner loop of the preview. */
  method FoldOperations(before: string, ops: seq<Operation>) returns (after: string)
    ensures after == Fold(before, ops)
    ensures StartsWith(after, before)
    ensures AllCarry(ops) ==> forall i | 0 <= i < |ops| :: Present(after, ops[i])
  {
    after := before;
    for k := 0 to |ops|
      invariant after == Fold(before, ops[..k])
    {
      assert ops[..k + 1][..k] == ops[..k];
      if ops[k].kind != Once || Contains(after, ops[k].marker) { continue; }
      if after != "" && !EndsWith(after, "\n") { after := after + "\n"; }
      after := after + Section(ops[k]);
    }
    assert ops[..|ops|] == ops;
    FoldExtends(before, ops);
    if AllCarry(ops) {
      forall i | 0 <= i < |ops| ensures Present(after, ops[i]) {
        assert Carries(ops[i]);
        if ops[i].kind == Once { FoldShows(before, ops, i); }
      }
    }
  }

  // ---------------------------------------------------------------- the binding chain

  function PatchDigest(cfg: Config, mission: string, repo: Repo, ops: seq<Operation>): string {
    cfg.sha(PatchText(mission, ops, Preview(repo, ops)))
  }

  /** The patch proposal that a model audit leaves behind. */
  function Propose(cfg: Config, mission: string, repo: Repo, ops: seq<Operation>, planPath: string): PatchProposal {
    var digest := PatchDigest(cfg, mission, repo, ops);
    var short := if |digest| <= 10 then digest else digest[..10];
    PatchProposal("patch-" + short, digest, planPath, repo.order(PathsOf(ops)), |ops|)
  }

  /** The proposal digests mission, operations and preview together, is named after that digest,
      and lists the paths of all its operations and no others. */
  lemma ProposalIsExact(cfg: Config, mission: string, repo: Repo, ops: seq<Operation>, planPath: string)
    requires forall paths, path :: path in repo.order(paths) <==> path in paths
    ensures
      var p := Propose(cfg, mission, repo, ops, planPath);
      && p.patchSha == cfg.sha(PatchText(mission, ops, Preview(repo, ops))) && p.patchPlan == planPath
      && p.operationCount == |ops|
      && (forall path :: path in p.changedPaths <==> exists i :: 0 <= i < |ops| && ops[i].path == path)
      && (|p.patchSha| > 10 ==> p.patchId == "patch-" + p.patchSha[..10])
  {
    hide Preview;
    var p := Propose(cfg, mission, repo, ops, planPath);
    forall path ensures path in p.changedPaths <==> exists i :: 0 <= i < |ops| && ops[i].path == path {
      assert path in p.changedPaths <==> path in PathsOf(ops);
      if i :| 0 <= i < |ops| && ops[i].path == path { assert ops[i] in ops; }
    }
  }

  /** _patch_binding_matches: the action's arguments against the live proposal. */
  predicate BindingMatches(a: Action, live: PatchProposal) {
    && Has(a.arguments, PatchIdKey, Text(live.patchId))
    && Has(a.arguments, PatchShaKey, Text(live.patchSha))
    && Has(a.arguments, ChangedPathsKey, Texts(live.changedPaths))
  }

  /** Every check between the dispatch of a patch action and the call of the patch tool:
      whatever the proposal and plan files hold by then, and whatever the tree looks like. */
  predicate ApplyChecksPass(
    cfg: Config, mission: string, repo: Repo, a: Action, live: PatchProposal, status: string, plan: seq<Operation>)
  {
    BindingMatches(a, live) && status == "proposed" && PatchDigest(cfg, mission, repo, plan) == live.patchSha
  }

  /** Follow-up arguments reach the built action untouched. */
  lemma PatchArgumentsSurvive(
    cfg: Config, plan: string, tier: Tier, c: Charter, d: Decision, audit: Action, p: PatchProposal)
    ensures
      var built := BuildAction(cfg, audit.missionId, plan, ApplyPatch, tier, c, d, PatchAfter(audit, p).extra);
      && built.Ok?
      && Has(built.value.arguments, PatchIdKey, Text(p.patchId)) && Has(built.value.arguments, PatchShaKey, Text(p.patchSha))
      && Has(built.value.arguments, ChangedPathsKey, Texts(p.changedPaths))
  {
    hide AfterDash, Upper;
  }

  /** Patch binding across files: let a patch action be built from the proposal for `ops`,
      and let an action with its id be dispatched, in any run and however the queue was
      edited. If the checks before the patch tool pass, then the operations in the plan file
      are `ops`, for the same mission, the preview is still the one proposed, and the live
      proposal names the paths and the id of the one approved. */
  lemma AppliedPatchIsTheApprovedOne(
    cfg: Config, states: seq<State>, moves: seq<Move>, i: nat, k: nat,
    audit: Action, plan: string, c: Charter, d: Decision,
    mission: string, repo: Repo, ops: seq<Operation>, planPath: string,
    mission': string, repo': Repo, live: PatchProposal, status: string, ops': seq<Operation>)
    requires HashingSound(cfg) && IsRun(Konoha(cfg), states, moves) && i < |states| && k < |states[i].log|
    requires
      var extra := PatchAfter(audit, Propose(cfg, mission, repo, ops, planPath)).extra;
      var built := BuildAction(cfg, audit.missionId, plan, ApplyPatch, Followup, c, d, extra);
      built.Ok? && built.value.id == states[i].log[k].action.id
    requires ApplyChecksPass(cfg, mission', repo', states[i].log[k].action, live, status, ops')
    ensures ops' == ops && mission' == mission && Preview(repo', ops) == Preview(repo, ops) && status == "proposed"
    ensures
      var p := Propose(cfg, mission, repo, ops, planPath);
      live.patchId == p.patchId && live.patchSha == p.patchSha && live.changedPaths == p.changedPaths
  {
    hide IsRun, HashingSound, BuildAction, Preview, Konoha;
    var p := Propose(cfg, mission, repo, ops, planPath);
    var extra := PatchAfter(audit, p).extra;
    ApprovalBindsContent(cfg, states, moves, i, k, audit.missionId, plan, ApplyPatch, Followup, c, d, extra);
    PatchArgumentsSurvive(cfg, plan, Followup, c, d, audit, p);
    DigestsBind(cfg, PatchText(mission, ops, Preview(repo, ops)), PatchText(mission', ops', Preview(repo', ops')));
  }

  lemma DigestsBind(cfg: Config, x: Material, y: Material)
    requires HashingSound(cfg) && cfg.sha(x) == cfg.sha(y)
    ensures x == y
  {
    assert !Collides(cfg, x, y);
  }
}
