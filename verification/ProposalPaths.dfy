/** Repository-relative paths of an action proposal. */
module ProposalPaths {
  import opened Common
  import opened Text

  function Slashes(s: string): string {
    seq(|s|, i requires 0 <= i < |s| => if s[i] == '\\' then '/' else s[i])
  }

  predicate IsLetter(c: char) { 'a' <= c <= 'z' || 'A' <= c <= 'Z' }

  /** `C:/…` */
  predicate HasDrive(s: string) {
    |s| >= 3 && IsLetter(s[0]) && s[1] == ':' && s[2] == '/'
  }

  /** The text behind all leading `./`. */
  function DropDots(s: string): string {
    if StartsWith(s, "./") then DropDots(s[2..]) else s
  }

  function Split(s: string): (r: seq<string>)
    ensures |r| >= 1
  {
    if s == "" then [""]
    else
      var rest := Split(s[1..]);
      if s[0] == '/' then [""] + rest else [[s[0]] + rest[0]] + rest[1..]
  }

  predicate PartOk(part: string) {
    part != "" && part != "." && part != ".."
  }

  /** No empty, `.` or `..` segment. */
  predicate Plain(s: string) {
    forall i :: 0 <= i < |Split(s)| ==> PartOk(Split(s)[i])
  }

  predicate Rooted(s: string) {
    s == "" || StartsWith(s, "/") || HasDrive(s)
  }

  /** normalize_relative_path on text. */
  function Normalize(raw: string): Option<string> {
    var value := Slashes(Strip(raw));
    if Rooted(value) then None
    else
      var rest := DropDots(value);
      if rest == "." then Some(".")
      else if Plain(rest) then Some(rest)
      else None
  }

  /** The same with the source's loops. */
  method NormalizePath(raw: string) returns (r: Option<string>)
    ensures r == Normalize(raw)
    ensures AcceptedForm(r)
  {
    NormalOrRefused(raw);
    hide NormalForm, AcceptedForm;
    hide Strip, Slashes, Rooted, Split;
    var value := Slashes(Strip(raw));
    if Rooted(value) { return None; }
    ghost var start := value;
    while StartsWith(value, "./")
      invariant DropDots(value) == DropDots(start)
      decreases |value|
    {
      value := value[2..];
    }
    if value == "." { return Some("."); }
    var parts := Split(value);
    for i := 0 to |parts|
      invariant forall j :: 0 <= j < i ==> PartOk(parts[j])
    {
      if !PartOk(parts[i]) { return None; }
    }
    r := Some(value);
  }

  // ---------------------------------------------------------------- normalising twice

  lemma {:induction false} DropDotsShape(s: string)
    ensures |DropDots(s)| <= |s| && DropDots(s) == s[|s| - |DropDots(s)|..]
  {
    if StartsWith(s, "./") { DropDotsShape(s[2..]); }
  }

  lemma PlainIsNotRooted(s: string)
    requires Plain(s)
    ensures s != "" && !StartsWith(s, "/")
  {
    assert PartOk(Split(s)[0]);
  }

  lemma DotsAreNotPlain(s: string)
    requires StartsWith(s, "./")
    ensures !Plain(s)
  {
    assert s[0] == '.' && s[1..][0] == '/';
    assert Split(s[1..])[0] == "";
    assert Split(s)[0] == ".";
    assert !PartOk(Split(s)[0]);
  }

  predicate Trimmed(s: string) {
    s != "" && !IsSpace(s[0]) && !IsSpace(s[|s| - 1])
  }

  lemma StripShape(s: string)
    ensures Strip(s) != "" ==> Trimmed(Strip(s))
  {
    hide StripLeft, StripRight;
    var left := StripLeft(s);
    var r := StripRight(left);
    if r != "" { assert r[0] == left[0]; }
  }

  /** A plain text without outer white space and backslashes is accepted as it is, unless it
      looks like a drive. */
  lemma PlainIsKept(s: string)
    requires Trimmed(s) && '\\' !in s && (s == "." || Plain(s))
    ensures Normalize(s) == if HasDrive(s) then None else Some(s)
  {
    hide Split;
    assert Strip(s) == s;
    hide Strip;
    assert Slashes(s) == s;
    hide Slashes;
    if s != "." {
      PlainIsNotRooted(s);
      if StartsWith(s, "./") { DotsAreNotPlain(s); }
    }
    assert DropDots(s) == s;
    hide DropDots, Plain;
  }

  /** Where a leading `./` is stripped, what follows it is not looked at again: it may begin
      with a space or look like a drive. */
  predicate Uncovers(raw: string) {
    var value := Slashes(Strip(raw));
    var rest := DropDots(value);
    rest != value && rest != "" && (IsSpace(rest[0]) || HasDrive(rest))
  }

  /** Normalising is idempotent on exactly the accepted inputs that uncover nothing. */
  lemma NormalizeTwiceIff(raw: string)
    requires Normalize(raw).Some?
    ensures Normalize(Normalize(raw).value) == Normalize(raw) <==> !Uncovers(raw)
  {
    ValueShape(raw);
    var rest := Normalize(raw).value;
    if IsSpace(rest[0]) { SpaceIsDropped(rest); } else { PlainIsKept(rest); }
    hide Normalize, Strip, Slashes, DropDots, Plain;
  }

  /** What is left of the value after its checks. */
  lemma ValueShape(raw: string)
    requires Normalize(raw).Some?
    ensures
      var value := Slashes(Strip(raw));
      var rest := DropDots(value);
      && Normalize(raw) == Some(rest) && rest != "" && '\\' !in rest && !IsSpace(rest[|rest| - 1])
      && (rest == "." || Plain(rest))
      && (rest == value ==> !IsSpace(rest[0]) && !HasDrive(rest))
  {
    hide Strip, Split, DropDots;
    var value := Slashes(Strip(raw));
    var rest := DropDots(value);
    StripShape(raw);
    DropDotsShape(value);
    if rest != "." { PlainIsNotRooted(rest); }
    assert rest[|rest| - 1] == value[|value| - 1];
  }

  lemma SpaceIsDropped(s: string)
    requires s != "" && IsSpace(s[0])
    ensures Normalize(s) != Some(s)
  {
    hide Split, DropDots;
    assert |Strip(s)| <= |StripLeft(s)| < |s|;
    DropDotsShape(Slashes(Strip(s)));
  }

  /** Not idempotent: a drive behind `./` is let through once and refused the second time. */
  lemma NormalizeIsNotIdempotent(path: string)
    requires Plain(path) && HasDrive(path) && Trimmed(path) && '\\' !in path
    ensures Normalize("./" + path) == Some(path) && Normalize(path) == None
  {
    PlainIsKept(path);
    var s := "./" + path;
    hide Split, Plain;
    DottedIsUntouched(path);
    hide Strip, Slashes;
    assert s[2..] == path;
    assert DropDots(s) == DropDots(path) == path;
  }

  lemma DottedIsUntouched(path: string)
    requires Trimmed(path) && '\\' !in path
    ensures Slashes(Strip("./" + path)) == "./" + path
  {
    var s := "./" + path;
    assert Trimmed(s) by { assert s[0] == '.' && s[|s| - 1] == path[|path| - 1]; }
    hide StripLeft, StripRight;
    assert Strip(s) == s;
    hide Strip;
    assert forall i :: 0 <= i < |s| ==> s[i] != '\\' by {
      forall i | 0 <= i < |s| ensures s[i] != '\\' { if i >= 2 { assert s[i] == path[i - 2]; } }
    }
  }

  /** For instance "./C:/x". */
  lemma DriveIsPlain()
    ensures Plain("C:/x") && HasDrive("C:/x") && Trimmed("C:/x") && '\\' !in "C:/x"
  {
    hide Plain;
    assert Split("") == [""];
    SplitStep("x", "");
    SplitStep("/x", "x");
    SplitStep(":/x", "/x");
    SplitStep("C:/x", ":/x");
    hide Split;
    assert Split("x")[0] == "x" && Split("/x")[0] == "" && Split("/x")[1] == "x";
    assert Split(":/x")[0] == ":" && Split(":/x")[1] == "x";
    assert Split("C:/x")[0] == "C:" && Split("C:/x")[1] == "x" && |Split("C:/x")| == 2;
    PlainBySplit("C:/x");
  }

  lemma SplitStep(s: string, rest: string)
    requires s != "" && s[1..] == rest
    ensures Split(s) == if s[0] == '/' then [""] + Split(rest) else [[s[0]] + Split(rest)[0]] + Split(rest)[1..]
  {
  }

  lemma PlainBySplit(s: string)
    requires forall i :: 0 <= i < |Split(s)| ==> PartOk(Split(s)[i])
    ensures Plain(s)
  {
  }

  // ---------------------------------------------------------------- the normal form, on the text

  /** What a normal path looks like, character by character. */
  predicate NormalForm(v: string) {
    && v != "" && v != "." && v != ".."
    && !StartsWith(v, "/") && !StartsWith(v, "./") && !StartsWith(v, "../")
    && !EndsWith(v, "/") && !EndsWith(v, "/.") && !EndsWith(v, "/..")
    && !Contains(v, "//") && !Contains(v, "/./") && !Contains(v, "/../")
    && '\\' !in v
  }

  lemma {:induction false} SplitWhole(h: string)
    requires '/' !in h
    ensures Split(h) == [h]
  {
    if h != "" {
      assert h == [h[0]] + h[1..];
      SplitWhole(h[1..]);
    }
  }

  lemma {:induction false} SplitHead(h: string, t: string)
    requires '/' !in h
    ensures Split(h + "/" + t) == [h] + Split(t)
  {
    var s := h + "/" + t;
    if h == "" {
      assert s[1..] == t;
    } else {
      assert s[1..] == h[1..] + "/" + t && h == [h[0]] + h[1..];
      SplitHead(h[1..], t);
    }
  }

  function Bordered(s: string): string { "/" + s + "/" }

  lemma FirstOccurrence(h: string, x: string, t: string)
    requires '/' !in h && '/' !in x
    ensures OccursAt("/" + h + "/" + t, Bordered(x), 0) <==> h == x
  {
    var s := "/" + h + "/" + t;
    if h == x { assert s[..|x| + 2] == Bordered(x); }
    if OccursAt(s, Bordered(x), 0) {
      assert forall i :: 0 <= i < |x| + 2 ==> s[i] == Bordered(x)[i];
      assert s[|h| + 1] == '/' && Bordered(x)[|x| + 1] == '/';
      assert forall i :: 0 <= i < |x| ==> s[i + 1] == x[i];
      assert forall i :: 0 <= i < |h| ==> s[i + 1] == h[i];
      assert h == s[1..|h| + 1] && x == Bordered(x)[1..|x| + 1];
    }
  }

  /** A segment is what stands between two slashes. */
  lemma {:induction false} SegmentOccurs(s: string, x: string)
    requires '/' !in x
    ensures Contains(Bordered(s), Bordered(x)) <==> x in Split(s)
    decreases |s|
  {
    if '/' !in s {
      SplitWhole(s);
      FirstOccurrence(s, x, "");
      assert Bordered(s) == "/" + s + "/" + "";
      assert forall i :: 0 < i <= |s| ==> Bordered(s)[i] == s[i - 1];
      assert forall i :: OccursAt(Bordered(s), Bordered(x), i) ==> Bordered(s)[i..][0] == Bordered(x)[0] == '/';
    } else {
      var h, t := FirstSlash(s);
      SplitHead(h, t);
      FirstOccurrence(h, x, t + "/");
      assert Bordered(s) == "/" + h + "/" + (t + "/") == ("/" + h) + Bordered(t);
      LaterOccurrence(h, t, x);
      SegmentOccurs(t, x);
    }
  }

  lemma {:induction false} FirstSlash(s: string) returns (h: string, t: string)
    requires '/' in s
    ensures s == h + "/" + t && '/' !in h
  {
    if s[0] == '/' {
      h, t := "", s[1..];
    } else {
      assert s == [s[0]] + s[1..];
      h, t := FirstSlash(s[1..]);
      h := [s[0]] + h;
    }
  }

  lemma LaterOccurrence(h: string, t: string, x: string)
    requires '/' !in h && '/' !in x
    ensures Contains("/" + h + Bordered(t), Bordered(x)) <==>
      OccursAt("/" + h + Bordered(t), Bordered(x), 0) || Contains(Bordered(t), Bordered(x))
  {
    var s, y := "/" + h + Bordered(t), Bordered(x);
    assert forall j :: 0 < j <= |h| ==> s[j] == h[j - 1];
    if Contains(s, y) && !OccursAt(s, y, 0) {
      var i :| 0 <= i <= |s| && OccursAt(s, y, i);
      assert s[i] == y[0] == '/';
      var k := i - |h| - 1;
      assert s[i..i + |y|] == Bordered(t)[k..k + |y|];
      assert OccursAt(Bordered(t), y, k);
    }
    if Contains(Bordered(t), y) {
      ContainsInside("/" + h, Bordered(t), "", y);
      assert "/" + h + Bordered(t) + "" == s;
    }
  }

  /** Where such a segment can stand. */
  lemma SegmentStands(v: string, x: string)
    ensures Contains(Bordered(v), Bordered(x)) <==>
      v == x || StartsWith(v, x + "/") || EndsWith(v, "/" + x) || Contains(v, "/" + x + "/")
  {
    var s, y := Bordered(v), Bordered(x);
    if Contains(s, y) {
      var i :| 0 <= i <= |s| && OccursAt(s, y, i);
      SegmentFrom(v, x, i);
    }
    if v == x { assert OccursAt(s, y, 0); }
    if StartsWith(v, x + "/") {
      assert s[..|y|] == "/" + v[..|x| + 1];
      assert OccursAt(s, y, 0);
    }
    if EndsWith(v, "/" + x) {
      assert s[|s| - |y|..|s|] == v[|v| - |x| - 1..] + "/";
      assert OccursAt(s, y, |s| - |y|);
    }
    if Contains(v, y) { ContainsInside("/", v, "/", y); }
  }

  lemma SegmentFrom(v: string, x: string, i: nat)
    requires OccursAt(Bordered(v), Bordered(x), i)
    ensures v == x || StartsWith(v, x + "/") || EndsWith(v, "/" + x) || Contains(v, "/" + x + "/")
  {
    var s, y := Bordered(v), Bordered(x);
    assert forall j :: 0 <= j < |y| ==> y[j] == s[i + j];
    assert y[1..] == x + "/" && y[..|x| + 1] == "/" + x;
    if i == 0 && |x| == |v| {
      assert v == s[1..|v| + 1] && x == y[1..|x| + 1];
    } else if i == 0 {
      assert v[..|x| + 1] == s[1..|x| + 2] == y[1..];
    } else if i + |y| == |s| {
      assert v[|v| - |x| - 1..] == s[i..|s| - 1] == y[..|x| + 1];
    } else {
      assert v[i - 1..i - 1 + |y|] == s[i..i + |y|];
      assert OccursAt(v, y, i - 1);
    }
  }

  /** Segments in order, told on the text. */
  lemma PlainIsNormalForm(v: string)
    requires '\\' !in v
    ensures NormalForm(v) <==> Plain(v)
  {
    SegmentOccurs(v, "");
    SegmentOccurs(v, ".");
    SegmentOccurs(v, "..");
    SegmentStands(v, "");
    SegmentStands(v, ".");
    SegmentStands(v, "..");
    assert "" + "/" == "/" && "/" + "" == "/" && "/" + "" + "/" == "//";
    assert "." + "/" == "./" && "/" + "." == "/." && "/" + "." + "/" == "/./";
    assert ".." + "/" == "../" && "/" + ".." == "/.." && "/" + ".." + "/" == "/../";
    PlainMeansNone(v);
    hide Split, Plain, Contains, StartsWith, EndsWith, Bordered;
  }

  lemma PlainMeansNone(v: string)
    ensures Plain(v) <==> "" !in Split(v) && "." !in Split(v) && ".." !in Split(v)
  {
    hide Split;
  }

  function Dots(n: nat): string { if n == 0 then "" else "./" + Dots(n - 1) }

  /** Some `./` and then v. */
  ghost predicate DotsThen(value: string, v: string) {
    exists n :: value == Dots(n) + v
  }

  lemma {:induction false} DropDotsIsExact(value: string, v: string)
    ensures DropDots(value) == v <==> !StartsWith(v, "./") && DotsThen(value, v)
  {
    hide DotsThen;
    if StartsWith(value, "./") {
      DropDotsIsExact(value[2..], v);
      if !StartsWith(v, "./") { DottedStep(value, v); }
    } else {
      UndottedIsAll(value, v);
    }
  }

  lemma DottedStep(value: string, v: string)
    requires StartsWith(value, "./") && !StartsWith(v, "./")
    ensures DotsThen(value, v) <==> DotsThen(value[2..], v)
  {
    hide Dots;
    if DotsThen(value, v) {
      var n: nat :| value == Dots(n) + v;
      DotsStep(n, v);
      assert value[2..] == Dots(n - 1) + v;
    }
    if DotsThen(value[2..], v) {
      var n: nat :| value[2..] == Dots(n) + v;
      DotsStep(n + 1, v);
      assert value == "./" + value[2..];
      assert value == Dots(n + 1) + v;
    }
  }

  lemma UndottedIsAll(value: string, v: string)
    requires !StartsWith(value, "./")
    ensures DotsThen(value, v) <==> value == v
  {
    hide Dots;
    DotsStep(0, v);
    if DotsThen(value, v) {
      var n: nat :| value == Dots(n) + v;
      DotsStep(n, v);
    }
  }

  lemma DotsStep(n: nat, v: string)
    ensures n == 0 ==> Dots(n) + v == v
    ensures n > 0 ==> Dots(n) + v == "./" + (Dots(n - 1) + v)
    ensures n > 0 ==> StartsWith(Dots(n) + v, "./") && (Dots(n) + v)[2..] == Dots(n - 1) + v
  {
  }

  /** The answer on every text: let `value` be the stripped text with slashes for backslashes.
      It is accepted as v exactly if it is not empty, not rooted and no drive, and consists of
      some `./` and a v that is `.` or in normal form. */
  lemma NormalizeIsExact(raw: string, value: string, v: string)
    requires |value| == |Strip(raw)|
    requires forall i :: 0 <= i < |value| ==> value[i] == if Strip(raw)[i] == '\\' then '/' else Strip(raw)[i]
    ensures Normalize(raw) == Some(v) <==>
      && value != "" && value[0] != '/'
      && !(|value| >= 3 && ('a' <= value[0] <= 'z' || 'A' <= value[0] <= 'Z') && value[1] == ':' && value[2] == '/')
      && DotsThen(value, v) && (v == "." || NormalForm(v))
  {
    hide Strip, Slashes, Rooted, Normalize, NormalForm, Plain, DropDots, DotsThen;
    SlashesIs(Strip(raw), value);
    RootedIff(value);
    NormalizeByParts(raw, v);
    DropDotsIsExact(value, v);
    NormalHasNoDots(v);
    if DropDots(value) == v {
      DropDotsShape(value);
      SuffixLacks(value, |value| - |v|);
      PlainIsNormalForm(v);
    }
  }

  lemma SlashesIs(s: string, value: string)
    requires |value| == |s| && forall i :: 0 <= i < |value| ==> value[i] == if s[i] == '\\' then '/' else s[i]
    ensures value == Slashes(s) && '\\' !in value
  {
  }

  lemma RootedIff(value: string)
    ensures Rooted(value) <==>
      || value == "" || value[0] == '/'
      || (|value| >= 3 && ('a' <= value[0] <= 'z' || 'A' <= value[0] <= 'Z') && value[1] == ':' && value[2] == '/')
  {
  }

  lemma SuffixLacks(s: string, k: nat)
    requires k <= |s| && '\\' !in s
    ensures '\\' !in s[k..]
  {
  }

  lemma NormalizeByParts(raw: string, v: string)
    ensures
      var value := Slashes(Strip(raw));
      Normalize(raw) == Some(v) <==> !Rooted(value) && DropDots(value) == v && (v == "." || Plain(v))
  {
    hide Strip, Slashes, Rooted, DropDots, Plain;
  }

  lemma NormalHasNoDots(v: string)
    ensures v == "." || NormalForm(v) ==> !StartsWith(v, "./")
  {
    hide Contains;
  }

  predicate AcceptedForm(r: Option<string>) {
    r.None? || r.value == "." || NormalForm(r.value)
  }

  lemma NormalOrRefused(raw: string)
    ensures AcceptedForm(Normalize(raw))
  {
    hide Normalize, NormalForm;
    if Normalize(raw).Some? { AcceptedIsNormal(raw); }
  }

  /** An accepted path never leaves the repository: it is `.` or a normal path. */
  lemma AcceptedIsNormal(raw: string)
    requires Normalize(raw).Some?
    ensures Normalize(raw) == Some(".") || NormalForm(Normalize(raw).value)
  {
    hide NormalForm, Strip;
    NormalizeIsExact(raw, Slashes(Strip(raw)), Normalize(raw).value);
  }

  /** And every normal path is accepted as it is, unless white space surrounds it or it looks
      like a drive. */
  lemma NormalIsAccepted(v: string)
    requires v == "." || NormalForm(v)
    requires !IsSpace(v[0]) && !IsSpace(v[|v| - 1])
    ensures Normalize(v) == if HasDrive(v) then None else Some(v)
  {
    hide Split, Plain;
    PlainIsNormalForm(v);
    PlainIsKept(v);
  }
}
