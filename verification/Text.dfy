/** The string operations of the source that later modules reason about. */
module Text {

  predicate IsSpace(c: char) {
    c == ' ' || c == '\t' || c == '\n' || c == '\r' || c == '\U{0B}' || c == '\U{0C}'
  }

  /** ASCII white space: codes 9 to 13 and 32. */
  lemma WhiteSpaceIs(c: char)
    ensures IsSpace(c) <==> c as int == 32 || 9 <= c as int <= 13
  {
  }

  function StripLeft(s: string): (r: string)
    ensures r != "" ==> !IsSpace(r[0])
    ensures |r| <= |s| && r == s[|s| - |r|..]
    ensures s != "" && !IsSpace(s[0]) ==> r == s
  {
    if s != "" && IsSpace(s[0]) then
      var r := StripLeft(s[1..]);
      assert s[1..][|s| - 1 - |r|..] == s[|s| - |r|..];
      r
    else
      assert s[0..] == s;
      s
  }

  function StripRight(s: string): (r: string)
    ensures r != "" ==> !IsSpace(r[|r| - 1])
    ensures |r| <= |s| && r == s[..|r|]
    ensures s != "" && !IsSpace(s[|s| - 1]) ==> r == s
  {
    if s != "" && IsSpace(s[|s| - 1]) then
      var r := StripRight(s[..|s| - 1]);
      assert s[..|s| - 1][..|r|] == s[..|r|];
      r
    else
      assert s[..|s|] == s;
      s
  }

  /** The text without surrounding white space. */
  function Strip(s: string): string {
    StripRight(StripLeft(s))
  }

  predicate StartsWith(s: string, prefix: string) {
    |prefix| <= |s| && s[..|prefix|] == prefix
  }

  predicate EndsWith(s: string, suffix: string) {
    |suffix| <= |s| && s[|s| - |suffix|..] == suffix
  }

  predicate OccursAt(s: string, part: string, i: int) {
    0 <= i && i + |part| <= |s| && s[i..i + |part|] == part
  }

  /** Python's `part in s`. */
  predicate Contains(s: string, part: string) {
    exists i | 0 <= i <= |s| :: OccursAt(s, part, i)
  }

  /** An occurrence survives whatever is put around the text. */
  lemma ContainsInside(before: string, s: string, after: string, part: string)
    requires Contains(s, part)
    ensures Contains(before + s + after, part)
  {
    var i :| 0 <= i <= |s| && OccursAt(s, part, i);
    var whole := before + s + after;
    assert whole[|before| + i..|before| + i + |part|] == s[i..i + |part|];
    assert OccursAt(whole, part, |before| + i);
  }

  // ---------------------------------------------------------------- what stripping leaves

  predicate Blank(s: string) {
    forall i :: 0 <= i < |s| ==> IsSpace(s[i])
  }

  lemma {:induction false} StripLeftCuts(s: string)
    ensures Blank(s[..|s| - |StripLeft(s)|])
  {
    if s != "" && IsSpace(s[0]) {
      StripLeftCuts(s[1..]);
      var n := |s| - |StripLeft(s)|;
      forall i | 0 <= i < n ensures IsSpace(s[i]) {
        if i > 0 { assert s[i] == s[1..][..n - 1][i - 1]; }
      }
    }
  }

  lemma {:induction false} StripRightCuts(s: string)
    ensures Blank(s[|StripRight(s)|..])
  {
    if s != "" && IsSpace(s[|s| - 1]) {
      var front, n := s[..|s| - 1], |StripRight(s)|;
      StripRightCuts(front);
      forall i | n <= i < |s| ensures IsSpace(s[i]) {
        if i < |front| { assert s[i] == front[n..][i - n]; }
      }
    }
  }

  /** Stripping cuts white space, all of it, and nothing else. */
  lemma StripIsExact(s: string, front: string, r: string, back: string)
    requires s == front + r + back && Blank(front) && Blank(back)
    requires r != "" ==> !IsSpace(r[0]) && !IsSpace(r[|r| - 1])
    ensures Strip(s) == r
  {
    hide StripLeft, StripRight;
    assert s == front + (r + back);
    SkipLeft(front, r + back);
    TailIsStripped(r, back);
    hide IsSpace;
  }

  lemma TailIsStripped(r: string, back: string)
    requires Blank(back) && (r != "" ==> !IsSpace(r[0]) && !IsSpace(r[|r| - 1]))
    ensures StripRight(StripLeft(r + back)) == r
  {
    hide StripLeft, StripRight;
    if r == "" {
      assert r + back == back;
      BlankIsStripped(back);
    } else {
      NonBlankStays(r, back);
      SkipRight(r, back);
      NonBlankStaysRight(r);
    }
  }

  lemma NonBlankStays(r: string, back: string)
    requires r != "" && !IsSpace(r[0])
    ensures StripLeft(r + back) == r + back
  {
    assert (r + back)[0] == r[0];
  }

  lemma NonBlankStaysRight(r: string)
    requires r != "" && !IsSpace(r[|r| - 1])
    ensures StripRight(r) == r
  {
  }

  lemma {:induction false} SkipLeft(front: string, rest: string)
    requires Blank(front)
    ensures StripLeft(front + rest) == StripLeft(rest)
  {
    if front == "" {
      assert front + rest == rest;
    } else {
      assert (front + rest)[1..] == front[1..] + rest;
      SkipLeft(front[1..], rest);
    }
  }

  lemma {:induction false} SkipRight(rest: string, back: string)
    requires Blank(back)
    ensures StripRight(rest + back) == StripRight(rest)
  {
    if back == "" {
      assert rest + back == rest;
    } else {
      var n := |back| - 1;
      assert (rest + back)[..|rest| + n] == rest + back[..n];
      SkipRight(rest, back[..n]);
    }
  }

  lemma BlankIsStripped(s: string)
    requires Blank(s)
    ensures Strip(s) == ""
  {
    SkipLeft(s, "");
    assert s + "" == s;
  }

  /** Every text falls into what stripping leaves and what it cuts. */
  lemma StripParts(s: string) returns (front: string, back: string)
    ensures s == front + Strip(s) + back && Blank(front) && Blank(back)
    ensures Strip(s) != "" ==> !IsSpace(Strip(s)[0]) && !IsSpace(Strip(s)[|Strip(s)| - 1])
  {
    hide StripLeft, StripRight, IsSpace;
    var left := StripLeft(s);
    var r := StripRight(left);
    StripLeftCuts(s);
    StripRightCuts(left);
    front, back := s[..|s| - |left|], left[|r|..];
    Rejoin(s, front, left, r, back);
    if r != "" { assert r[0] == left[0]; }
  }

  lemma Rejoin(s: string, front: string, left: string, r: string, back: string)
    requires |front| + |left| == |s| && s[..|front|] == front && s[|front|..] == left
    requires |r| + |back| == |left| && left[..|r|] == r && left[|r|..] == back
    ensures s == front + r + back
  {
    assert s == front + left && left == r + back;
  }
}
