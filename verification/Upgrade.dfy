/** The managed upgrade: fetch, checkout, state file, marker, health check, and a rollback
    branch. Every external action may go through, raise, or be the last thing before the
    process is killed; a checkout that raises (a timeout, say) may have moved HEAD. */
module Upgrade {
  import opened Common

  // ---------------------------------------------------------------- versions

  datatype Version = Version(major: nat, minor: nat, patch: nat)

  predicate Below(a: Version, b: Version) {
    || a.major < b.major
    || (a.major == b.major && a.minor < b.minor)
    || (a.major == b.major && a.minor == b.minor && a.patch < b.patch)
  }

  predicate IsDigit(c: char) { '0' <= c <= '9' }

  function DigitValue(c: char): nat
    requires IsDigit(c)
  {
    c as int - '0' as int
  }

  predicate IsNumber(s: string) {
    s != "" && forall i :: 0 <= i < |s| ==> IsDigit(s[i])
  }

  function Number(s: string): nat
    requires forall i :: 0 <= i < |s| ==> IsDigit(s[i])
  {
    if s == "" then 0 else 10 * Number(s[..|s| - 1]) + DigitValue(s[|s| - 1])
  }

  function Decimal(n: nat): (r: string)
    ensures IsNumber(r) && Number(r) == n
  {
    var digit := '0' + (n % 10) as char;
    if n < 10 then
      assert [digit][..0] == "";
      [digit]
    else
      var front := Decimal(n / 10);
      assert (front + [digit])[..|front|] == front;
      front + [digit]
  }

  /** The position of the first dot. */
  function Dot(s: string): (r: Option<nat>)
    ensures r.Some? ==> r.value < |s| && s[r.value] == '.' && '.' !in s[..r.value]
    ensures r.None? ==> '.' !in s
  {
    if s == "" then None
    else if s[0] == '.' then Some(0)
    else
      var rest := Dot(s[1..]);
      if rest.None? then None
      else
        assert s[..rest.value + 1] == [s[0]] + s[1..][..rest.value];
        Some(rest.value + 1)
  }

  /** parse_version: exactly vMAJOR.MINOR.PATCH. */
  function ParseVersion(s: string): Option<Version> {
    if s == "" || s[0] != 'v' then None else
    var body := s[1..];
    var first := Dot(body);
    if first.None? then None else
    var tail := body[first.value + 1..];
    var second := Dot(tail);
    if second.None? then None else
    var (a, b, c) := (body[..first.value], tail[..second.value], tail[second.value + 1..]);
    if IsNumber(a) && IsNumber(b) && IsNumber(c) then Some(Version(Number(a), Number(b), Number(c))) else None
  }

  function ShowVersion(v: Version): string {
    "v" + Decimal(v.major) + "." + Decimal(v.minor) + "." + Decimal(v.patch)
  }

  lemma {:induction false} DotAfter(a: string, rest: string)
    requires '.' !in a
    ensures Dot(a + "." + rest) == Some(|a|)
  {
    if a == "" {
      assert a + "." + rest == "." + rest;
    } else {
      assert (a + "." + rest)[1..] == a[1..] + "." + rest;
      DotAfter(a[1..], rest);
    }
  }

  /** Every version is the reading of its own spelling. */
  lemma ParseShow(v: Version)
    ensures ParseVersion(ShowVersion(v)) == Some(v)
  {
    var a, b, c := Decimal(v.major), Decimal(v.minor), Decimal(v.patch);
    hide Decimal, Number, Dot;
    var s, tail := ShowVersion(v), b + "." + c;
    assert s[1..] == a + "." + tail;
    DotAfter(a, tail);
    DotAfter(b, c);
    assert s[1..][..|a|] == a && s[1..][|a| + 1..] == tail;
    assert tail[..|b|] == b && tail[|b| + 1..] == c;
  }

  // ---------------------------------------------------------------- the installation

  /** `rest` stands for the entries that an upgrade copies unread. */
  datatype Managed = Managed(version: string, commit: string, previousVersion: string, previousCommit: string, rest: string)

  datatype Marker = Marker(version: string, commit: string, rest: string)

  /** The checkout, the state file and the marker file. */
  datatype Install = Install(head: string, state: File<Managed>, marker: File<Marker>)

  datatype Point =
    | Fetch | Resolve | Checkout | ReadHead | ReadTag | SaveState | LoadMarker | SaveMarker | Inspect
    | BackCheckout | BackState | BackLoadMarker | BackMarker

  /** `moved`: a raising checkout nevertheless left HEAD at its target. */
  datatype Event = Goes | Breaks(moved: bool) | Dies

  /** What the outside does during one call: an event per external action, the commit behind
      the target tag, the tags git describes commits by before and after the fetch, and the
      health checks that concern neither HEAD nor tag. */
  datatype World = World(
    at: Point -> Event, commit: string, tagBefore: string -> Option<string>, tagAfter: string -> Option<string>,
    soundBefore: bool, soundAfter: bool)

  datatype Request = Request(target: string, network: bool, confirmed: bool, token: string)

  datatype Ending = Upgraded | Blocked | Failed | RollbackFailed | Killed

  const Token: string := "UPGRADE_KONOHA_INSTALL"

  /** inspect_state's verdict on a state. */
  predicate Healthy(head: string, state: Managed, tagOf: string -> Option<string>, sound: bool) {
    sound && head == state.commit && tagOf(head) == Some(state.version)
  }

  /** Every check made before the first command. */
  predicate Admitted(i: Install, request: Request, w: World) {
    && i.state.Doc? && i.marker.Doc?
    && ParseVersion(i.state.value.version).Some? && ParseVersion(request.target).Some?
    && Below(ParseVersion(i.state.value.version).value, ParseVersion(request.target).value)
    && request.network && request.confirmed && request.token == Token
    && Healthy(i.head, i.state.value, w.tagBefore, w.soundBefore)
  }

  function TargetState(before: Managed, target: string, commit: string): Managed {
    before.(version := target, commit := commit, previousVersion := before.version, previousCommit := before.commit)
  }

  function Restamped(marker: File<Marker>, version: string, commit: string): File<Marker> {
    if marker.Doc? then Doc(marker.value.(version := version, commit := commit)) else marker
  }

  /** How the guarded part of an upgrade ends. */
  datatype Attempt = Done | Raised(checkedOut: bool) | Gone

  /** An external action that changes nothing by itself. */
  function Only(e: Event): Attempt {
    match e
    case Goes => Done
    case Breaks(_) => Raised(true)
    case Dies => Gone
  }

  function TryMarker(i: Install, state: Managed, w: World): (Install, Attempt) {
    if !w.at(LoadMarker).Goes? then (i, Only(w.at(LoadMarker)))
    else if !i.marker.Doc? then (i, Raised(true))
    else if !w.at(SaveMarker).Goes? then (i, Only(w.at(SaveMarker)))
    else
      var i' := i.(marker := Restamped(i.marker, state.version, state.commit));
      if !w.at(Inspect).Goes? then (i', Only(w.at(Inspect)))
      else (i', if Healthy(i'.head, state, w.tagAfter, w.soundAfter) then Done else Raised(true))
  }

  function TryState(i: Install, state: Managed, w: World): (Install, Attempt) {
    if !w.at(ReadHead).Goes? then (i, Only(w.at(ReadHead)))
    else if !w.at(ReadTag).Goes? then (i, Only(w.at(ReadTag)))
    else if i.head != state.commit || w.tagAfter(i.head) != Some(state.version) then (i, Raised(true))
    else if !w.at(SaveState).Goes? then (i, Only(w.at(SaveState)))
    else TryMarker(i.(state := Doc(state)), state, w)
  }

  /** The guarded part: everything under the try. */
  function Try(i: Install, state: Managed, w: World): (Install, Attempt) {
    match w.at(Checkout)
    case Dies => (i, Gone)
    case Breaks(moved) => (if moved then i.(head := state.commit) else i, Raised(false))
    case Goes => TryState(i.(head := state.commit), state, w)
  }

  /** The rollback branch. */
  function RollBack(i: Install, before: Managed, w: World): (Install, Ending) {
    match w.at(BackCheckout)
    case Dies => (i, Killed)
    case Breaks(moved) => (if moved then i.(head := before.commit) else i, RollbackFailed)
    case Goes =>
      var i' := i.(head := before.commit);
      if !w.at(BackState).Goes? then (i', if w.at(BackState).Dies? then Killed else RollbackFailed)
      else
        var i'' := i'.(state := Doc(before));
        if w.at(BackLoadMarker).Dies? || (w.at(BackLoadMarker).Goes? && i''.marker.Doc? && w.at(BackMarker).Dies?)
        then (i'', Killed)
        else if !w.at(BackLoadMarker).Goes? || !i''.marker.Doc? || !w.at(BackMarker).Goes? then (i'', RollbackFailed)
        else (i''.(marker := Restamped(i''.marker, before.version, before.commit)), Failed)
  }

  function Perform(i: Install, request: Request, w: World): (Install, Ending) {
    if !Admitted(i, request, w) then (i, Blocked)
    else if w.at(Fetch).Dies? || (w.at(Fetch).Goes? && w.at(Resolve).Dies?) then (i, Killed)
    else if !w.at(Fetch).Goes? || !w.at(Resolve).Goes? then (i, Failed)
    else
      var before := i.state.value;
      var (i', attempt) := Try(i, TargetState(before, request.target, w.commit), w);
      match attempt
      case Done => (i', Upgraded)
      case Gone => (i', Killed)
      case Raised(checkedOut) => if checkedOut then RollBack(i', before, w) else (i', Failed)
  }

  // ---------------------------------------------------------------- all or nothing

  /** HEAD and state file are where they were. */
  predicate Intact(i: Install, i': Install) {
    i'.head == i.head && i'.state == i.state
  }

  /** HEAD, state file and marker are all at the target. */
  predicate AtTarget(i: Install, i': Install, request: Request, w: World) {
    && i.state.Doc? && i'.head == w.commit
    && i'.state == Doc(TargetState(i.state.value, request.target, w.commit))
    && i'.marker == Restamped(i.marker, request.target, w.commit)
  }

  /** A call that reports success has moved all three files to a strictly newer version, and
      the installation is healthy there. */
  lemma SuccessIsComplete(i: Install, request: Request, w: World)
    requires Perform(i, request, w).1.Upgraded?
    ensures
      var i' := Perform(i, request, w).0;
      && AtTarget(i, i', request, w)
      && Below(ParseVersion(i.state.value.version).value, ParseVersion(i'.state.value.version).value)
      && Healthy(i'.head, i'.state.value, w.tagAfter, true)
  {
  }

  /** Did the try part get as far as writing the state file? */
  predicate Saved(i: Install, request: Request, w: World) {
    && w.at(Checkout).Goes? && w.at(ReadHead).Goes? && w.at(ReadTag).Goes? && w.at(SaveState).Goes?
    && w.tagAfter(w.commit) == Some(request.target)
  }

  /** The faults that a failed call cannot undo: a checkout that raises after moving HEAD,
      a return checkout that leaves HEAD behind, and, once the state file was written, any
      fault before it is written back. */
  predicate Harmful(i: Install, request: Request, w: World) {
    && i.state.Doc? && Admitted(i, request, w) && w.at(Fetch).Goes? && w.at(Resolve).Goes?
    && (|| (w.at(Checkout) == Breaks(true) && w.commit != i.state.value.commit)
        || (w.at(Checkout).Goes? && w.at(BackCheckout) == Breaks(false) && w.commit != i.state.value.commit)
        || (Saved(i, request, w) && (!w.at(BackCheckout).Goes? || !w.at(BackState).Goes?)))
  }

  /** All or nothing, exactly: a call that raises (and is not killed) leaves HEAD and state
      file as they were if and only if no harmful fault was among the injected ones. */
  lemma FailureIsIntactIff(i: Install, request: Request, w: World)
    requires Perform(i, request, w).1 in {Blocked, Failed, RollbackFailed}
    ensures Intact(i, Perform(i, request, w).0) <==> !Harmful(i, request, w)
  {
    hide ParseVersion, Below;
    if Admitted(i, request, w) { VersionsDiffer(i, request, w); }
  }

  /** An ordinary failure, one whose rollback ran through: all three files speak of the
      previous version again, provided the checkout itself did not raise after moving HEAD. */
  lemma FailedMeansRestored(i: Install, request: Request, w: World)
    requires Perform(i, request, w).1.Failed? && w.at(Checkout) != Breaks(true)
    ensures
      var i' := Perform(i, request, w).0;
      && i.state.Doc? && Intact(i, i')
      && i'.marker in {i.marker, Restamped(i.marker, i.state.value.version, i.state.value.commit)}
  {
    hide ParseVersion, Below;
  }

  /** The flag that guards the rollback is set only after the checkout has returned, so a
      checkout that times out after moving HEAD is not undone: HEAD is at v2.0.0 while state
      file and marker still say v1.0.0. */
  lemma TimedOutCheckoutIsNotUndone()
    ensures
      var before := Managed("v1.0.0", "aa", "", "", "");
      var i := Install("aa", Doc(before), Doc(Marker("v1.0.0", "aa", "")));
      var tags := (commit: string) => if commit == "aa" then Some("v1.0.0") else Some("v2.0.0");
      var w := World(point => if point == Checkout then Breaks(true) else Goes, "bb", tags, tags, true, true);
      Perform(i, Request("v2.0.0", true, true, Token), w) == (i.(head := "bb"), Failed)
  {
    hide ParseVersion, TryState, RollBack;
    assert "v" + ['0' + 1 as char] + ".0.0" == "v1.0.0" && "v" + ['0' + 2 as char] + ".0.0" == "v2.0.0";
    MajorRelease(1);
    MajorRelease(2);
  }

  lemma MajorRelease(n: nat)
    requires n < 10
    ensures ParseVersion("v" + ['0' + n as char] + ".0.0") == Some(Version(n, 0, 0))
  {
    hide ParseVersion;
    SingleDigits(n);
    SingleDigits(0);
    ParseShow(Version(n, 0, 0));
    hide Decimal;
    assert "v" + ['0' + n as char] + ".0.0" == ShowVersion(Version(n, 0, 0));
  }

  lemma SingleDigits(n: nat)
    requires n < 10
    ensures Decimal(n) == ['0' + n as char]
  {
  }

  lemma VersionsDiffer(i: Install, request: Request, w: World)
    requires Admitted(i, request, w)
    ensures Doc(TargetState(i.state.value, request.target, w.commit)) != i.state
  {
  }

  // ---------------------------------------------------------------- no silent damage

  /** HEAD and state are both as before, or both at the target, or apart. */
  predicate Visible(i: Install, i': Install, request: Request, w: World) {
    i.state.Doc? ==>
      && i'.state.Doc?
      && (|| Intact(i, i')
          || (i'.head == w.commit && i'.state.value == TargetState(i.state.value, request.target, w.commit))
          || i'.head != i'.state.value.commit)
  }

  /** However a call ends, even killed or with its rollback broken: HEAD and state are both
      as before, or both at the target, or visibly apart. */
  lemma DamageIsVisible(i: Install, request: Request, w: World)
    ensures Visible(i, Perform(i, request, w).0, request, w)
  {
    hide ParseVersion, Below;
  }

  /** A call changes something only if HEAD and its tag agreed with the state file when it
      began. */
  lemma OnlyConsistentInstallsMutate(i: Install, request: Request, w: World)
    requires Perform(i, request, w).0 != i
    ensures i.state.Doc? && i.head == i.state.value.commit && w.tagBefore(i.head) == Some(i.state.value.version)
  {
    hide ParseVersion, Below, Try, RollBack;
  }

  // ---------------------------------------------------------------- histories of calls

  datatype Call = Call(request: Request, world: World)

  /** Any sequence of upgrade calls, with any faults and kills. */
  ghost predicate IsHistory(installs: seq<Install>, calls: seq<Call>) {
    && |installs| == |calls| + 1
    && forall k :: 0 <= k < |calls| ==> installs[k + 1] == Perform(installs[k], calls[k].request, calls[k].world).0
  }

  function VersionOf(i: Install): Option<Version> {
    if i.state.Doc? then ParseVersion(i.state.value.version) else None
  }

  predicate NotAbove(a: Option<Version>, b: Option<Version>) {
    a.Some? ==> b.Some? && (a == b || Below(a.value, b.value))
  }

  lemma CallNeverLowers(i: Install, request: Request, w: World)
    ensures NotAbove(VersionOf(i), VersionOf(Perform(i, request, w).0))
    ensures Perform(i, request, w).1.Upgraded? ==>
      var i' := Perform(i, request, w).0;
      VersionOf(i).Some? && VersionOf(i').Some? && Below(VersionOf(i).value, VersionOf(i').value)
  {
    hide ParseVersion, Below;
  }

  /** Through any history the recorded version never goes down, and every successful call in
      it leaves the version strictly above every earlier one. */
  lemma {:induction false} VersionsOnlyGrow(installs: seq<Install>, calls: seq<Call>, j: nat, k: nat)
    requires IsHistory(installs, calls) && j <= k < |installs|
    ensures NotAbove(VersionOf(installs[j]), VersionOf(installs[k]))
    ensures j < k && Perform(installs[k - 1], calls[k - 1].request, calls[k - 1].world).1.Upgraded? ==>
      VersionOf(installs[j]).Some? ==>
        VersionOf(installs[k]).Some? && Below(VersionOf(installs[j]).value, VersionOf(installs[k]).value)
  {
    hide Perform, VersionOf;
    if j < k {
      VersionsOnlyGrow(installs, calls, j, k - 1);
      CallNeverLowers(installs[k - 1], calls[k - 1].request, calls[k - 1].world);
    }
  }

  lemma AdmittedIsManaged(i: Install, request: Request, w: World)
    ensures Admitted(i, request, w) ==> i.state.Doc?
  {
  }

  // ---------------------------------------------------------------- who may upgrade, and when it works

  /** The caller's side of the gate: three switches and a version above the installed one. */
  predicate Authorised(installed: string, request: Request) {
    && request.network && request.confirmed && request.token == "UPGRADE_KONOHA_INSTALL"
    && var (was, next) := (ParseVersion(installed), ParseVersion(request.target));
       && was.Some? && next.Some?
       && (|| next.value.major > was.value.major
           || (next.value.major == was.value.major && next.value.minor > was.value.minor)
           || (next.value.major == was.value.major && next.value.minor == was.value.minor && next.value.patch > was.value.patch))
  }

  /** The installation's side: state and marker can be read, HEAD is the recorded commit, its
      tag the recorded version, and every other health check passes. */
  predicate SoundInstall(i: Install, w: World) {
    && i.state.Doc? && i.marker.Doc? && w.soundBefore
    && i.head == i.state.value.commit && w.tagBefore(i.head) == Some(i.state.value.version)
  }

  /** A call is turned away, before the first command and with nothing changed, exactly if the
      caller or the installation does not pass. */
  lemma BlockedIffNotAuthorised(i: Install, request: Request, w: World)
    ensures Perform(i, request, w).1.Blocked? <==>
      !(SoundInstall(i, w) && Authorised(i.state.value.version, request))
    ensures Perform(i, request, w).1.Blocked? ==> Perform(i, request, w).0 == i
  {
    hide ParseVersion, Try, RollBack;
    RollBackNeverBlocks(Try(i, if i.state.Doc? then TargetState(i.state.value, request.target, w.commit)
                               else Managed("", "", "", "", ""), w).0,
                        if i.state.Doc? then i.state.value else Managed("", "", "", "", ""), w);
  }

  lemma RollBackNeverBlocks(i: Install, before: Managed, w: World)
    ensures RollBack(i, before, w).1 in {Failed, RollbackFailed, Killed}
  {
  }

  /** The external actions of a successful call. */
  const Forward: set<Point> :=
    {Fetch, Resolve, Checkout, ReadHead, ReadTag, SaveState, LoadMarker, SaveMarker, Inspect}

  /** A call succeeds exactly if it is authorised, the installation is sound, every external
      action goes through, the commit carries the target's tag, and what is installed then
      passes the health checks. */
  lemma UpgradedIff(i: Install, request: Request, w: World)
    ensures Perform(i, request, w).1.Upgraded? <==>
      && SoundInstall(i, w) && Authorised(i.state.value.version, request)
      && (forall p | p in Forward :: w.at(p).Goes?)
      && w.tagAfter(w.commit) == Some(request.target) && w.soundAfter
  {
    BlockedIffNotAuthorised(i, request, w);
    hide ParseVersion, Admitted, Authorised, Try, RollBack;
    if i.state.Doc? {
      var state := TargetState(i.state.value, request.target, w.commit);
      RollBackNeverBlocks(Try(i, state, w).0, i.state.value, w);
      DoneIff(i, state, w);
      AllForward(w);
    }
  }

  predicate AllGo(w: World) {
    && w.at(Fetch).Goes? && w.at(Resolve).Goes? && w.at(Checkout).Goes? && w.at(ReadHead).Goes? && w.at(ReadTag).Goes?
    && w.at(SaveState).Goes? && w.at(LoadMarker).Goes? && w.at(SaveMarker).Goes? && w.at(Inspect).Goes?
  }

  lemma AllForward(w: World)
    ensures (forall p | p in Forward :: w.at(p).Goes?) <==> AllGo(w)
  {
  }

  lemma DoneIff(i: Install, state: Managed, w: World)
    ensures w.at(Fetch).Goes? && w.at(Resolve).Goes? && Try(i, state, w).1.Done? <==>
      AllGo(w) && i.marker.Doc? && w.tagAfter(state.commit) == Some(state.version) && w.soundAfter
  {
  }

  /** The three files after a success, field by field. */
  lemma UpgradedFiles(i: Install, request: Request, w: World)
    requires Perform(i, request, w).1.Upgraded?
    ensures i.state.Doc? && i.marker.Doc?
    ensures
      var was := i.state.value;
      Perform(i, request, w).0 == Install(
        w.commit,
        Doc(Managed(request.target, w.commit, was.version, was.commit, was.rest)),
        Doc(Marker(request.target, w.commit, i.marker.value.rest)))
  {
    SuccessIsComplete(i, request, w);
    hide Perform, ParseVersion, Below;
    BlockedIffNotAuthorised(i, request, w);
  }

  /** The other endings have their cause among the faults. */
  lemma EndingsHaveCauses(i: Install, request: Request, w: World)
    ensures Perform(i, request, w).1.Killed? ==> exists p :: w.at(p).Dies?
    ensures Perform(i, request, w).1.RollbackFailed? ==>
      w.at(Checkout).Goes? && exists p | p in {BackCheckout, BackState, BackLoadMarker, BackMarker} :: w.at(p).Breaks?
  {
    hide ParseVersion, Below, Healthy;
    if Perform(i, request, w).1.RollbackFailed? {
      assert i.marker.Doc?;
    }
  }

  /** Versions are read from exactly the texts vA.B.C with decimal A, B and C. */
  lemma ParseVersionReads(a: string, b: string, c: string)
    requires IsNumber(a) && IsNumber(b) && IsNumber(c)
    ensures ParseVersion("v" + a + "." + b + "." + c) == Some(Version(Number(a), Number(b), Number(c)))
  {
    hide Number, Dot;
    var s, tail := "v" + a + "." + b + "." + c, b + "." + c;
    assert s[1..] == a + "." + tail;
    DotAfter(a, tail);
    DotAfter(b, c);
    assert s[1..][..|a|] == a && s[1..][|a| + 1..] == tail;
    assert tail[..|b|] == b && tail[|b| + 1..] == c;
  }

  lemma ParsedVersionParts(s: string) returns (a: string, b: string, c: string)
    requires ParseVersion(s).Some?
    ensures s == "v" + a + "." + b + "." + c && IsNumber(a) && IsNumber(b) && IsNumber(c)
  {
    hide Number, Dot;
    var body := s[1..];
    var tail := body[Dot(body).value + 1..];
    a, b, c := body[..Dot(body).value], tail[..Dot(tail).value], tail[Dot(tail).value + 1..];
    hide IsNumber, ParseVersion;
    AroundDot(body);
    AroundDot(tail);
    VersionText(s, a, b, c, tail);
  }

  lemma AroundDot(s: string)
    requires Dot(s).Some?
    ensures s == s[..Dot(s).value] + "." + s[Dot(s).value + 1..]
  {
  }

  lemma VersionText(s: string, a: string, b: string, c: string, tail: string)
    requires s != "" && s[0] == 'v' && s[1..] == a + "." + tail && tail == b + "." + c
    ensures s == "v" + a + "." + b + "." + c
  {
    assert s == "v" + s[1..];
  }

  /** All of it, for one call. */
  lemma CallIsSound(i: Install, request: Request, w: World)
    ensures
      var (i', r) := Perform(i, request, w);
      && (r.Upgraded? ==> AtTarget(i, i', request, w))
      && (r in {Blocked, Failed, RollbackFailed} ==> (Intact(i, i') <==> !Harmful(i, request, w)))
      && Visible(i, i', request, w)
      && (i' != i ==> i.state.Doc? && i.head == i.state.value.commit)
      && NotAbove(VersionOf(i), VersionOf(i'))
      && (r.Upgraded? || i' != i ==> Authorised(i.state.value.version, request))
  {
    BlockedIffNotAuthorised(i, request, w);
    var (i', r) := Perform(i, request, w);
    if r.Upgraded? { SuccessIsComplete(i, request, w); }
    if r in {Blocked, Failed, RollbackFailed} { FailureIsIntactIff(i, request, w); }
    DamageIsVisible(i, request, w);
    if i' != i { OnlyConsistentInstallsMutate(i, request, w); }
    CallNeverLowers(i, request, w);
    hide Perform, AtTarget, Harmful, Visible, NotAbove, VersionOf, Intact, Authorised;
  }

  /** The installation that perform_upgrade works on. */
  class ManagedInstall {
    var head: string
    var state: File<Managed>
    var marker: File<Marker>

    ghost function Contents(): Install
      reads this
    {
      Install(head, state, marker)
    }

    constructor (head: string, state: File<Managed>, marker: File<Marker>)
      ensures Contents() == Install(head, state, marker)
    {
      this.head, this.state, this.marker := head, state, marker;
    }

    /** The guarded part, from the checkout to the final health check. */
    method TryUpgrade(next: Managed, w: World) returns (r: Attempt)
      modifies this
      ensures (Contents(), r) == Try(old(Contents()), next, w)
    {
      if w.at(Checkout).Dies? { return Gone; }
      if w.at(Checkout).Goes? || w.at(Checkout).moved { head := next.commit; }
      if w.at(Checkout).Breaks? { return Raised(false); }
      if !w.at(ReadHead).Goes? { return Only(w.at(ReadHead)); }
      if !w.at(ReadTag).Goes? { return Only(w.at(ReadTag)); }
      if head != next.commit || w.tagAfter(head) != Some(next.version) { return Raised(true); }
      if !w.at(SaveState).Goes? { return Only(w.at(SaveState)); }
      state := Doc(next);
      if !w.at(LoadMarker).Goes? { return Only(w.at(LoadMarker)); }
      if !marker.Doc? { return Raised(true); }
      if !w.at(SaveMarker).Goes? { return Only(w.at(SaveMarker)); }
      marker := Doc(marker.value.(version := next.version, commit := next.commit));
      if !w.at(Inspect).Goes? { return Only(w.at(Inspect)); }
      r := if Healthy(head, next, w.tagAfter, w.soundAfter) then Done else Raised(true);
    }

    /** The except branch after a completed checkout. */
    method UndoUpgrade(before: Managed, w: World) returns (r: Ending)
      modifies this
      ensures (Contents(), r) == RollBack(old(Contents()), before, w)
    {
      if w.at(BackCheckout).Dies? { return Killed; }
      if w.at(BackCheckout).Goes? || w.at(BackCheckout).moved { head := before.commit; }
      if !w.at(BackCheckout).Goes? { return RollbackFailed; }
      if !w.at(BackState).Goes? { return if w.at(BackState).Dies? then Killed else RollbackFailed; }
      state := Doc(before);
      if !w.at(BackLoadMarker).Goes? { return if w.at(BackLoadMarker).Dies? then Killed else RollbackFailed; }
      if !marker.Doc? { return RollbackFailed; }
      if !w.at(BackMarker).Goes? { return if w.at(BackMarker).Dies? then Killed else RollbackFailed; }
      marker := Doc(marker.value.(version := before.version, commit := before.commit));
      r := Failed;
    }

    method PerformUpgrade(request: Request, w: World) returns (r: Ending)
      modifies this
      ensures (Contents(), r) == Perform(old(Contents()), request, w)
      ensures r.Upgraded? ==> AtTarget(old(Contents()), Contents(), request, w)
      ensures r in {Blocked, Failed, RollbackFailed} ==>
        (Intact(old(Contents()), Contents()) <==> !Harmful(old(Contents()), request, w))
      ensures Visible(old(Contents()), Contents(), request, w)
      ensures Contents() != old(Contents()) ==> old(state).Doc? && old(head == state.value.commit)
      ensures NotAbove(VersionOf(old(Contents())), VersionOf(Contents()))
      ensures r.Upgraded? || Contents() != old(Contents()) ==>
        old(state).Doc? && Authorised(old(state).value.version, request)
    {
      CallIsSound(Contents(), request, w);
      hide Admitted, Authorised, AtTarget, Harmful, Visible, NotAbove, VersionOf, Intact, Try, RollBack;
      assert Admitted(Contents(), request, w) ==> state.Doc? by { AdmittedIsManaged(Contents(), request, w); }
      if !Admitted(Install(head, state, marker), request, w) { return Blocked; }
      var before := state.value;
      if !w.at(Fetch).Goes? { return if w.at(Fetch).Dies? then Killed else Failed; }
      if !w.at(Resolve).Goes? { return if w.at(Resolve).Dies? then Killed else Failed; }
      var attempt := TryUpgrade(TargetState(before, request.target, w.commit), w);
      match attempt {
        case Done => r := Upgraded;
        case Gone => r := Killed;
        case Raised(checkedOut) =>
          if checkedOut { r := UndoUpgrade(before, w); } else { r := Failed; }
      }
    }
  }
}
