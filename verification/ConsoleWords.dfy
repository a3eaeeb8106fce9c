/** The words of the console: which lines it takes for itself, which phrases fit which record,
    and what a new process finds again. */
module ConsoleWords {
  import opened Common
  import opened Text
  import opened Registry
  import opened Authority
  import opened Builder
  import opened QueueProtocol
  import opened QueueTable
  import opened Lifecycle
  import opened Planning
  import opened Session
  import opened SessionTheorems

  // ---------------------------------------------------------------- capitals

  /** Two texts that differ at most in the case of letters. */
  predicate SameLetters(text: string, word: string) {
    && |text| == |word|
    && forall i :: 0 <= i < |text| ==> text[i] == word[i] || CapitalOf(text[i], word[i])
  }

  predicate CapitalOf(capital: char, small: char) {
    'a' <= small <= 'z' && capital as int == small as int - 32
  }

  predicate Uncapital(word: string) {
    forall i :: 0 <= i < |word| ==> !('A' <= word[i] <= 'Z')
  }

  /** Upper-casing changes the small letters and nothing else. */
  lemma UpperIsExact(text: string)
    ensures |Upper(text)| == |text|
    ensures forall i :: 0 <= i < |text| ==>
      if 'a' <= text[i] <= 'z' then CapitalOf(Upper(text)[i], text[i]) else Upper(text)[i] == text[i]
    ensures Upper(Upper(text)) == Upper(text)
  {
  }

  lemma LowerIff(text: string, word: string)
    requires Uncapital(word)
    ensures Lower(text) == word <==> SameLetters(text, word)
  {
    if SameLetters(text, word) {
      assert forall i :: 0 <= i < |text| ==> Lower(text)[i] == word[i];
    }
    if Lower(text) == word {
      forall i | 0 <= i < |text| ensures text[i] == word[i] || CapitalOf(text[i], word[i]) {
        assert Lower(text)[i] == word[i];
      }
    }
  }

  lemma LowerPrefix(text: string, word: string)
    requires Uncapital(word)
    ensures StartsWith(Lower(text), word) <==> |word| <= |text| && SameLetters(text[..|word|], word)
  {
    if |word| <= |text| {
      LowerIff(text[..|word|], word);
      assert Lower(text[..|word|]) == Lower(text)[..|word|];
    }
  }

  // ---------------------------------------------------------------- commands

  /** A command, spelled in any case. */
  predicate SpellsCommand(text: string) {
    || SameLetters(text, "/exit") || SameLetters(text, "/quit") || SameLetters(text, "/help") || SameLetters(text, "/status")
    || SameLetters(text, "/pending") || SameLetters(text, "/details") || SameLetters(text, "/actions")
    || (|text| >= 12 && SameLetters(text[..12], "/local-model"))
  }

  lemma CommandsIff(text: string)
    ensures IsCommand(text) <==> SpellsCommand(text)
  {
    LowerIff(text, "/exit");
    LowerIff(text, "/quit");
    LowerIff(text, "/help");
    LowerIff(text, "/status");
    LowerIff(text, "/pending");
    LowerIff(text, "/details");
    LowerIff(text, "/actions");
    LowerPrefix(text, "/local-model");
    hide Lower, StartsWith;
    SlashIsFirst(text);
  }

  lemma SlashIsFirst(text: string)
    ensures SpellsCommand(text) ==> text != "" && text[0] == '/'
  {
  }

  /** Commands and empty lines change nothing, in whatever state. */
  lemma CommandsAreIgnored(cfg: Config, h: House, line: Line, w: World)
    requires line.text == "" || SpellsCommand(line.text)
    ensures Handle(cfg, h, line, w) == (h, Ignored)
  {
    CommandsIff(line.text);
    hide IsCommand, SpellsCommand;
  }

  // ---------------------------------------------------------------- phrases of the records

  lemma SpecificHead(head: string, x: string, y: string)
    requires NoCapitals(x) && NoCapitals(y) && head + Upper(x) == head + Upper(y)
    ensures x == y
  {
    SameTail(head, Upper(x), Upper(y));
    UpperIsInjective(x, y);
  }

  /** A record's phrase fits one record, and no phrase that accepts one asks for changes of
      another or closes a mission. */
  lemma RecordPhrasesAreSpecific(r: Review, s: Review, c: Closure, e: Closure)
    requires NoCapitals(r.suffix) && NoCapitals(s.suffix) && NoCapitals(c.suffix) && NoCapitals(e.suffix)
    ensures ReviewPhrase(r) == ReviewPhrase(s) ==> r.suffix == s.suffix
    ensures ChangesPhrase(r) == ChangesPhrase(s) ==> r.suffix == s.suffix
    ensures ClosurePhrase(c) == ClosurePhrase(e) ==> c.suffix == e.suffix
    ensures ReviewPhrase(r) != ChangesPhrase(s) && ReviewPhrase(r) != ClosurePhrase(c) && ChangesPhrase(r) != ClosurePhrase(c)
  {
    if ReviewPhrase(r) == ReviewPhrase(s) { SpecificHead("APROBAR REVIEW-", r.suffix, s.suffix); }
    if ChangesPhrase(r) == ChangesPhrase(s) { SpecificHead("CAMBIOS REVIEW-", r.suffix, s.suffix); }
    if ClosurePhrase(c) == ClosurePhrase(e) { SpecificHead("APROBAR CIERRE-", c.suffix, e.suffix); }
    assert ReviewPhrase(r)[0] == 'A' && ChangesPhrase(s)[0] == 'C' && ChangesPhrase(r)[0] == 'C' && ClosurePhrase(c)[0] == 'A';
    assert ReviewPhrase(r)[8] == 'R' && ClosurePhrase(c)[8] == 'C';
  }

  /** What a charter says that was built from an intent and its decision. */
  lemma BuiltCharterSays(
    cfg: Config, intent: Intent, d: Decision, limits: Constraints, charterId: string, body: string, x: string)
    requires BuildCharter(cfg, intent, d, limits, charterId, body).Ok? && charterId == "charter-" + x
    ensures
      var c := BuildCharter(cfg, intent, d, limits, charterId, body).value;
      && c.approvalPhrase == "APROBAR CHARTER-" + Upper(x) && CharterRejection(c) == "RECHAZAR CHARTER-" + Upper(x)
      && c.charterId == charterId && c.missionId == d.missionId && c.limits == limits && c.state == CharterProposed
      && c.decisionId == d.decisionId && c.decisionDigest == cfg.sha(DecisionText(d))
      && c.proposed == ProposedSkills(intent) && c.followups == FollowupSkills(intent) && c.forbidden == []
      && c.approvedAt == "" && c.approvedBy == ""
  {
    CharterDash(x);
    hide AfterDash, Upper, ValidateCharterConstruction, ProposedSkills, FollowupSkills;
  }

  /** Approving a built charter is never rejecting one, and either phrase fits one charter only. */
  lemma CharterPhrasesAreSpecific(
    cfg: Config, intent: Intent, d: Decision, limits: Constraints, body: string, x: string,
    intent': Intent, d': Decision, limits': Constraints, body': string, y: string)
    requires BuildCharter(cfg, intent, d, limits, "charter-" + x, body).Ok? && NoCapitals(x)
    requires BuildCharter(cfg, intent', d', limits', "charter-" + y, body').Ok? && NoCapitals(y)
    ensures
      var c := BuildCharter(cfg, intent, d, limits, "charter-" + x, body).value;
      var e := BuildCharter(cfg, intent', d', limits', "charter-" + y, body').value;
      && (c.approvalPhrase == e.approvalPhrase || CharterRejection(c) == CharterRejection(e) ==> c.charterId == e.charterId)
      && c.approvalPhrase != CharterRejection(e)
  {
    BuiltCharterSays(cfg, intent, d, limits, "charter-" + x, body, x);
    BuiltCharterSays(cfg, intent', d', limits', "charter-" + y, body', y);
    hide BuildCharter, CharterRejection, Upper, NoCapitals;
    if "APROBAR CHARTER-" + Upper(x) == "APROBAR CHARTER-" + Upper(y) { SpecificHead("APROBAR CHARTER-", x, y); }
    if "RECHAZAR CHARTER-" + Upper(x) == "RECHAZAR CHARTER-" + Upper(y) { SpecificHead("RECHAZAR CHARTER-", x, y); }
    DifferentHeads("APROBAR CHARTER-", Upper(x), "RECHAZAR CHARTER-", Upper(y));
  }

  lemma CharterDash(x: string)
    ensures AfterDash("charter-" + x) == x
  {
    AfterFirstDash("charter", x);
    assert "charter" + "-" + x == "charter-" + x;
  }

  // ---------------------------------------------------------------- restarts

  lemma SameDeskPut(h: House, mission: string)
    requires mission in h.desks
    ensures h.desks[mission := DeskOf(h, mission)] == h.desks
  {
  }

  /** A proposal survives a restart: the new process has the same mission open and the same
      charter and decision pending. */
  lemma ProposalSurvivesRestart(cfg: Config, h: House, w: World)
    requires ProposeMission(cfg, h, w).1.Recorded?
    ensures
      var h' := ProposeMission(cfg, h, w).0;
      Reopen(h', h'.focus) == h'
  {
    hide ValidateCharterConstruction;
    var h' := ProposeMission(cfg, h, w).0;
    SameDeskPut(h', h'.focus.value);
  }

  /** So does an approved charter: the new process has it open with nothing pending. */
  lemma ApprovalSurvivesRestart(cfg: Config, h: House, c: Charter, line: Line, w: World)
    requires AtCharter(cfg, h, c, line, w).1.Passed?
    ensures
      var h' := AtCharter(cfg, h, c, line, w).0;
      Reopen(h', h'.focus) == h' && h'.charter.None? && h'.decision.None?
  {
    hide OpenQueue, RulesOf, ValidateCharterConstruction, Strip, ReceiptPreconditions, NextPending;
    var h' := AtCharter(cfg, h, c, line, w).0;
    var m := h.focus.value;
    SameDeskPut(h', m);
    OpeningKeepsDocuments(RulesOf(cfg, m), FreezeCharter(cfg, DeskOf(h, m), c, h.decision.value, line, w).0,
                          Initialize(m, m + "-plan"), w.restore);
  }

  lemma OpeningKeepsDocuments(rules: Rules, d: Desk, op: Op, view: View)
    requires op.Initialize?
    ensures OpenQueue(rules, d, op, view).0 == d.(queue := OpenQueue(rules, d, op, view).0.queue)
  {
    hide Restorable;
  }
}
