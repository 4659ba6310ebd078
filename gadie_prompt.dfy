/** The two system-prompt builders of the study-tutor function. Each starts
    from a fixed base template and appends optional blocks chosen by the
    skill name and three flags, each block after a blank line ("\n\n"). The
    legacy builder also always appends two trailer blocks.

    The specification functions and the assembling methods take the fixed
    texts as a `Templates` record, so every property holds whatever the
    wording; `BuildGadiePrompt` and `BuildLegacyPrompt` apply them to the
    texts of gadie-prompt.ts. */
module GadiePrompt {
  import opened Wrappers
  import opened Text
  import opened GadieTemplates

  /** The session facts the builders are given. `messageCount` is part of
      the context but neither builder reads it. */
  datatype GadieContext = GadieContext(
    skillName: Option<string>,
    isFirstContact: bool,
    isHintRequest: bool,
    needsCalibrationReminder: bool,
    messageCount: int)

  /** `if (skillName)`: a skill name is given and is not empty. */
  predicate HasSkill(c: GadieContext) {
    Truthy(c.skillName)
  }

  /** `skillName || 'tym zagadnieniu'`: the subject named in the phase-1
      example of the GADIE template. */
  function SkillSubject(c: GadieContext): string {
    if HasSkill(c) then c.skillName.value else "tym zagadnieniu"
  }

  // -----------------------------------------------------------------------
  // Optional blocks

  /** The optional blocks, in the order in which the builders append them. */
  datatype Section = Skill(name: string) | FirstContact | HintRequest | CalibrationReminder

  function Rank(s: Section): nat {
    match s
    case Skill(_) => 0
    case FirstContact => 1
    case HintRequest => 2
    case CalibrationReminder => 3
  }

  /** The three flag-driven blocks that are requested, in their fixed order. */
  function FlagSections(c: GadieContext): seq<Section> {
    (if c.isFirstContact then [FirstContact] else [])
    + (if c.isHintRequest then [HintRequest] else [])
    + (if c.needsCalibrationReminder then [CalibrationReminder] else [])
  }

  /** The optional blocks of the GADIE prompt: the skill block when a skill
      name is given, then the flag blocks. */
  function Sections(c: GadieContext): seq<Section> {
    (if HasSkill(c) then [Skill(c.skillName.value)] else []) + FlagSections(c)
  }

  /** The flag blocks are strictly ordered and none of them is a skill block. */
  lemma FlagSectionsOrdered(c: GadieContext)
    ensures var ss := FlagSections(c);
      && (forall i, j :: 0 <= i < j < |ss| ==> Rank(ss[i]) < Rank(ss[j]))
      && (forall i :: 0 <= i < |ss| ==> !ss[i].Skill?)
  {
  }

  /** Each flag block is present exactly when its flag is set. */
  lemma FlagSectionsPresent(c: GadieContext)
    ensures var ss := FlagSections(c);
      && (FirstContact in ss <==> c.isFirstContact)
      && (HintRequest in ss <==> c.isHintRequest)
      && (CalibrationReminder in ss <==> c.needsCalibrationReminder)
  {
  }

  /** The optional blocks of the GADIE prompt appear in the strict order
      skill, first contact, hint, calibration, so none appears twice; a skill
      block can only be the first one, and only when a skill name is given. */
  lemma SectionsOrdered(c: GadieContext)
    ensures var ss := Sections(c);
      && (forall i, j :: 0 <= i < j < |ss| ==> Rank(ss[i]) < Rank(ss[j]))
      && (forall i :: 0 <= i < |ss| && ss[i].Skill? ==> i == 0 && ss[i] == Skill(c.skillName.GetOr("")) && HasSkill(c))
  {
    var flags := FlagSections(c);
    FlagSectionsOrdered(c);
    if HasSkill(c) {
      assert Sections(c) == [Skill(c.skillName.value)] + flags;
      SkillThenFlags(c.skillName.value, flags);
    } else {
      assert Sections(c) == flags;
    }
  }

  /** The skill block is present exactly when a skill name is given, and each
      flag block exactly when its flag is set. */
  lemma SectionsPresent(c: GadieContext)
    ensures var ss := Sections(c);
      && (HasSkill(c) <==> Skill(c.skillName.GetOr("")) in ss)
      && (FirstContact in ss <==> c.isFirstContact)
      && (HintRequest in ss <==> c.isHintRequest)
      && (CalibrationReminder in ss <==> c.needsCalibrationReminder)
  {
    var flags := FlagSections(c);
    FlagSectionsOrdered(c);
    FlagSectionsPresent(c);
    if HasSkill(c) {
      assert Sections(c) == [Skill(c.skillName.value)] + flags;
      SkillThenFlagsMembers(c.skillName.value, flags);
      assert Sections(c)[0] == Skill(c.skillName.GetOr(""));
    } else {
      assert Sections(c) == flags;
      assert Skill(c.skillName.GetOr("")) !in flags;
    }
  }

  /** Putting a skill block in front of flag blocks keeps them ordered. */
  lemma SkillThenFlags(name: string, flags: seq<Section>)
    requires forall i, j :: 0 <= i < j < |flags| ==> Rank(flags[i]) < Rank(flags[j])
    requires forall i :: 0 <= i < |flags| ==> !flags[i].Skill?
    ensures var ss := [Skill(name)] + flags;
      && (forall i, j :: 0 <= i < j < |ss| ==> Rank(ss[i]) < Rank(ss[j]))
      && (forall i :: 0 <= i < |ss| && ss[i].Skill? ==> i == 0 && ss[i] == Skill(name))
  {
    var ss := [Skill(name)] + flags;
    forall i, j | 0 <= i < j < |ss| ensures Rank(ss[i]) < Rank(ss[j]) {
      assert ss[j] == flags[j - 1];
      if i > 0 { assert ss[i] == flags[i - 1]; }
    }
    forall i | 0 < i < |ss| ensures !ss[i].Skill? {
      assert ss[i] == flags[i - 1];
    }
  }

  /** Putting a skill block in front of flag blocks adds no flag block. */
  lemma SkillThenFlagsMembers(name: string, flags: seq<Section>)
    ensures forall s: Section :: !s.Skill? ==> (s in [Skill(name)] + flags <==> s in flags)
  {
    var ss := [Skill(name)] + flags;
    forall s: Section | !s.Skill? ensures s in ss <==> s in flags {
      if s in ss {
        var k :| 0 <= k < |ss| && ss[k] == s;
        assert k > 0 && flags[k - 1] == s;
      }
      if s in flags {
        var k :| 0 <= k < |flags| && flags[k] == s;
        assert ss[k + 1] == s;
      }
    }
  }

  /** The two wordings of the blocks. */
  datatype Style = Gadie | Legacy

  /** The text of a block in a given style, without its separator. */
  function Block(t: Templates, s: Section, style: Style): string {
    match (s, style)
    case (Skill(name), Gadie) => "## UMIEJĘTNOŚĆ\n" + name + t.skillSuffix
    case (Skill(name), Legacy) => "UMIEJĘTNOŚĆ: " + name + t.skillSuffix
    case (FirstContact, Gadie) => t.gadieFirstContact
    case (FirstContact, Legacy) => t.legacyFirstContact
    case (HintRequest, Gadie) => t.gadieHint
    case (HintRequest, Legacy) => t.legacyHint
    case (CalibrationReminder, Gadie) => t.gadieCalibration
    case (CalibrationReminder, Legacy) => t.legacyCalibration
  }

  /** The blocks `ss`, in order, each preceded by a blank line. */
  function Appended(t: Templates, ss: seq<Section>, style: Style): string {
    if |ss| == 0 then "" else "\n\n" + Block(t, ss[0], style) + Appended(t, ss[1..], style)
  }

  /** Appending two lists of blocks appends their texts. */
  lemma {:induction false} AppendedConcat(t: Templates, a: seq<Section>, b: seq<Section>, style: Style)
    ensures Appended(t, a + b, style) == Appended(t, a, style) + Appended(t, b, style)
  {
    if |a| > 0 {
      assert (a + b)[0] == a[0];
      assert (a + b)[1..] == a[1..] + b;
      AppendedConcat(t, a[1..], b, style);
    } else {
      assert a + b == b;
    }
  }

  /** The text one optional block contributes: a blank line and the block
      when it is requested, nothing otherwise. */
  function Optional(t: Templates, requested: bool, s: Section, style: Style): string {
    if requested then "\n\n" + Block(t, s, style) else ""
  }

  lemma Regroup(h: string, a: string, b: string, d: string)
    ensures h + a + b + d == h + (a + b + d)
  {
  }

  /** One optional step of a builder: appending the block when it is
      requested extends the text built so far by that block's contribution. */
  lemma Step(t: Templates, before: string, after: string, requested: bool, s: Section, style: Style)
    requires after == if requested then before + "\n\n" + Block(t, s, style) else before
    ensures after == before + Optional(t, requested, s, style)
  {
  }

  lemma Regroup5(h: string, a: string, b: string, d: string, e: string)
    ensures h + (a + (b + d + e)) == h + a + b + d + e
  {
  }

  lemma AppendedSingle(t: Templates, s: Section, style: Style)
    ensures Appended(t, [s], style) == "\n\n" + Block(t, s, style)
  {
    assert [s][1..] == [];
  }

  /** The flag blocks' text is the three optional contributions in order. */
  lemma AppendedFlags(t: Templates, c: GadieContext, style: Style)
    ensures Appended(t, FlagSections(c), style)
      == Optional(t, c.isFirstContact, FirstContact, style)
       + Optional(t, c.isHintRequest, HintRequest, style)
       + Optional(t, c.needsCalibrationReminder, CalibrationReminder, style)
  {
    var a := if c.isFirstContact then [FirstContact] else [];
    var b := if c.isHintRequest then [HintRequest] else [];
    var d := if c.needsCalibrationReminder then [CalibrationReminder] else [];
    AppendedConcat(t, a + b, d, style);
    AppendedConcat(t, a, b, style);
    AppendedSingle(t, FirstContact, style);
    AppendedSingle(t, HintRequest, style);
    AppendedSingle(t, CalibrationReminder, style);
  }

  /** The GADIE blocks' text is the skill contribution, then the flags'. */
  lemma AppendedSections(t: Templates, c: GadieContext)
    ensures Appended(t, Sections(c), Gadie)
      == Optional(t, HasSkill(c), Skill(c.skillName.GetOr("")), Gadie) + Appended(t, FlagSections(c), Gadie)
  {
    if HasSkill(c) {
      AppendedConcat(t, [Skill(c.skillName.value)], FlagSections(c), Gadie);
      AppendedSingle(t, Skill(c.skillName.value), Gadie);
    } else {
      assert Sections(c) == FlagSections(c);
    }
  }

  // -----------------------------------------------------------------------
  // The GADIE prompt

  /** The base template with its subject filled in. */
  function GadieBase(t: Templates, c: GadieContext): string {
    t.gadieHead + SkillSubject(c) + t.gadieTail
  }

  /** The GADIE prompt: the base template, then the requested blocks. */
  function GadiePromptText(t: Templates, c: GadieContext): string {
    GadieBase(t, c) + Appended(t, Sections(c), Gadie)
  }

  /** The GADIE prompt is the base template followed by the four optional
      contributions, in the order the builder appends them. */
  lemma GadieSteps(t: Templates, c: GadieContext)
    ensures GadiePromptText(t, c)
      == GadieBase(t, c)
       + Optional(t, HasSkill(c), Skill(c.skillName.GetOr("")), Gadie)
       + Optional(t, c.isFirstContact, FirstContact, Gadie)
       + Optional(t, c.isHintRequest, HintRequest, Gadie)
       + Optional(t, c.needsCalibrationReminder, CalibrationReminder, Gadie)
  {
    var o0 := Optional(t, HasSkill(c), Skill(c.skillName.GetOr("")), Gadie);
    var o1 := Optional(t, c.isFirstContact, FirstContact, Gadie);
    var o2 := Optional(t, c.isHintRequest, HintRequest, Gadie);
    var o3 := Optional(t, c.needsCalibrationReminder, CalibrationReminder, Gadie);
    AppendedSections(t, c);
    AppendedFlags(t, c, Gadie);
    Regroup5(GadieBase(t, c), o0, o1, o2, o3);
  }

  /** The steps of `buildGADIEPrompt` over a given set of texts: start from
      the base template and append each requested block in turn. */
  method AssembleGadiePrompt(t: Templates, c: GadieContext) returns (prompt: string)
    ensures prompt == GadiePromptText(t, c)
  {
    prompt := t.gadieHead + (if HasSkill(c) then c.skillName.value else "tym zagadnieniu") + t.gadieTail;
    ghost var before := prompt;
    if HasSkill(c) {
      prompt := prompt + "\n\n## UMIEJĘTNOŚĆ\n" + c.skillName.value + t.skillSuffix;
      Regroup(before, "\n\n", "## UMIEJĘTNOŚĆ\n" + c.skillName.value, t.skillSuffix);
    }
    Step(t, before, prompt, HasSkill(c), Skill(c.skillName.GetOr("")), Gadie);
    before := prompt;
    if c.isFirstContact {
      prompt := prompt + "\n\n" + t.gadieFirstContact;
    }
    Step(t, before, prompt, c.isFirstContact, FirstContact, Gadie);
    before := prompt;
    if c.isHintRequest {
      prompt := prompt + "\n\n" + t.gadieHint;
    }
    Step(t, before, prompt, c.isHintRequest, HintRequest, Gadie);
    before := prompt;
    if c.needsCalibrationReminder {
      prompt := prompt + "\n\n" + t.gadieCalibration;
    }
    Step(t, before, prompt, c.needsCalibrationReminder, CalibrationReminder, Gadie);
    GadieSteps(t, c);
  }

  /** `buildGADIEPrompt` with the texts of gadie-prompt.ts. */
  method BuildGadiePrompt(c: GadieContext) returns (prompt: string)
    ensures prompt == GadiePromptText(SourceTemplates, c)
  {
    prompt := AssembleGadiePrompt(SourceTemplates, c);
  }

  /** The GADIE prompt always begins with the base template, whose subject
      is the skill name or "tym zagadnieniu". */
  lemma GadieStartsWithBase(t: Templates, c: GadieContext)
    ensures HasSkill(c) ==> t.gadieHead + c.skillName.value + t.gadieTail <= GadiePromptText(t, c)
    ensures !HasSkill(c) ==> t.gadieHead + "tym zagadnieniu" + t.gadieTail <= GadiePromptText(t, c)
  {
  }

  /** The skill block follows the base template exactly when a skill name
      is given; the flag blocks come after it. */
  lemma GadieSkillBlock(t: Templates, c: GadieContext)
    ensures HasSkill(c) ==>
      GadiePromptText(t, c)
      == GadieBase(t, c) + "\n\n" + Block(t, Skill(c.skillName.value), Gadie) + Appended(t, FlagSections(c), Gadie)
    ensures !HasSkill(c) ==> GadiePromptText(t, c) == GadieBase(t, c) + Appended(t, FlagSections(c), Gadie)
  {
    AppendedSections(t, c);
    if HasSkill(c) {
      Regroup(GadieBase(t, c), "\n\n", Block(t, Skill(c.skillName.value), Gadie), Appended(t, FlagSections(c), Gadie));
    }
  }

  /** With no skill name and no flag set the prompt is the base template. */
  lemma GadieMinimal(t: Templates, c: GadieContext)
    requires !HasSkill(c) && !c.isFirstContact && !c.isHintRequest && !c.needsCalibrationReminder
    ensures GadiePromptText(t, c) == t.gadieHead + "tym zagadnieniu" + t.gadieTail
  {
  }

  /** The message count does not influence the GADIE prompt. */
  lemma GadieIgnoresMessageCount(t: Templates, c: GadieContext, n: int)
    ensures GadiePromptText(t, c.(messageCount := n)) == GadiePromptText(t, c)
  {
  }

  // -----------------------------------------------------------------------
  // The legacy prompt

  /** The skill slot inside the legacy base template: a newline and the
      skill line, or nothing. */
  function LegacySkillSlot(t: Templates, c: GadieContext): (slot: string)
    ensures !HasSkill(c) ==> slot == ""
    ensures HasSkill(c) ==> slot == "\n" + Block(t, Skill(c.skillName.value), Legacy)
  {
    if HasSkill(c) then "\nUMIEJĘTNOŚĆ: " + c.skillName.value + t.skillSuffix else ""
  }

  /** The two blocks that end every legacy prompt. */
  function LegacyTrailer(t: Templates): string {
    "\n\n" + t.legacyMathSymbols + "\n\n" + t.legacyLengthLimit
  }

  lemma TrailerStep(t: Templates, before: string, after: string)
    requires after == before + "\n\n" + t.legacyMathSymbols + "\n\n" + t.legacyLengthLimit
    ensures after == before + LegacyTrailer(t)
  {
  }

  /** The legacy prompt: the base template with the skill slot, the
      requested flag blocks, then the trailer. */
  function LegacyPromptText(t: Templates, c: GadieContext): string {
    t.legacyHead + LegacySkillSlot(t, c) + Appended(t, FlagSections(c), Legacy) + LegacyTrailer(t)
  }

  /** The legacy prompt is the filled base template followed by the three
      optional contributions and the trailer, in the order the builder
      appends them. */
  lemma LegacySteps(t: Templates, c: GadieContext)
    ensures LegacyPromptText(t, c)
      == t.legacyHead + LegacySkillSlot(t, c)
       + Optional(t, c.isFirstContact, FirstContact, Legacy)
       + Optional(t, c.isHintRequest, HintRequest, Legacy)
       + Optional(t, c.needsCalibrationReminder, CalibrationReminder, Legacy)
       + LegacyTrailer(t)
  {
    var o1 := Optional(t, c.isFirstContact, FirstContact, Legacy);
    var o2 := Optional(t, c.isHintRequest, HintRequest, Legacy);
    var o3 := Optional(t, c.needsCalibrationReminder, CalibrationReminder, Legacy);
    AppendedFlags(t, c, Legacy);
    Regroup(t.legacyHead + LegacySkillSlot(t, c), o1, o2, o3);
  }

  /** The steps of `buildLegacyPrompt` over a given set of texts: the base
      template with the skill slot filled, each requested block in turn,
      then the two trailer blocks. */
  method AssembleLegacyPrompt(t: Templates, c: GadieContext) returns (systemPrompt: string)
    ensures systemPrompt == LegacyPromptText(t, c)
  {
    systemPrompt := t.legacyHead
      + (if HasSkill(c) then "\nUMIEJĘTNOŚĆ: " + c.skillName.value + t.skillSuffix else "");
    ghost var before := systemPrompt;
    if c.isFirstContact {
      systemPrompt := systemPrompt + "\n\n" + t.legacyFirstContact;
    }
    Step(t, before, systemPrompt, c.isFirstContact, FirstContact, Legacy);
    before := systemPrompt;
    if c.isHintRequest {
      systemPrompt := systemPrompt + "\n\n" + t.legacyHint;
    }
    Step(t, before, systemPrompt, c.isHintRequest, HintRequest, Legacy);
    before := systemPrompt;
    if c.needsCalibrationReminder {
      systemPrompt := systemPrompt + "\n\n" + t.legacyCalibration;
    }
    Step(t, before, systemPrompt, c.needsCalibrationReminder, CalibrationReminder, Legacy);
    before := systemPrompt;
    systemPrompt := systemPrompt + "\n\n" + t.legacyMathSymbols;
    systemPrompt := systemPrompt + "\n\n" + t.legacyLengthLimit;
    TrailerStep(t, before, systemPrompt);
    LegacySteps(t, c);
  }

  /** `buildLegacyPrompt` with the texts of gadie-prompt.ts. */
  method BuildLegacyPrompt(c: GadieContext) returns (systemPrompt: string)
    ensures systemPrompt == LegacyPromptText(SourceTemplates, c)
  {
    systemPrompt := AssembleLegacyPrompt(SourceTemplates, c);
  }

  /** The skill line sits inside the legacy base template, before every
      flag block, and the slot is empty without a skill name. */
  lemma LegacyEmbedsSkill(t: Templates, c: GadieContext)
    ensures t.legacyHead + LegacySkillSlot(t, c) <= LegacyPromptText(t, c)
    ensures !HasSkill(c) ==>
      LegacyPromptText(t, c) == t.legacyHead + Appended(t, FlagSections(c), Legacy) + LegacyTrailer(t)
  {
  }

  /** Whatever the flags, the legacy prompt ends with the math-symbols block
      followed by the length-limit block. */
  lemma LegacyEndsWithTrailer(t: Templates, c: GadieContext)
    ensures |LegacyPromptText(t, c)| >= |LegacyTrailer(t)|
    ensures LegacyPromptText(t, c)[|LegacyPromptText(t, c)| - |LegacyTrailer(t)|..] == LegacyTrailer(t)
  {
    var p := t.legacyHead + LegacySkillSlot(t, c) + Appended(t, FlagSections(c), Legacy);
    assert LegacyPromptText(t, c) == p + LegacyTrailer(t);
    assert (p + LegacyTrailer(t))[|p|..] == LegacyTrailer(t);
  }

  /** The message count does not influence the legacy prompt. */
  lemma LegacyIgnoresMessageCount(t: Templates, c: GadieContext, n: int)
    ensures LegacyPromptText(t, c.(messageCount := n)) == LegacyPromptText(t, c)
  {
  }
}
