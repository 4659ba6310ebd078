/** The educational context the study tutor adds to its system prompt: a
    numbered list of the student's active misconceptions, the student's
    progress on the current skill with one of three teaching instructions,
    and the rule that assembles the two parts under one header or yields
    `null`. The database rows are given as inputs. */
module LightweightContext {
  import opened Wrappers
  import opened Text

  /** One row of the misconception network. Absent text fields are `None`. */
  datatype Misconception = Misconception(
    misconceptionType: Option<string>,
    strength: real,
    description: Option<string>,
    correctConcept: Option<string>)

  /** The progress row of one skill. Absent fields are `None`. */
  datatype SkillProgress = SkillProgress(
    masteryLevel: Option<real>,
    attemptsCount: Option<int>,
    successRate: Option<real>)

  /** The outcome of obtaining an input inside the `try` block: its value,
      or an exception that reaches the `catch`. */
  datatype Lookup<T> = Found(value: T) | Threw

  const MisconceptionsTitle: string := "### BŁĘDNE KONCEPCJE (Misconceptions)\n\n"
  const MisconceptionsIntro: string := "Uczeń ma tendencję do popełniania następujących błędów:\n\n"
  const MisconceptionsInstruction: string :=
    "\n**INSTRUKCJA:** Gdy zauważysz, że uczeń popełnia któryś z tych błędów, delikatnie go naprowadź pytaniami, aby sam odkrył poprawne rozwiązanie. Nie mów wprost \"to jest błąd\", ale zadaj pytanie, które zmusi go do przemyślenia swojego podejścia."
  const UnknownType: string := "Nieznany typ"

  const ProgressTitle: string := "### POSTĘPY W NAUCE\n\n"
  const BeginnerInstruction: string :=
    "\n**INSTRUKCJA:** Uczeń jest na **początkowym etapie** nauki tej umiejętności. Używaj prostego języka, małych kroków i dużo zachęty. Sprawdzaj zrozumienie po każdym kroku."
  const IntermediateInstruction: string :=
    "\n**INSTRUKCJA:** Uczeń ma **podstawowe zrozumienie**, ale potrzebuje więcej praktyki. Możesz wprowadzać nieco trudniejsze przykłady, ale wciąż sprawdzaj zrozumienie."
  const AdvancedInstruction: string :=
    "\n**INSTRUKCJA:** Uczeń **dobrze opanował** tę umiejętność. Możesz wprowadzać bardziej złożone problemy i zachęcać do samodzielnego rozwiązywania."

  const ContextHeader: string := "\n\n## KONTEKST EDUKACYJNY UCZNIA\n\n"
  const PartSeparator: string := "\n\n"

  /** `(x * 100).toFixed(0)`: a fraction printed as a whole percentage. */
  function FormatPercent(x: real): string {
    FixedZero(x * 100.0)
  }

  // -----------------------------------------------------------------------
  // Misconceptions

  /** The type printed for a misconception: its type, or "Nieznany typ"
      when the type is absent or empty. */
  function TypeLabel(m: Misconception): string {
    if Truthy(m.misconceptionType) then m.misconceptionType.value else UnknownType
  }

  /** The first line of entry number `n`. */
  function EntryHead(n: nat, m: Misconception): string {
    NatToString(n) + ". **" + TypeLabel(m) + "** (siła: " + FormatPercent(m.strength) + "%)\n"
  }

  /** The description line, present only for a non-empty description. */
  function DescriptionLine(m: Misconception): string {
    if Truthy(m.description) then "   - " + m.description.value + "\n" else ""
  }

  /** The correct-concept line, present only for a non-empty concept. */
  function ConceptLine(m: Misconception): string {
    if Truthy(m.correctConcept) then "   - Prawidłowe rozumienie: " + m.correctConcept.value + "\n" else ""
  }

  /** The text of entry number `n`. */
  function EntryText(n: nat, m: Misconception): string {
    EntryHead(n, m) + DescriptionLine(m) + ConceptLine(m)
  }

  /** The texts `f(k, ms[0])`, `f(k + 1, ms[1])`, ... concatenated: the
      rows numbered from `k` in input order. */
  function Numbered(f: (nat, Misconception) -> string, ms: seq<Misconception>, k: nat): string {
    if |ms| == 0 then "" else f(k, ms[0]) + Numbered(f, ms[1..], k + 1)
  }

  /** The numbered entries of the misconception list, from 1. */
  function Entries(ms: seq<Misconception>): string {
    Numbered(EntryText, ms, 1)
  }

  /** The misconception part: empty for no rows, else the title, the
      introduction, the numbered entries and the instruction. */
  function MisconceptionsText(ms: seq<Misconception>): string {
    if |ms| == 0 then "" else MisconceptionsTitle + MisconceptionsIntro + Entries(ms) + MisconceptionsInstruction
  }

  /** Splitting the rows splits the list, the numbering of the second half
      continuing after the first. */
  lemma {:induction false} NumberedConcat(f: (nat, Misconception) -> string, a: seq<Misconception>,
                                         b: seq<Misconception>, k: nat)
    ensures Numbered(f, a + b, k) == Numbered(f, a, k) + Numbered(f, b, k + |a|)
  {
    if |a| == 0 {
      assert a + b == b;
    } else {
      assert (a + b)[0] == a[0];
      assert (a + b)[1..] == a[1..] + b;
      NumberedConcat(f, a[1..], b, k + 1);
      Regroup3(f(k, a[0]), Numbered(f, a[1..], k + 1), Numbered(f, b, k + |a|));
    }
  }

  lemma Regroup3(x: string, y: string, z: string)
    ensures x + (y + z) == x + y + z
  {
  }

  /** One more row adds its entry at the end, numbered by its position:
      this is the step of the builder's loop. */
  lemma NumberedSnoc(f: (nat, Misconception) -> string, ms: seq<Misconception>, i: nat)
    requires i < |ms|
    ensures Numbered(f, ms[..i + 1], 1) == Numbered(f, ms[..i], 1) + f(i + 1, ms[i])
  {
    assert ms[..i + 1] == ms[..i] + [ms[i]];
    NumberedConcat(f, ms[..i], [ms[i]], 1);
    assert [ms[i]][1..] == [];
  }

  /** Row `i` (from 0) is shown as entry `i + 1`, after the entries of the
      rows before it and before those of the rows after it. */
  lemma NumberedPosition(f: (nat, Misconception) -> string, ms: seq<Misconception>, i: nat)
    requires i < |ms|
    ensures Numbered(f, ms, 1) == Numbered(f, ms[..i], 1) + f(i + 1, ms[i]) + Numbered(f, ms[i + 1..], i + 2)
  {
    assert ms == ms[..i] + ms[i..];
    NumberedConcat(f, ms[..i], ms[i..], 1);
    assert ms[i..][0] == ms[i] && ms[i..][1..] == ms[i + 1..];
    Regroup3(Numbered(f, ms[..i], 1), f(i + 1, ms[i]), Numbered(f, ms[i + 1..], i + 2));
  }

  /** An entry shows "Nieznany typ" exactly when its type is absent or
      empty, and the given type otherwise. */
  lemma EntryTypeLabel(n: nat, m: Misconception)
    ensures !Truthy(m.misconceptionType) ==>
      NatToString(n) + ". **" + UnknownType + "** (siła: " <= EntryText(n, m)
    ensures Truthy(m.misconceptionType) ==>
      NatToString(n) + ". **" + m.misconceptionType.value + "** (siła: " <= EntryText(n, m)
  {
  }

  /** The description and correct-concept lines are there only when those
      fields are non-empty, and then carry them. */
  lemma EntryOptionalLines(n: nat, m: Misconception)
    ensures (DescriptionLine(m) == "") <==> !Truthy(m.description)
    ensures (ConceptLine(m) == "") <==> !Truthy(m.correctConcept)
    ensures Truthy(m.description) ==> Contains(DescriptionLine(m), m.description.value)
    ensures Truthy(m.correctConcept) ==> Contains(ConceptLine(m), m.correctConcept.value)
  {
    if Truthy(m.description) {
      ContainsExtend(m.description.value, m.description.value, "   - ", "\n");
      assert m.description.value <= m.description.value;
    }
    if Truthy(m.correctConcept) {
      ContainsExtend(m.correctConcept.value, m.correctConcept.value, "   - Prawidłowe rozumienie: ", "\n");
      assert m.correctConcept.value <= m.correctConcept.value;
    }
  }

  /** A non-empty list of rows gives a part that starts with the title and
      ends with the instruction paragraph; no rows give the empty string. */
  lemma MisconceptionsShape(ms: seq<Misconception>)
    ensures (MisconceptionsText(ms) == "") <==> |ms| == 0
    ensures |ms| > 0 ==> MisconceptionsTitle + MisconceptionsIntro <= MisconceptionsText(ms)
    ensures |ms| > 0 ==>
      MisconceptionsText(ms)[|MisconceptionsText(ms)| - |MisconceptionsInstruction|..] == MisconceptionsInstruction
  {
    if |ms| > 0 {
      var body := MisconceptionsTitle + MisconceptionsIntro + Entries(ms);
      assert MisconceptionsText(ms) == body + MisconceptionsInstruction;
      assert (body + MisconceptionsInstruction)[|body|..] == MisconceptionsInstruction;
    }
  }

  /** A builder step under a guard appends `x` exactly when the guard holds. */
  lemma OptionalStep(before: string, after: string, guard: bool, x: string)
    requires after == if guard then before + x else before
    ensures after == before + (if guard then x else "")
  {
  }

  /** The three steps of one entry append its whole text. */
  lemma EntryStep(before: string, head: string, d: string, cc: string, after: string)
    requires after == before + head + d + cc
    ensures after == before + (head + d + cc)
  {
  }

  /** Appending an entry to the text built so far extends the list. */
  lemma ListStep(h: string, e: string, x: string, before: string, after: string)
    requires before == h + e
    requires after == before + x
    ensures after == h + (e + x)
  {
  }

  /** The `forEach` callback of `formatMisconceptionsContext`: appends the
      entry of row `m` at position `index`, line by line. */
  method AppendEntry(context0: string, m: Misconception, index: nat) returns (context: string)
    ensures context == context0 + EntryText(index + 1, m)
  {
    context := context0 + (NatToString(index + 1) + ". **" + TypeLabel(m) + "** (siła: " + FormatPercent(m.strength) + "%)\n");
    ghost var b1 := context;
    if Truthy(m.description) {
      context := context + ("   - " + m.description.value + "\n");
    }
    OptionalStep(b1, context, Truthy(m.description), "   - " + m.description.GetOr("") + "\n");
    ghost var b2 := context;
    if Truthy(m.correctConcept) {
      context := context + ("   - Prawidłowe rozumienie: " + m.correctConcept.value + "\n");
    }
    OptionalStep(b2, context, Truthy(m.correctConcept), "   - Prawidłowe rozumienie: " + m.correctConcept.GetOr("") + "\n");
    EntryStep(context0, EntryHead(index + 1, m), DescriptionLine(m), ConceptLine(m), context);
  }

  /** `formatMisconceptionsContext`: grows the text entry by entry. */
  method FormatMisconceptionsContext(ms: seq<Misconception>) returns (context: string)
    ensures context == MisconceptionsText(ms)
  {
    if |ms| == 0 {
      return "";
    }
    context := MisconceptionsTitle;
    context := context + MisconceptionsIntro;
    var i := 0;
    while i < |ms|
      invariant 0 <= i <= |ms|
      invariant context == MisconceptionsTitle + MisconceptionsIntro + Entries(ms[..i])
    {
      var m := ms[i];
      ghost var before := context;
      context := AppendEntry(context, m, i);
      NumberedSnoc(EntryText, ms, i);
      ListStep(MisconceptionsTitle + MisconceptionsIntro, Entries(ms[..i]), EntryText(i + 1, m), before, context);
      i := i + 1;
    }
    assert ms[..i] == ms;
    context := context + MisconceptionsInstruction;
  }

  // -----------------------------------------------------------------------
  // Skill progress

  /** The three mastery tiers. */
  datatype Tier = Beginner | Intermediate | Advanced {
    function Rank(): nat {
      match this
      case Beginner => 0
      case Intermediate => 1
      case Advanced => 2
    }
  }

  /** The tier of a mastery level: below 0.3, from 0.3 below 0.7, from 0.7. */
  function TierOf(mastery: real): (t: Tier)
    ensures t == Beginner <==> mastery < 0.3
    ensures t == Intermediate <==> 0.3 <= mastery < 0.7
    ensures t == Advanced <==> 0.7 <= mastery
  {
    if mastery < 0.3 then Beginner else if mastery < 0.7 then Intermediate else Advanced
  }

  /** The instruction that closes the progress part for a tier. */
  function TierInstruction(t: Tier): string {
    match t
    case Beginner => BeginnerInstruction
    case Intermediate => IntermediateInstruction
    case Advanced => AdvancedInstruction
  }

  /** A higher mastery level never falls in a lower tier. */
  lemma TierMonotonic(a: real, b: real)
    requires a <= b
    ensures TierOf(a).Rank() <= TierOf(b).Rank()
  {
  }

  /** The figures shown, each absent one read as 0. */
  function Mastery(p: SkillProgress): real { p.masteryLevel.GetOr(0.0) }
  function Attempts(p: SkillProgress): int { p.attemptsCount.GetOr(0) }
  function Success(p: SkillProgress): real { p.successRate.GetOr(0.0) }

  /** The three lines of figures. */
  function ProgressFigures(p: SkillProgress): string {
    ("- **Poziom opanowania:** " + FormatPercent(Mastery(p)) + "%\n")
    + ("- **Liczba prób:** " + IntToString(Attempts(p)) + "\n")
    + ("- **Wskaźnik sukcesu:** " + FormatPercent(Success(p)) + "%\n")
  }

  /** The progress part: the title, the figures, then the instruction of
      the mastery tier. */
  function ProgressText(p: SkillProgress): string {
    ProgressTitle + ProgressFigures(p) + TierInstruction(TierOf(Mastery(p)))
  }

  /** The progress part ends with exactly the instruction of its tier. */
  lemma ProgressEndsWithTier(p: SkillProgress)
    ensures var r := ProgressText(p); var ins := TierInstruction(TierOf(Mastery(p)));
      |r| >= |ins| && r[|r| - |ins|..] == ins
  {
    var body := ProgressTitle + ProgressFigures(p);
    var ins := TierInstruction(TierOf(Mastery(p)));
    assert ProgressText(p) == body + ins;
    assert (body + ins)[|body|..] == ins;
  }

  /** A row without a mastery level is shown as 0% and taught as a
      beginner. */
  lemma MissingMasteryIsBeginner(p: SkillProgress)
    requires p.masteryLevel.None?
    ensures TierOf(Mastery(p)) == Beginner
    ensures FormatPercent(Mastery(p)) == "0"
  {
    assert RoundHalfUp(0.0) == 0;
  }

  /** `formatSkillProgressContext`: "" without a row, else the progress
      part grown line by line. */
  method FormatSkillProgressContext(progress: Option<SkillProgress>) returns (context: string)
    ensures progress.None? ==> context == ""
    ensures progress.Some? ==> context == ProgressText(progress.value)
  {
    if progress.None? {
      return "";
    }
    var p := progress.value;
    context := ProgressTitle;
    var masteryLevel := p.masteryLevel.GetOr(0.0);
    var attempts := p.attemptsCount.GetOr(0);
    var successRate := p.successRate.GetOr(0.0);
    var masteryLine := "- **Poziom opanowania:** " + FormatPercent(masteryLevel) + "%\n";
    var attemptsLine := "- **Liczba prób:** " + IntToString(attempts) + "\n";
    var successLine := "- **Wskaźnik sukcesu:** " + FormatPercent(successRate) + "%\n";
    context := context + masteryLine;
    context := context + attemptsLine;
    Regroup3(ProgressTitle, masteryLine, attemptsLine);
    context := context + successLine;
    Regroup3(ProgressTitle, masteryLine + attemptsLine, successLine);
    assert context == ProgressTitle + ProgressFigures(p);
    if masteryLevel < 0.3 {
      context := context + BeginnerInstruction;
    } else if masteryLevel < 0.7 {
      context := context + IntermediateInstruction;
    } else {
      context := context + AdvancedInstruction;
    }
  }

  // -----------------------------------------------------------------------
  // Assembly

  /** The progress row the assembly sees: the lookup is made only when a
      skill id is given; otherwise there is no row. */
  function EffectiveProgress(skillId: Option<string>, progress: Lookup<Option<SkillProgress>>): Lookup<Option<SkillProgress>> {
    if Truthy(skillId) then progress else Found(None)
  }

  /** The present parts, the misconceptions before the progress. */
  function Parts(ms: seq<Misconception>, p: Option<SkillProgress>): seq<string> {
    (if |ms| > 0 then [MisconceptionsText(ms)] else [])
    + (if p.Some? then [ProgressText(p.value)] else [])
  }

  /** The final step: `null` for no parts, else the header and the parts
      joined by blank lines. */
  function Assemble(parts: seq<string>): Option<string> {
    if |parts| == 0 then None else Some(ContextHeader + Join(parts, PartSeparator))
  }

  /** One part follows the header directly; two are separated by a blank
      line. */
  lemma AssembleShapes(a: string, b: string)
    ensures Assemble([a]) == Some(ContextHeader + a)
    ensures Assemble([a, b]) == Some(ContextHeader + a + PartSeparator + b)
  {
    assert [a, b][1..] == [b];
    assert Join([a, b], PartSeparator) == a + PartSeparator + b;
    assert ContextHeader + (a + PartSeparator + b) == ContextHeader + a + PartSeparator + b;
  }

  /** `buildLightweightContext` over its inputs: `None` for `null`. */
  function ContextText(skillId: Option<string>, misconceptions: Lookup<seq<Misconception>>,
                       progress: Lookup<Option<SkillProgress>>): Option<string>
  {
    match (misconceptions, EffectiveProgress(skillId, progress))
    case (Found(ms), Found(p)) => Assemble(Parts(ms, p))
    case _ => None
  }

  /** The part-collecting steps of `buildLightweightContext`: push the
      misconception part when there are rows, then the progress part when
      there is a row. */
  method CollectParts(ms: seq<Misconception>, skillProgress: Option<SkillProgress>) returns (contextParts: seq<string>)
    ensures contextParts == Parts(ms, skillProgress)
  {
    contextParts := [];
    if |ms| > 0 {
      var part := FormatMisconceptionsContext(ms);
      contextParts := contextParts + [part];
    }
    ghost var first := contextParts;
    assert first == if |ms| > 0 then [MisconceptionsText(ms)] else [];
    if skillProgress.Some? {
      var part := FormatSkillProgressContext(skillProgress);
      contextParts := contextParts + [part];
    }
    assert contextParts == first + (if skillProgress.Some? then [ProgressText(skillProgress.value)] else []);
  }

  /** `buildLightweightContext`: collects the parts, then returns `None` for
      none or the header and the parts joined by blank lines. */
  method BuildLightweightContext(skillId: Option<string>, misconceptions: Lookup<seq<Misconception>>,
                                 progress: Lookup<Option<SkillProgress>>) returns (r: Option<string>)
    ensures r == ContextText(skillId, misconceptions, progress)
  {
    if misconceptions.Threw? {
      return None;
    }
    var ms := misconceptions.value;
    var skillProgress: Option<SkillProgress> := None;
    if Truthy(skillId) {
      if progress.Threw? {
        return None;
      }
      skillProgress := progress.value;
    }
    var contextParts := CollectParts(ms, skillProgress);
    if |contextParts| == 0 {
      return None;
    }
    r := Some(ContextHeader + Join(contextParts, PartSeparator));
  }

  /** With both lookups answered, the result is `null` exactly when there
      are no misconceptions and no progress row is used. */
  lemma NullExactlyWhenNothing(skillId: Option<string>, ms: seq<Misconception>, p: Option<SkillProgress>)
    ensures ContextText(skillId, Found(ms), Found(p)).None?
        <==> |ms| == 0 && (!Truthy(skillId) || p.None?)
  {
  }

  /** The three shapes of a non-null result: the header, then the
      misconception part and the progress part, separated by a blank line
      when both are present. */
  lemma ContextShapes(skillId: Option<string>, ms: seq<Misconception>, p: Option<SkillProgress>)
    ensures |ms| > 0 && Truthy(skillId) && p.Some? ==>
      ContextText(skillId, Found(ms), Found(p))
      == Some(ContextHeader + MisconceptionsText(ms) + PartSeparator + ProgressText(p.value))
    ensures |ms| > 0 && (!Truthy(skillId) || p.None?) ==>
      ContextText(skillId, Found(ms), Found(p)) == Some(ContextHeader + MisconceptionsText(ms))
    ensures |ms| == 0 && Truthy(skillId) && p.Some? ==>
      ContextText(skillId, Found(ms), Found(p)) == Some(ContextHeader + ProgressText(p.value))
  {
    var q := EffectiveProgress(skillId, Found(p)).value;
    if |ms| > 0 && q.Some? {
      assert Parts(ms, q) == [MisconceptionsText(ms), ProgressText(q.value)];
      AssembleShapes(MisconceptionsText(ms), ProgressText(q.value));
    } else if |ms| > 0 {
      assert Parts(ms, q) == [MisconceptionsText(ms)];
      AssembleShapes(MisconceptionsText(ms), "");
    } else if q.Some? {
      assert Parts(ms, q) == [ProgressText(q.value)];
      AssembleShapes(ProgressText(q.value), "");
    }
  }

  /** Without a skill id the progress lookup is not consulted: its outcome,
      even a failure, does not change the result, and only the misconception
      part can appear. */
  lemma NoSkillIdIgnoresProgress(skillId: Option<string>, misconceptions: Lookup<seq<Misconception>>,
                                 p1: Lookup<Option<SkillProgress>>, p2: Lookup<Option<SkillProgress>>)
    requires !Truthy(skillId)
    ensures ContextText(skillId, misconceptions, p1) == ContextText(skillId, misconceptions, p2)
    ensures ContextText(skillId, misconceptions, p1)
         == (if misconceptions.Found? && |misconceptions.value| > 0
             then Some(ContextHeader + MisconceptionsText(misconceptions.value)) else None)
  {
    if misconceptions.Found? {
      ContextShapes(skillId, misconceptions.value, None);
    }
  }

  /** A failure while the inputs are obtained gives `null`; it does not
      escape. */
  lemma FailureGivesNull(skillId: Option<string>, misconceptions: Lookup<seq<Misconception>>,
                         progress: Lookup<Option<SkillProgress>>)
    requires misconceptions.Threw? || (Truthy(skillId) && progress.Threw?)
    ensures ContextText(skillId, misconceptions, progress).None?
  {
  }
}
