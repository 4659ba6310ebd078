# Mentavo tutor logic in Dafny

This project models the self-contained logic of the Mentavo maths-tutoring
application and proves what it promises. There are four parts.

- **Mock tutor** (`MockAI`). This is the offline stand-in for the language
  model. A keyword classifier with a fixed priority picks one of five
  response tables. One shared counter then picks an entry by round-robin.
  A greeting resets the counter, and `resetMockAI` zeroes it. The module
  also models the `needsLongerResponse` predicate. The counter is the one
  field of the class `MockTutor`. Its methods are proved against the pure
  function `Respond`.
- **System-prompt builders** (`GadiePrompt`, `GadieTemplates`). These are
  the GADIE prompt and the legacy prompt. Each starts from a fixed
  template and appends optional blocks. What decides the blocks is the
  skill name and three flags: first contact, hint request and calibration
  reminder. The builders are imperative methods that append with `+=`.
  They are proved against specification functions. These functions take
  the fixed texts as a `Templates` record, so the structural properties
  hold whatever the wording. `BuildGadiePrompt` and `BuildLegacyPrompt`
  apply the builders to the texts of gadie-prompt.ts, held in `SourceTemplates`.
- **Educational context** (`LightweightContext`). This covers the
  numbered misconception list, the progress part with its three-tier
  instruction, and the rule that joins the parts under one header or
  yields `null`. The database rows arrive as inputs.
- **Avatar** (`ChatAvatar`). The assistant gets an icon. The user gets
  initials: the first characters of the space-separated words of the
  name, upper-cased and cut to two characters. The fallback is "U".

`Text` models the JavaScript string operations these parts use:
`includes`, `split`, `join`, `toLowerCase`, `toUpperCase`, integer
printing and `toFixed(0)`. `Wrappers` holds `Option`.

A JavaScript value that may be missing and is tested for truthiness is an
`Option`. An optional string counts as present only when it is `Some` and
not empty (`Text.Truthy`).

## Model

| member | source | states |
|---|---|---|
| MockAI.Responses | src/services/mockAI.ts:14-65 | every response table is non-empty, so `index % length` is always a valid entry |
| MockAI.Classify | src/services/mockAI.ts:74-87 | the chosen category's keywords occur in the lower-cased message, and no matching category has higher priority; the order is greeting, then help, then question (needs '?' and one of jak/co/dlaczego), then confusion, then default |
| MockAI.Select | src/services/mockAI.ts:90-93 | the selected message is the entry at `index mod length` of the category's table, so it is one of that table's entries |
| MockAI.Answer | src/services/mockAI.ts:78-94 | for a category, the reply is the table entry at the counter value used, which is 0 after a greeting and the old counter otherwise; the counter left behind is one more than the value used |
| MockAI.Respond | src/services/mockAI.ts:72-99 | one call returns the entry of the classified category's table at `(0 after a greeting, else the old counter) mod length`; after a greeting the counter is 1, after anything else it is one more than before |
| MockAI.Run | src/services/mockAI.ts:72-99 | successive calls give one reply per message |
| MockAI.RunIsSuccessiveCalls | src/services/mockAI.ts:72-99 | a run is one `Respond` call per message, each starting from the counter the previous call left |
| MockAI.RepliesCycle | src/services/mockAI.ts:90-94 | calls of one non-greeting category, starting at counter i, answer as single calls with the counter at i, i + 1, i + 2, … |
| MockAI.RunCycles | src/services/mockAI.ts:72-99 | successive messages that all fall in one non-greeting category get `Select(t, i + k)` for message k when the counter starts at i |
| MockAI.RunNoRepeat | src/services/mockAI.ts:72-99 | within one table length, such a run repeats no reply: repeated calls cycle through the whole table |
| MockAI.GreetingInAnyCase | src/services/mockAI.ts:76-80 | a greeting keyword in any letter case, anywhere in the message, yields the greeting text and leaves the counter at 1, whatever it was |
| MockAI.GreetingResetsConversation | src/services/mockAI.ts:78-80 | a conversation that starts with a greeting gives the same replies whatever the counter was before |
| MockAI.QuestionAfterGreeting | src/services/mockAI.ts:80-94 | the first maths question after a greeting gets the second entry of the question table, because the greeting leaves the counter at 1 |
| MockAI.SelectPeriodic | src/services/mockAI.ts:93 | selection repeats with the period of the table's length |
| MockAI.SelectCycles | src/services/mockAI.ts:93-94 | within one period, distinct counter values select distinct entries |
| MockAI.MockTutor.constructor | src/services/mockAI.ts:67 | the counter starts at 0 |
| MockAI.MockTutor.GetMockAIResponse | src/services/mockAI.ts:72-100 | the returned message and the new counter are exactly `Respond` of the old counter and the message |
| MockAI.MockTutor.ResetMockAI | src/services/mockAI.ts:112-114 | the counter becomes 0 and nothing else changes |
| MockAI.NeedsLongerResponse | src/services/mockAI.ts:119-121 | a message needs a longer answer exactly when it is over 100 characters long or "wyjaśnij" or "opisz" occurs in it at some index |
| MockAI.NeedsLongerResponseExtend | src/services/mockAI.ts:119-121 | adding text around a message that needs a longer answer keeps that need |
| MockAI.NeedsLongerResponseIsCaseSensitive | src/services/mockAI.ts:120 | the keywords are searched in the raw message: "Opisz" does not count, "opisz" does |
| GadiePrompt.FlagSectionsOrdered | supabase/functions/study-tutor/gadie-prompt.ts:95-110 | the flag blocks come in the fixed order first contact, hint, calibration, and none is a skill block |
| GadiePrompt.FlagSectionsPresent | supabase/functions/study-tutor/gadie-prompt.ts:95-110 | each flag block is present exactly when its flag is set |
| GadiePrompt.SectionsOrdered | supabase/functions/study-tutor/gadie-prompt.ts:89-110 | the optional GADIE blocks appear in the strict order skill, first contact, hint, calibration, so none appears twice; a skill block can only be first, and only when a skill name is given |
| GadiePrompt.SectionsPresent | supabase/functions/study-tutor/gadie-prompt.ts:89-110 | the skill block is present exactly when a non-empty skill name is given, and each flag block exactly when its flag is set |
| GadiePrompt.AppendedFlags | supabase/functions/study-tutor/gadie-prompt.ts:95-110 | the flag blocks' text is the three optional contributions in order, each a blank line and the block, or nothing |
| GadiePrompt.AppendedSections | supabase/functions/study-tutor/gadie-prompt.ts:89-110 | the GADIE blocks' text is the skill contribution followed by the flag blocks' text |
| GadiePrompt.GadieSteps | supabase/functions/study-tutor/gadie-prompt.ts:19-112 | the GADIE prompt is the base template followed by the four optional contributions, in the order the builder appends them |
| GadiePrompt.AssembleGadiePrompt | supabase/functions/study-tutor/gadie-prompt.ts:16-113 | the `+=` steps of `buildGADIEPrompt` build exactly the base template and the requested blocks in order, for any texts |
| GadiePrompt.BuildGadiePrompt | supabase/functions/study-tutor/gadie-prompt.ts:16-113 | `buildGADIEPrompt` with the texts of gadie-prompt.ts gives the GADIE prompt of the context |
| GadiePrompt.GadieStartsWithBase | supabase/functions/study-tutor/gadie-prompt.ts:19-87 | the prompt begins with the base template, whose subject is the skill name, or "tym zagadnieniu" when the name is missing or empty |
| GadiePrompt.GadieSkillBlock | supabase/functions/study-tutor/gadie-prompt.ts:90-92 | with a skill name, its block follows the base template directly and the flag blocks follow it; without one, the flag blocks follow the base template |
| GadiePrompt.GadieMinimal | supabase/functions/study-tutor/gadie-prompt.ts:19-112 | with no skill name and no flag set, the prompt is exactly the base template |
| GadiePrompt.GadieIgnoresMessageCount | supabase/functions/study-tutor/gadie-prompt.ts:17 | contexts that differ only in `messageCount` give the same GADIE prompt |
| GadiePrompt.LegacySteps | supabase/functions/study-tutor/gadie-prompt.ts:118-172 | the legacy prompt is the filled template, the three optional contributions in order, then the two trailer blocks |
| GadiePrompt.AssembleLegacyPrompt | supabase/functions/study-tutor/gadie-prompt.ts:115-175 | the `+=` steps of `buildLegacyPrompt` build exactly the filled template, the requested flag blocks and the trailer, for any texts |
| GadiePrompt.BuildLegacyPrompt | supabase/functions/study-tutor/gadie-prompt.ts:115-175 | `buildLegacyPrompt` with the texts of gadie-prompt.ts gives the legacy prompt of the context |
| GadiePrompt.LegacyEmbedsSkill | supabase/functions/study-tutor/gadie-prompt.ts:118-150 | the skill line sits inside the template, before every flag block; without a skill name the template is followed directly by the flag blocks |
| GadiePrompt.LegacyEndsWithTrailer | supabase/functions/study-tutor/gadie-prompt.ts:167-172 | whatever the flags, the legacy prompt ends with the math-symbols block followed by the length-limit block |
| GadiePrompt.LegacyIgnoresMessageCount | supabase/functions/study-tutor/gadie-prompt.ts:116 | contexts that differ only in `messageCount` give the same legacy prompt |
| LightweightContext.NumberedConcat | supabase/functions/study-tutor/lightweight-context.ts:101-102 | numbering a list split in two numbers the second half on from where the first ends |
| LightweightContext.NumberedSnoc | supabase/functions/study-tutor/lightweight-context.ts:101-102 | one more row adds its entry at the end, numbered by its position (the loop step) |
| LightweightContext.NumberedPosition | supabase/functions/study-tutor/lightweight-context.ts:101-102 | row `i` is shown as entry `i + 1`, after the entries of the rows before it and before those of the rows after it |
| LightweightContext.EntryTypeLabel | supabase/functions/study-tutor/lightweight-context.ts:102 | an entry shows its type, or "Nieznany typ" when the type is missing or empty |
| LightweightContext.EntryOptionalLines | supabase/functions/study-tutor/lightweight-context.ts:103-108 | the description and correct-concept lines are empty exactly when those fields are missing or empty, and otherwise carry them |
| LightweightContext.MisconceptionsShape | supabase/functions/study-tutor/lightweight-context.ts:96-111 | the misconception part is empty exactly for no rows; otherwise it starts with the title and introduction and ends with the instruction paragraph |
| LightweightContext.AppendEntry | supabase/functions/study-tutor/lightweight-context.ts:101-109 | one pass of the `forEach` callback appends exactly that row's entry numbered `index + 1` |
| LightweightContext.FormatMisconceptionsContext | supabase/functions/study-tutor/lightweight-context.ts:95-114 | the loop builds exactly the misconception part: "" for no rows, otherwise the title, the numbered entries and the instruction |
| LightweightContext.TierOf | supabase/functions/study-tutor/lightweight-context.ts:130-136 | the tiers are mastery < 0.3, 0.3 ≤ mastery < 0.7 and mastery ≥ 0.7; each level is in exactly one tier |
| LightweightContext.TierMonotonic | supabase/functions/study-tutor/lightweight-context.ts:130-136 | a higher mastery level never falls in a lower tier |
| LightweightContext.ProgressEndsWithTier | supabase/functions/study-tutor/lightweight-context.ts:125-136 | the progress part ends with exactly the instruction of its mastery tier |
| LightweightContext.MissingMasteryIsBeginner | supabase/functions/study-tutor/lightweight-context.ts:121-130 | a row without a mastery level is shown as 0% and falls in the beginner tier |
| LightweightContext.FormatSkillProgressContext | supabase/functions/study-tutor/lightweight-context.ts:116-139 | "" without a row; otherwise the title, the three figures with missing ones read as 0, and the tier instruction |
| LightweightContext.AssembleShapes | supabase/functions/study-tutor/lightweight-context.ts:42 | one part follows the header directly; two parts are separated by a blank line |
| LightweightContext.CollectParts | supabase/functions/study-tutor/lightweight-context.ts:28-35 | the misconception part is pushed when there are rows, then the progress part when there is a row |
| LightweightContext.BuildLightweightContext | supabase/functions/study-tutor/lightweight-context.ts:9-50 | the function's steps give exactly the specified context: `null` on failure or with no parts, else the header and the parts joined by blank lines |
| LightweightContext.NullExactlyWhenNothing | supabase/functions/study-tutor/lightweight-context.ts:24-40 | with both lookups answered, the result is `null` exactly when there are no misconceptions and no progress row is used |
| LightweightContext.ContextShapes | supabase/functions/study-tutor/lightweight-context.ts:28-42 | a non-null result is the header followed by the misconception part, the progress part, or both in that order separated by a blank line |
| LightweightContext.NoSkillIdIgnoresProgress | supabase/functions/study-tutor/lightweight-context.ts:24 | without a skill id the progress lookup is not consulted: its outcome, even a failure, changes nothing, and only the misconception part can appear |
| LightweightContext.FailureGivesNull | supabase/functions/study-tutor/lightweight-context.ts:46-49 | a failure while the inputs are obtained gives `null` instead of being propagated |
| ChatAvatar.Slice | src/components/ChatAvatar.tsx:24 | `slice(0, n)` gives a prefix of at most `n` characters, the whole string when it is shorter |
| ChatAvatar.InitialsOf | src/components/ChatAvatar.tsx:18-25 | the initials have at most 2 characters, and are "U" when the name is missing or empty |
| ChatAvatar.AvatarFor | src/components/ChatAvatar.tsx:8-25 | the icon is shown exactly for the assistant, whatever the name; the user always gets initials of at most two characters: "U" without a name, otherwise the upper-cased word starts cut to two |
| ChatAvatar.JoinHeads | src/components/ChatAvatar.tsx:21-22 | joining the mapped characters with "" concatenates them |
| ChatAvatar.SplitFirstChars | src/components/ChatAvatar.tsx:20-22 | splitting on spaces and taking each word's first character picks exactly the characters that begin a word |
| ChatAvatar.InitialsAreWordStarts | src/components/ChatAvatar.tsx:18-24 | a non-empty name's initials are the characters that begin its words, in order, upper-cased and then cut to two |
| ChatAvatar.InitialsPrefix | src/components/ChatAvatar.tsx:23-24 | the initials are a prefix of the upper-cased word starts, of length min(2, their number): truncation comes after upper-casing |
| ChatAvatar.WordStartsBounds | src/components/ChatAvatar.tsx:20-22 | no initial is a space, and there are no more initials than characters in the name |
| ChatAvatar.WordStartsEmpty | src/components/ChatAvatar.tsx:20-22 | a name has word starts exactly when it has a character other than a space |
| ChatAvatar.BlankNameHasNoInitials | src/components/ChatAvatar.tsx:18-25 | a non-empty name shows empty initials exactly when it is made only of spaces |
| ChatAvatar.DoubleSpaceIgnored | src/components/ChatAvatar.tsx:20-22 | a repeated space adds an empty word that contributes nothing, so the initials do not change |
| Text.Truthy | supabase/functions/study-tutor/gadie-prompt.ts:29 | an optional string is truthy exactly when defaulting it to "" with `||` gives a non-empty string, and then that string is its value |
| Text.Contains | src/services/mockAI.ts:78-86 | `includes` can only succeed when the substring is no longer than the string, and the empty substring is always found |
| Text.ContainsAt | src/services/mockAI.ts:78 | `includes` holds exactly when the substring is found at some index |
| Text.ContainsExtend | src/services/mockAI.ts:120 | a string found in `s` is found in any text that contains `s` |
| Text.JoinConcat | supabase/functions/study-tutor/lightweight-context.ts:42 | joining two non-empty lists is joining each and putting one separator between them, as `join` does |
| Text.Split | src/components/ChatAvatar.tsx:20 | `split` on one character gives at least one piece; no piece holds the separator, and joining the pieces with it gives the string back |
| Text.SplitUnique | src/components/ChatAvatar.tsx:20 | those three facts determine the pieces, so they are the ones `split` returns |
| Text.ToLower | src/services/mockAI.ts:76 | `toLowerCase` keeps the length and maps each character by itself |
| Text.ToUpper | src/components/ChatAvatar.tsx:23 | `toUpperCase` keeps the length and maps each character by itself |
| Text.ContainsToLower | src/services/mockAI.ts:76-78 | a keyword found in a message is found, lower-cased, in the lower-cased message |
| Text.NatToString | supabase/functions/study-tutor/lightweight-context.ts:102 | a numeral is non-empty, all digits, with no leading zero except for 0 itself |
| Text.NatToStringValue | supabase/functions/study-tutor/lightweight-context.ts:102 | the printed numeral reads back as the number |
| Text.IntToString | supabase/functions/study-tutor/lightweight-context.ts:126 | an integer prints with a leading '-' exactly when it is negative, and the digits after it read back as its magnitude |
| Text.RoundHalfUp | supabase/functions/study-tutor/lightweight-context.ts:102-127 | the result is the integer nearest to the value, the larger one on a tie |
| Text.FixedZero | supabase/functions/study-tutor/lightweight-context.ts:102-127 | `toFixed(0)` prints a '-' exactly for negative values, then the digits of the magnitude rounded half up |

## Left out

- Timing is not modelled. This covers the artificial delay of `getMockAIResponse` (`setTimeout`, src/services/mockAI.ts:97), the `delay` field it reads, and `getTypingDelay`, whose value comes from `Math.random`.
- `async`/`await` and `Promise.all` are not modelled: the two lookups are given as already-settled inputs.
- Logging through `console.log`/`console.error` has no effect on results and is not modelled.
- The database queries (`fetchActiveMisconceptions`, `fetchSkillProgress`) are not modelled. Their rows are parameters. The query filters them (strength at least 0.3, strongest first, at most 3), so the model accepts any list.
- Both fetch helpers catch their own errors and return an empty list or `null`. `Lookup.Threw` stands for any exception that still reaches the `catch` of `buildLightweightContext`.
- src/pages/HomePage.tsx, `QuickAccessCard`, `WeeklyStreak` and `TypingIndicator` are not part of this model: they are markup and data fetching. The markup of `ChatAvatar` is reduced to the `Avatar` value.
- Numbers are reals. Binary floating-point rounding is not modelled, nor are NaN, values of magnitude 10^21 or more (where `toFixed` switches to exponent notation), and a `null` strength. `Text.FixedZero` rounds the magnitude of the exact decimal value half up (so -2.5 prints as "-3").
- JavaScript measures `length`, `n[0]` and `slice` in UTF-16 code units. The model counts Unicode characters, so it differs for characters outside the Basic Multilingual Plane, such as emoji.
- Text.ToLower: case mapping covers ASCII and the nine Polish letters Ą Ć Ę Ł Ń Ó Ś Ź Ż. Other letters map to themselves.
- Text.ToUpper: the same character table as `Text.ToLower`. Mappings that change the length, such as ß to SS, are not modelled.
- MockAI.MockTutor: the counter is an unbounded `nat`, with no loss of precision past 2^53.
- The mock tutor table is modelled entry by entry, but the `delay` values are kept as data only.
- GadiePrompt: the builders are proved for any texts. The wording of the Polish templates in `GadieTemplates` is transcribed from gadie-prompt.ts but is not itself a verification target.
- LightweightContext: rows are records with typed fields. A row that is `null` or missing fields entirely is not modelled.
