/** The mock tutor used in testing mode: a keyword classifier picks one of
    five canned response tables, and one shared counter cycles through the
    chosen table. The simulated network delay is kept as data only. */
module MockAI {
  import opened Text

  /** The keys of the response table. */
  datatype ResponseType = Greeting | MathQuestion | HelpRequest | Confusion | Default

  /** A canned reply and its simulated delay in milliseconds. */
  datatype MockResponse = MockResponse(message: string, delay: nat)

  // The canned reply texts.
  const GreetingText: string := "Cześć! 😊 Jestem Mentavo, Twoim korepetytorem matematyki. W czym mogę Ci dziś pomóc?"
  const QuestionText1: string := "Świetne pytanie! 🤔 Zanim przejdziemy do rozwiązania, powiedz mi - co już wiesz o tym zagadnieniu?"
  const QuestionText2: string := "Rozumiem! Spróbujmy to rozwiązać krok po kroku. Jaki byłby pierwszy krok według Ciebie?"
  const QuestionText3: string := "Dokładnie! 👍 Teraz gdy mamy ten krok, co myślisz, że powinniśmy zrobić dalej?"
  const HelpText: string := "Oczywiście, chętnie pomogę! 😊 Zamiast od razu podać odpowiedź, spróbujmy razem. Co przychodzi Ci do głowy, gdy patrzysz na to zadanie?"
  const ConfusionText: string := "Widzę, że to może być trudne. Nie martw się! 💪 Spróbujmy uprościć. Czy znasz podstawowy wzór na to zagadnienie?"
  const DefaultText1: string := "Interesujące podejście! 🤔 Czy możesz mi wyjaśnić, jak doszedłeś do tego wniosku?"
  const DefaultText2: string := "Świetnie myślisz! 👍 A co by się stało, gdybyśmy spróbowali to zrobić inaczej?"
  const DefaultText3: string := "Dobra robota! 😊 Teraz spróbuj zastosować tę samą logikę do następnego kroku."

  /** The response table: every category has at least one entry. */
  function Responses(t: ResponseType): (table: seq<MockResponse>)
    ensures |table| > 0
  {
    match t
    case Greeting => [
      MockResponse(GreetingText, 1500)]
    case MathQuestion => [
      MockResponse(QuestionText1, 2000),
      MockResponse(QuestionText2, 2500),
      MockResponse(QuestionText3, 2000)]
    case HelpRequest => [
      MockResponse(HelpText, 1800)]
    case Confusion => [
      MockResponse(ConfusionText, 2200)]
    case Default => [
      MockResponse(DefaultText1, 2000),
      MockResponse(DefaultText2, 1900),
      MockResponse(DefaultText3, 2100)]
  }

  /** `message` is the text of one of the entries of category `t`. */
  predicate IsEntryOf(t: ResponseType, message: string) {
    exists k :: 0 <= k < |Responses(t)| && Responses(t)[k].message == message
  }

  /** The order in which the classifier tests the categories; lower wins. */
  function Priority(t: ResponseType): nat {
    match t
    case Greeting => 0
    case HelpRequest => 1
    case MathQuestion => 2
    case Confusion => 3
    case Default => 4
  }

  /** The keywords of category `t` occur in the lower-cased message
      (`Default` matches everything). */
  predicate Matches(t: ResponseType, lower: string) {
    match t
    case Greeting =>
      Contains(lower, "cześć") || Contains(lower, "hej") || Contains(lower, "witaj")
    case HelpRequest =>
      Contains(lower, "pomóż") || Contains(lower, "pomocy") || Contains(lower, "nie rozumiem")
    case MathQuestion =>
      Contains(lower, "?") && (Contains(lower, "jak") || Contains(lower, "co") || Contains(lower, "dlaczego"))
    case Confusion =>
      Contains(lower, "nie wiem") || Contains(lower, "trudne") || Contains(lower, "za ciężkie")
    case Default => true
  }

  /** The category of a lower-cased message: the matching category of
      highest priority. */
  function Classify(lower: string): (t: ResponseType)
    ensures Matches(t, lower)
    ensures forall u :: Matches(u, lower) ==> Priority(t) <= Priority(u)
  {
    if Matches(Greeting, lower) then Greeting
    else if Matches(HelpRequest, lower) then HelpRequest
    else if Matches(MathQuestion, lower) then MathQuestion
    else if Matches(Confusion, lower) then Confusion
    else Default
  }

  /** The entry that counter value `index` selects in the table of `t`:
      round-robin, always one of the table's entries. */
  function Select(t: ResponseType, index: nat): (message: string)
    ensures IsEntryOf(t, message)
    ensures message == Responses(t)[index % |Responses(t)|].message
  {
    var k := index % |Responses(t)|;
    assert IsEntryOf(t, Responses(t)[k].message);
    Responses(t)[k].message
  }

  /** What one call returns and the counter value it leaves behind. */
  datatype Reply = Reply(message: string, nextIndex: nat)

  /** The reply for a message of category `t` with the counter at `index`:
      a greeting first resets the counter to 0; the entry is selected with
      the counter's value, which is then incremented by one. */
  function Answer(index: nat, t: ResponseType): (r: Reply)
    ensures IsEntryOf(t, r.message)
    ensures t == Greeting ==> r.nextIndex == 1
    ensures t != Greeting ==> r.nextIndex == index + 1
    ensures r.message == Select(t, r.nextIndex - 1)
  {
    var used := if t == Greeting then 0 else index;
    Reply(Select(t, used), used + 1)
  }

  /** One call with the counter at `index`: the message is classified, then
      answered as its category demands. */
  function Respond(index: nat, userMessage: string): (r: Reply)
    ensures IsEntryOf(Classify(ToLower(userMessage)), r.message)
    ensures Classify(ToLower(userMessage)) == Greeting ==> r.nextIndex == 1
    ensures Classify(ToLower(userMessage)) != Greeting ==> r.nextIndex == index + 1
    ensures r.message == Select(Classify(ToLower(userMessage)), r.nextIndex - 1)
  {
    Answer(index, Classify(ToLower(userMessage)))
  }

  /** The categories of a list of messages. */
  function Categories(messages: seq<string>): (cats: seq<ResponseType>)
    ensures |cats| == |messages|
    ensures forall k :: 0 <= k < |messages| ==> cats[k] == Classify(ToLower(messages[k]))
  {
    seq(|messages|, k requires 0 <= k < |messages| => Classify(ToLower(messages[k])))
  }

  /** The replies to messages of categories `cats`, the counter passed from
      each call to the next. */
  function Replies(index: nat, cats: seq<ResponseType>): (replies: seq<string>)
    ensures |replies| == |cats|
    decreases |cats|
  {
    if |cats| == 0 then []
    else
      var r := Answer(index, cats[0]);
      [r.message] + Replies(r.nextIndex, cats[1..])
  }

  /** The replies of successive calls starting with the counter at `index`. */
  function Run(index: nat, messages: seq<string>): (replies: seq<string>)
    ensures |replies| == |messages|
  {
    Replies(index, Categories(messages))
  }

  /** `Run` is one `Respond` call per message, each starting from the
      counter the previous call left. */
  lemma RunIsSuccessiveCalls(index: nat, messages: seq<string>)
    requires |messages| > 0
    ensures Run(index, messages)
         == [Respond(index, messages[0]).message] + Run(Respond(index, messages[0]).nextIndex, messages[1..])
  {
    var cats := Categories(messages);
    assert cats[1..] == Categories(messages[1..]);
  }

  /** A greeting keyword written in any case, anywhere in the message, yields
      the greeting and leaves the counter at 1, whatever it was. */
  lemma GreetingInAnyCase(index: nat, userMessage: string, word: string)
    requires Contains(userMessage, word)
    requires ToLower(word) in ["cześć", "hej", "witaj"]
    ensures Respond(index, userMessage) == Reply(GreetingText, 1)
  {
    ContainsToLower(userMessage, word);
    assert Matches(Greeting, ToLower(userMessage));
  }

  /** After a greeting the conversation no longer depends on what came
      before: the replies from then on are the same for every counter value. */
  lemma GreetingResetsConversation(i: nat, j: nat, messages: seq<string>)
    requires |messages| > 0 && Matches(Greeting, ToLower(messages[0]))
    ensures Run(i, messages) == Run(j, messages)
  {
    var cats := Categories(messages);
    assert cats[0] == Greeting;
    assert Answer(i, cats[0]) == Answer(j, cats[0]);
  }

  /** Because a greeting leaves the counter at 1, the first question after
      a greeting gets the second entry of its table, not the first. */
  lemma QuestionAfterGreeting(index: nat, greeting: string, question: string)
    requires Matches(Greeting, ToLower(greeting))
    requires Classify(ToLower(question)) == MathQuestion
    ensures Run(index, [greeting, question]) == [GreetingText, Responses(MathQuestion)[1].message]
  {
    var cats := Categories([greeting, question]);
    assert cats == [Greeting, MathQuestion];
    assert cats[1..] == [MathQuestion];
    assert Replies(1, [MathQuestion]) == [Select(MathQuestion, 1)];
  }

  /** The selection repeats with the period of the table's length. */
  lemma SelectPeriodic(t: ResponseType, index: nat)
    ensures Select(t, index + |Responses(t)|) == Select(t, index)
  {
    var n := |Responses(t)|;
    assert (index + n) % n == index % n;
  }

  /** Within one period, distinct counter values select distinct entries:
      repeated calls of one category cycle through its whole table. */
  lemma SelectCycles(t: ResponseType, index: nat, a: nat, b: nat)
    requires a < b < |Responses(t)|
    ensures Select(t, index + a) != Select(t, index + b)
  {
    var n := |Responses(t)|;
    assert n == 3;
    var ka, kb := (index + a) % n, (index + b) % n;
    assert ka != kb;
    assert t == MathQuestion || t == Default;
  }

  /** The reply at position k: the first call's, or the k - 1-th reply of
      the calls after it. */
  lemma RepliesStep(index: nat, cats: seq<ResponseType>, k: nat)
    requires k < |cats|
    ensures k == 0 ==> Replies(index, cats)[k] == Answer(index, cats[0]).message
    ensures k > 0 ==> Replies(index, cats)[k] == Replies(Answer(index, cats[0]).nextIndex, cats[1..])[k - 1]
  {
  }

  /** Calls of one category other than the greeting each answer as the
      first call would with the counter advanced by their position. */
  lemma {:induction false} RepliesCycle(t: ResponseType, index: nat, cats: seq<ResponseType>)
    requires t != Greeting
    requires forall k :: 0 <= k < |cats| ==> cats[k] == t
    ensures forall k :: 0 <= k < |cats| ==> Replies(index, cats)[k] == Answer(index + k, t).message
    decreases |cats|
  {
    if |cats| > 0 {
      var rest := cats[1..];
      RepliesCycle(t, index + 1, rest);
      assert Answer(index, cats[0]).nextIndex == index + 1;
      forall k | 0 <= k < |cats|
        ensures Replies(index, cats)[k] == Answer(index + k, t).message
      {
        RepliesStep(index, cats, k);
        if k > 0 {
          assert index + 1 + (k - 1) == index + k;
        }
      }
    }
  }

  /** Successive calls whose messages all fall in one category other than
      the greeting take that table's entries in turn, starting at the
      counter's value. */
  lemma RunCycles(t: ResponseType, index: nat, messages: seq<string>)
    requires t != Greeting
    requires forall k :: 0 <= k < |messages| ==> Classify(ToLower(messages[k])) == t
    ensures forall k :: 0 <= k < |messages| ==> Run(index, messages)[k] == Select(t, index + k)
  {
    RepliesCycle(t, index, Categories(messages));
    forall k | 0 <= k < |messages|
      ensures Run(index, messages)[k] == Select(t, index + k)
    {
      assert Answer(index + k, t).nextIndex == index + k + 1;
    }
  }

  /** Within one table length such a run repeats no reply. */
  lemma RunNoRepeat(t: ResponseType, index: nat, messages: seq<string>)
    requires t != Greeting
    requires forall k :: 0 <= k < |messages| ==> Classify(ToLower(messages[k])) == t
    ensures forall a, b :: 0 <= a < b < |messages| && b < |Responses(t)| ==>
              Run(index, messages)[a] != Run(index, messages)[b]
  {
    RunCycles(t, index, messages);
    forall a, b | 0 <= a < b < |messages| && b < |Responses(t)|
      ensures Run(index, messages)[a] != Run(index, messages)[b]
    {
      SelectCycles(t, index, a, b);
    }
  }

  /** The mock tutor keeps the shared response counter as its one field. */
  class MockTutor {
    var responseIndex: nat

    constructor ()
      ensures responseIndex == 0
    {
      responseIndex := 0;
    }

    /** `getMockAIResponse`: classify the lower-cased message, reset the
        counter on a greeting, select by round-robin and advance the
        counter. The simulated delay is not modelled. */
    method GetMockAIResponse(userMessage: string) returns (message: string)
      modifies this
      ensures Reply(message, responseIndex) == Respond(old(responseIndex), userMessage)
    {
      var lowerMessage := ToLower(userMessage);
      var responseType := Classify(lowerMessage);
      if responseType == Greeting {
        responseIndex := 0;
      }
      var responses := Responses(responseType);
      var response := responses[responseIndex % |responses|];
      responseIndex := responseIndex + 1;
      message := response.message;
    }

    /** `resetMockAI`: start the cycle again. */
    method ResetMockAI()
      modifies this
      ensures responseIndex == 0
    {
      responseIndex := 0;
    }
  }

  /** `needsLongerResponse`: a long message, or one asking to explain or
      describe. The keywords are searched in the message as written, so
      they are case-sensitive. */
  predicate NeedsLongerResponse(userMessage: string): (b: bool)
    ensures b <==> (|userMessage| > 100
                    || (exists i :: OccursAt(userMessage, "wyjaśnij", i))
                    || (exists i :: OccursAt(userMessage, "opisz", i)))
  {
    ContainsAt(userMessage, "wyjaśnij");
    ContainsAt(userMessage, "opisz");
    |userMessage| > 100 || Contains(userMessage, "wyjaśnij") || Contains(userMessage, "opisz")
  }

  /** Text added around a message never withdraws the need for a longer
      response. */
  lemma NeedsLongerResponseExtend(userMessage: string, before: string, after: string)
    requires NeedsLongerResponse(userMessage)
    ensures NeedsLongerResponse(before + userMessage + after)
  {
    if Contains(userMessage, "wyjaśnij") {
      ContainsExtend(userMessage, "wyjaśnij", before, after);
    } else if Contains(userMessage, "opisz") {
      ContainsExtend(userMessage, "opisz", before, after);
    }
  }

  /** The keywords are not lower-cased: a capitalised "Opisz" does not count. */
  lemma NeedsLongerResponseIsCaseSensitive()
    ensures !NeedsLongerResponse("Opisz")
    ensures NeedsLongerResponse("opisz")
  {
    ContainsAt("Opisz", "opisz");
    ContainsAt("Opisz", "wyjaśnij");
    assert forall i :: OccursAt("Opisz", "opisz", i) ==> i == 0;
    assert !OccursAt("Opisz", "opisz", 0) by {
      assert "Opisz"[0..5][0] != "opisz"[0];
    }
  }
}
