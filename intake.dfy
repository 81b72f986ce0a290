/** The delivery intake assistant: it asks the model to question the user
    (at most three questions), shows the delivery record the model returns,
    or a default record once the questions are used up, and then locks its
    input. */
module Intake {
  import opened Common
  import opened IntakeText

  // ---------------------------------------------------------------------
  // The prompt
  // ---------------------------------------------------------------------

  /** The instructions every prompt starts with. */
  const InitialPrompt :=
      "You are a delivery planning "
    + "assistant. ONLY collect "
    + "the following information "
    + "through questions:\n"
    + "  - Start location (REQUIRED)\n"
    + "  - End location (REQUIRED)\n"
    + "  - Number of packages "
    + "(REQUIRED)\n  - Weight "
    + "per package (use \"1kg\" "
    + "if not asked)\n  - Volume "
    + "per package (use \"0.1m\U{00B3}\""
    + " if not asked)\n  - "
    + "Priority level (use "
    + "\"standard\" if not "
    + "asked)\n\n  STRICT PROCESS:\n"
    + "  1. You have EXACTLY "
    + "3 questions to collect "
    + "ONLY the REQUIRED information.\n"
    + "  2. Start each question "
    + "with \"Question [X/3]:\"\n"
    + "  3. After 3 questions "
    + "OR if you have all REQUIRED "
    + "information, IMMEDIATELY "
    + "output:\n     {\n   "
    + "    \"startLocation\": "
    + "\"[value]\",\n      "
    + " \"endLocation\": \"[value]\",\n"
    + "       \"numberOfPackages\": "
    + "[number],\n       \"weightPerPac"
    + "kage\": \"1kg\",\n  "
    + "     \"volumePerPackage\": "
    + "\"0.1m\U{00B3}\",\n "
    + "      \"priorityLevel\": "
    + "\"standard\"\n     }\n"
    + "     \U{2705} The best "
    + "route has been calculated "
    + "and scheduled for your "
    + "delivery. Your packages "
    + "will be picked up from "
    + "[start_location] and "
    + "delivered to [end_location] "
    + "via the most optimal "
    + "route.\n\n  CRITICAL "
    + "RULES:\n  - Focus ONLY "
    + "on collecting start "
    + "location, end location, "
    + "and number of packages\n"
    + "  - Use default values "
    + "for weight, volume, "
    + "and priority\n  - NEVER "
    + "ask more than 3 questions\n"
    + "  - NEVER provide additional "
    + "information or suggestions\n"
    + "  - NEVER continue conversation "
    + "after showing JSON and "
    + "success message"

  const MandatoryLine := "\nMANDATORY: You MUST output JSON now and end conversation."

  /** After three questions the prompt demands the JSON record. */
  predicate ForceJsonOutput(questionCount: nat) {
    questionCount >= 3
  }

  /** The state of the intake as a later prompt reports it. */
  function PromptContext(conversation: seq<Entry>, questionCount: nat): string {
    "\nQuestion count: " + NatToString(questionCount) + "/3\nPrevious conversation: "
      + ConversationJson(conversation)
  }

  function Demand(questionCount: nat): string {
    if ForceJsonOutput(questionCount) then MandatoryLine else ""
  }

  function UserLine(input: string): string {
    "\nUser: " + input
  }

  /** What follows the instructions in the prompt for one user input: the
      input alone on the first turn; later the question count, the
      conversation so far as JSON, the input and, from the third question
      on, the demand for JSON. */
  function PromptBody(conversation: seq<Entry>, questionCount: nat, input: string): string {
    if conversation == [] then "\n" + UserLine(input)
    else PromptContext(conversation, questionCount) + UserLine(input) + Demand(questionCount)
  }

  function PromptFor(instructions: string, conversation: seq<Entry>, questionCount: nat, input: string): string {
    instructions + PromptBody(conversation, questionCount, input)
  }

  function IntakePrompt(conversation: seq<Entry>, questionCount: nat, input: string): string {
    PromptFor(InitialPrompt, conversation, questionCount, input)
  }

  /** Every prompt starts with the instructions. */
  lemma PromptStartsWithInstructions(instructions: string, conversation: seq<Entry>, questionCount: nat, input: string)
    ensures |instructions| <= |PromptFor(instructions, conversation, questionCount, input)|
    ensures PromptFor(instructions, conversation, questionCount, input)[..|instructions|] == instructions
  {
    var body := PromptBody(conversation, questionCount, input);
    assert (instructions + body)[..|instructions|] == instructions;
  }

  /** The first prompt ends with the user's input. */
  lemma FirstPromptEnding(instructions: string, questionCount: nat, input: string)
    ensures EndsWith(PromptFor(instructions, [], questionCount, input), UserLine(input))
  {
    assert instructions + ("\n" + UserLine(input)) == (instructions + "\n") + UserLine(input);
    EndsWithAppended(instructions + "\n", UserLine(input));
  }

  /** A later prompt ends with the user's input while fewer than three
      questions were asked. */
  lemma LaterPromptEnding(instructions: string, conversation: seq<Entry>, questionCount: nat, input: string)
    requires conversation != [] && !ForceJsonOutput(questionCount)
    ensures EndsWith(PromptFor(instructions, conversation, questionCount, input), UserLine(input))
  {
    var context := PromptContext(conversation, questionCount);
    assert PromptBody(conversation, questionCount, input) == context + UserLine(input);
    assert instructions + (context + UserLine(input)) == (instructions + context) + UserLine(input);
    EndsWithAppended(instructions + context, UserLine(input));
  }

  /** From the third question on, a later prompt ends with the demand for
      JSON. */
  lemma ForcedPromptEnding(instructions: string, conversation: seq<Entry>, questionCount: nat, input: string)
    requires conversation != [] && ForceJsonOutput(questionCount)
    ensures EndsWith(PromptFor(instructions, conversation, questionCount, input), MandatoryLine)
  {
    var front := PromptContext(conversation, questionCount) + UserLine(input);
    assert instructions + (front + MandatoryLine) == (instructions + front) + MandatoryLine;
    EndsWithAppended(instructions + front, MandatoryLine);
  }

  /** Every later prompt quotes the content of every conversation entry, in
      a form that decodes back to it. */
  lemma PromptQuotesConversation(instructions: string, conversation: seq<Entry>, questionCount: nat, input: string, k: nat)
    requires k < |conversation|
    ensures Contains(PromptFor(instructions, conversation, questionCount, input), Quote(conversation[k].content))
  {
    var json := ConversationJson(conversation);
    var context := PromptContext(conversation, questionCount);
    ConversationJsonQuotesEntries(conversation, k);
    ContainsSpliced("\nQuestion count: " + NatToString(questionCount) + "/3\nPrevious conversation: ", json, []);
    assert context + [] == context;
    ContainsTransitive(context, json, Quote(conversation[k].content));
    ContainsAppend(context, UserLine(input), Quote(conversation[k].content));
    ContainsAppend(context + UserLine(input), Demand(questionCount), Quote(conversation[k].content));
    ContainsPrepend(instructions, PromptBody(conversation, questionCount, input), Quote(conversation[k].content));
  }

  // ---------------------------------------------------------------------
  // The replies shown in the conversation
  // ---------------------------------------------------------------------

  /** A field of the record as a template literal prints it; a missing one
      prints as "undefined". */
  function FieldText(d: DeliveryData, key: string): string {
    match FieldValue(d, key)
    case Some(v) => ScalarText(v)
    case None => "undefined"
  }

  /** The words of the success line around the two addresses. */
  function PickupPhrase(start: string, end: string): string {
    "be picked up from " + start + " and delivered to " + end + " "
  }

  /** The success line shown with the default record, naming the record's
      start and end. */
  function DefaultSuccessText(d: DeliveryData): string {
    [CheckMark] + " The best route " + "has been calculated " + "and scheduled for "
      + "your delivery. " + "Your packages will "
      + PickupPhrase(FieldText(d, "startLocation"), FieldText(d, "endLocation")) + RouteClosing
  }

  /** The success line names the record's own start and end, which for the
      default record are both "unknown". */
  lemma DefaultSuccessNamesEnds(d: DeliveryData)
    ensures Contains(DefaultSuccessText(d), PickupPhrase(FieldText(d, "startLocation"), FieldText(d, "endLocation")))
    ensures FieldText(DefaultRecord(), "startLocation") == "unknown" && FieldText(DefaultRecord(), "endLocation") == "unknown"
  {
    var head := [CheckMark] + " The best route " + "has been calculated " + "and scheduled for "
      + "your delivery. " + "Your packages will ";
    ContainsSpliced(head, PickupPhrase(FieldText(d, "startLocation"), FieldText(d, "endLocation")), RouteClosing);
    DefaultRecordFields();
  }

  /** What is shown when the questions are used up without a record. */
  function DefaultReply(): string {
    PrettyJson(DefaultRecord()) + "\n\n" + DefaultSuccessText(DefaultRecord())
  }

  /** What is shown for a record found in a reply: the record printed as
      JSON, a blank line, and the success line of the reply's text `after`
      the block, if it has one. */
  function DataReply(d: DeliveryData, after: string): string {
    PrettyJson(d) + "\n\n" + SuccessLine(Trim(after))
  }

  // ---------------------------------------------------------------------
  // One turn
  // ---------------------------------------------------------------------

  datatype IntakeState = IntakeState(
    userInput: string,
    conversation: seq<Entry>,
    isProcessing: bool,
    deliveryData: Option<DeliveryData>,
    questionCount: nat)

  function InitialState(): IntakeState {
    IntakeState("", [], false, None, 0)
  }

  /** The new state after a turn, and the record handed to `onDataReady`. */
  datatype Outcome = Outcome(state: IntakeState, reported: Option<DeliveryData>)

  function Exchange(conversation: seq<Entry>, input: string, answer: string): seq<Entry> {
    conversation + [Entry(UserRole, input), Entry(AssistantRole, answer)]
  }

  /** What the model's reply amounts to: nothing usable (the request failed
      or the block does not parse), a question to show, or a record with the
      text to show for it. */
  datatype Reaction = Unusable | Question(question: string) | Record(data: DeliveryData, shown: string)

  /** A reply with a JSON block: the record it parses into, shown as JSON
      with the success line of the text after the block; nothing usable when
      it does not parse (`parse` is JSON.parse, None when it throws). */
  function RecordReaction(text: string, block: Span, parse: string -> Option<DeliveryData>): (r: Reaction)
    requires block.start <= block.end <= |text|
    ensures !r.Question?
  {
    match parse(text[block.start..block.end])
    case None => Unusable
    case Some(d) => Record(d, DataReply(d, text[block.end..]))
  }

  /** A reply without a JSON block: a question while fewer than three were
      asked, the default record after that. */
  function PlainReaction(questionCount: nat, text: string): (r: Reaction)
    ensures r.Question? ==> questionCount < 3
  {
    if questionCount < 3 then Question(Trim(StripAiPrefix(text)))
    else Record(DefaultRecord(), DefaultReply())
  }

  /** How the handler reads the text of a reply: by its JSON block when it
      has one. */
  function TextReaction(questionCount: nat, text: string, parse: string -> Option<DeliveryData>): (r: Reaction)
    ensures r.Question? ==> questionCount < 3
  {
    match BraceBlock(text)
    case Some(block) => RecordReaction(text, block, parse)
    case None => PlainReaction(questionCount, text)
  }

  /** How the handler reads the model's `reply`, None when the request
      fails. */
  function ReactionTo(questionCount: nat, reply: Option<string>, parse: string -> Option<DeliveryData>): (r: Reaction)
    ensures r.Question? ==> questionCount < 3
  {
    match reply
    case None => Unusable
    case Some(text) => TextReaction(questionCount, text, parse)
  }

  /** The state updates of the handler up to its `finally` block.
      `hasCallback` tells whether the component was given an `onDataReady`
      callback. A record is kept first; without a callback, calling it
      throws, the error is caught and nothing more happens: the record is
      neither handed on nor shown in the conversation. */
  function Apply(s: IntakeState, input: string, r: Reaction, hasCallback: bool): Outcome {
    var busy := s.(isProcessing := true);
    match r
    case Unusable => Outcome(busy, None)
    case Question(q) =>
      Outcome(busy.(questionCount := s.questionCount + 1, conversation := Exchange(s.conversation, input, q)), None)
    case Record(d, shown) =>
      if hasCallback then
        Outcome(busy.(deliveryData := Some(d), conversation := Exchange(s.conversation, input, shown)), Some(d))
      else
        Outcome(busy.(deliveryData := Some(d)), None)
  }

  /** The handler sets the busy flag before it reacts; reacting from a busy
      state gives the same outcome. */
  lemma ApplyWhileBusy(s: IntakeState, input: string, r: Reaction, hasCallback: bool)
    ensures Apply(s.(isProcessing := true), input, r, hasCallback) == Apply(s, input, r, hasCallback)
  {
  }

  /** The `finally` block. It reads the record the handler saw when the turn
      began, not the one the turn may have just set. */
  function Settle(seen: Option<DeliveryData>, s: IntakeState): IntakeState {
    if seen.None? then s.(isProcessing := false, userInput := "") else s
  }

  /** One call of the handler with the user's `input`. */
  function Turn(s: IntakeState, input: string, reply: Option<string>, parse: string -> Option<DeliveryData>, hasCallback: bool): Outcome {
    var o := Apply(s, input, ReactionTo(s.questionCount, reply, parse), hasCallback);
    Outcome(Settle(s.deliveryData, o.state), o.reported)
  }

  /** What a turn may do, seen from the state before it: it either adds
      one exchange (the input and the answer) or leaves the conversation as
      it was; only an exchange without a record counts as a question, and
      never past the third; a record handed on is the one kept, and only a
      callback is handed one; without an exchange the record stays, or,
      with no callback, a new one is kept; and the input stays locked
      exactly when a record was already shown before the turn. */
  ghost predicate TurnEffect(s: IntakeState, input: string, hasCallback: bool, o: Outcome) {
    var t := o.state;
    var n := |s.conversation|;
    && (|t.conversation| == n || |t.conversation| == n + 2)
    && t.conversation[..n] == s.conversation
    && (|t.conversation| > n ==>
         t.conversation[n] == Entry(UserRole, input) && t.conversation[n + 1].role == AssistantRole)
    && (|t.conversation| == n ==>
         && o.reported.None? && t.questionCount == s.questionCount
         && (t.deliveryData == s.deliveryData || (!hasCallback && t.deliveryData.Some?)))
    && (t.questionCount == s.questionCount
        || (s.questionCount < 3 && t.questionCount == s.questionCount + 1
            && o.reported.None? && |t.conversation| == n + 2 && t.deliveryData == s.deliveryData))
    && (|t.conversation| == n + 2 && t.questionCount == s.questionCount ==> o.reported.Some?)
    && (o.reported.Some? ==> hasCallback && t.deliveryData == o.reported)
    && (t.isProcessing <==> s.deliveryData.Some?)
    && t.userInput == if s.deliveryData.None? then [] else s.userInput
  }

  lemma ApplyEffect(s: IntakeState, input: string, r: Reaction, hasCallback: bool)
    requires r.Question? ==> s.questionCount < 3
    ensures var o := Apply(s, input, r, hasCallback);
      TurnEffect(s, input, hasCallback, Outcome(Settle(s.deliveryData, o.state), o.reported))
  {
    match r
    case Unusable =>
    case Question(q) =>
      assert Exchange(s.conversation, input, q)[..|s.conversation|] == s.conversation;
    case Record(d, shown) =>
      assert Exchange(s.conversation, input, shown)[..|s.conversation|] == s.conversation;
  }

  /** Every turn has that effect. */
  lemma TurnHasEffect(s: IntakeState, input: string, reply: Option<string>, parse: string -> Option<DeliveryData>, hasCallback: bool)
    ensures TurnEffect(s, input, hasCallback, Turn(s, input, reply, parse, hasCallback))
  {
    ApplyEffect(s, input, ReactionTo(s.questionCount, reply, parse), hasCallback);
  }

  /** The submit handler: a blank input, or one given while the handler is
      locked, does nothing. */
  function Submit(s: IntakeState, reply: Option<string>, parse: string -> Option<DeliveryData>, hasCallback: bool): (o: Outcome)
    ensures IsBlank(s.userInput) || s.isProcessing ==> o == Outcome(s, None)
  {
    if IsBlank(s.userInput) || s.isProcessing then Outcome(s, None)
    else Turn(s, s.userInput, reply, parse, hasCallback)
  }

  // ---------------------------------------------------------------------
  // What the turns keep and what they lead to
  // ---------------------------------------------------------------------

  /** The conversation alternates between the user and the assistant,
      starting with the user. */
  ghost predicate Alternates(conversation: seq<Entry>) {
    && |conversation| % 2 == 0
    && forall k :: 0 <= k < |conversation| ==>
         conversation[k].role == (if k % 2 == 0 then UserRole else AssistantRole)
  }

  /** What holds between turns: at most three questions, one exchange per
      question and, until a record is shown, no other exchange; the input is
      locked only once a record has been shown. */
  ghost predicate ValidIntake(s: IntakeState) {
    && s.questionCount <= 3
    && Alternates(s.conversation)
    && 2 * s.questionCount <= |s.conversation|
    && (s.deliveryData.None? ==> |s.conversation| == 2 * s.questionCount)
    && (s.isProcessing ==> s.deliveryData.Some?)
  }

  lemma InitialStateValid()
    ensures ValidIntake(InitialState())
  {
  }

  /** A step with the effect of a turn keeps the state valid. */
  lemma EffectKeepsValid(s: IntakeState, input: string, hasCallback: bool, o: Outcome)
    requires ValidIntake(s) && TurnEffect(s, input, hasCallback, o)
    ensures ValidIntake(o.state)
  {
    var t := o.state;
    var n := |s.conversation|;
    if |t.conversation| > n {
      forall k | 0 <= k < |t.conversation|
        ensures t.conversation[k].role == (if k % 2 == 0 then UserRole else AssistantRole)
      {
        if k < n {
          assert t.conversation[k] == t.conversation[..n][k];
        }
      }
    } else {
      assert t.conversation == t.conversation[..n];
    }
  }

  /** Every turn keeps the state valid. */
  lemma TurnKeepsValid(s: IntakeState, input: string, reply: Option<string>, parse: string -> Option<DeliveryData>, hasCallback: bool)
    requires ValidIntake(s)
    ensures ValidIntake(Turn(s, input, reply, parse, hasCallback).state)
  {
    TurnHasEffect(s, input, reply, parse, hasCallback);
    EffectKeepsValid(s, input, hasCallback, Turn(s, input, reply, parse, hasCallback));
  }

  lemma SubmitKeepsValid(s: IntakeState, reply: Option<string>, parse: string -> Option<DeliveryData>, hasCallback: bool)
    requires ValidIntake(s)
    ensures ValidIntake(Submit(s, reply, parse, hasCallback).state)
  {
    if !(IsBlank(s.userInput) || s.isProcessing) {
      TurnKeepsValid(s, s.userInput, reply, parse, hasCallback);
    }
  }

  /** A reply without a JSON block while questions remain is a question:
      it is shown without its "AI: " prefix and trimmed, and counted. */
  lemma QuestionTurn(s: IntakeState, input: string, text: string, parse: string -> Option<DeliveryData>, hasCallback: bool)
    requires BraceBlock(text).None? && s.questionCount < 3
    ensures var o := Turn(s, input, Some(text), parse, hasCallback);
      && o.state.questionCount == s.questionCount + 1
      && o.state.conversation == Exchange(s.conversation, input, Trim(StripAiPrefix(text)))
      && o.reported.None?
  {
  }

  /** Once three questions are asked, a reply without a JSON block ends the
      intake with the default record. It is handed to the callback and shown
      in the conversation when there is a callback; without one the
      conversation is left as it was. */
  lemma DefaultAfterThreeQuestions(s: IntakeState, input: string, text: string, parse: string -> Option<DeliveryData>, hasCallback: bool)
    requires BraceBlock(text).None? && s.questionCount >= 3
    ensures var o := Turn(s, input, Some(text), parse, hasCallback);
      && o.state.deliveryData == Some(DefaultRecord())
      && o.state.questionCount == s.questionCount
      && (hasCallback ==>
           o.reported == Some(DefaultRecord()) && o.state.conversation == Exchange(s.conversation, input, DefaultReply()))
      && (!hasCallback ==> o.reported.None? && o.state.conversation == s.conversation)
  {
  }

  /** A reply whose JSON block parses yields that record. With a callback
      it is handed on and shown as JSON followed by the success line of the
      text after the block, or by nothing when that text has none; without
      one the conversation is left as it was. */
  lemma RecordTurn(s: IntakeState, input: string, text: string, parse: string -> Option<DeliveryData>, hasCallback: bool)
    requires BraceBlock(text).Some?
    requires parse(text[BraceBlock(text).value.start..BraceBlock(text).value.end]).Some?
    ensures var d := parse(text[BraceBlock(text).value.start..BraceBlock(text).value.end]).value;
      var o := Turn(s, input, Some(text), parse, hasCallback);
      && o.state.deliveryData == Some(d)
      && o.state.questionCount == s.questionCount
      && (hasCallback ==>
           o.reported == Some(d)
           && o.state.conversation == Exchange(s.conversation, input, DataReply(d, text[BraceBlock(text).value.end..])))
      && (!hasCallback ==> o.reported.None? && o.state.conversation == s.conversation)
  {
  }

  /** The text shown for a record is the record as JSON and a blank line,
      then either nothing or one line that starts with the check mark and
      ends with "via the most optimal route.". */
  lemma DataReplyShape(d: DeliveryData, after: string)
    ensures var shown := DataReply(d, after);
      var n := |PrettyJson(d)| + 2;
      && n <= |shown| && shown[..n] == PrettyJson(d) + "\n\n"
      && var line := shown[n..];
         line == [] || IsClosingLine(line, RouteClosing)
  {
    var json := PrettyJson(d) + "\n\n";
    var line := SuccessLine(Trim(after));
    MatchedLineShape(Trim(after), RouteClosing);
    assert DataReply(d, after) == json + line;
    assert (json + line)[..|json|] == json;
    assert (json + line)[|json|..] == line;
  }

  /** A failed request, or a block that does not parse, leaves the
      conversation, the count and the record as they were. */
  lemma UnusableReplyChangesNothingShown(s: IntakeState, input: string, reply: Option<string>, parse: string -> Option<DeliveryData>, hasCallback: bool)
    requires reply.None? || (BraceBlock(reply.value).Some? && parse(reply.value[BraceBlock(reply.value).value.start..BraceBlock(reply.value).value.end]).None?)
    ensures var o := Turn(s, input, reply, parse, hasCallback);
      o.state.conversation == s.conversation && o.state.questionCount == s.questionCount
      && o.state.deliveryData == s.deliveryData && o.reported.None?
  {
  }

  /** The first record does not lock the input: the `finally` block still
      sees no record, so it unlocks the input and clears it. */
  lemma FirstRecordLeavesInputOpen(s: IntakeState, input: string, reply: Option<string>, parse: string -> Option<DeliveryData>, hasCallback: bool)
    requires s.deliveryData.None? && Turn(s, input, reply, parse, hasCallback).state.deliveryData.Some?
    ensures !Turn(s, input, reply, parse, hasCallback).state.isProcessing
    ensures Turn(s, input, reply, parse, hasCallback).state.userInput == []
  {
  }

  /** Without a callback, as the component is used in this app, a record
      never appears in the conversation: every exchange a turn adds is a
      counted question, and nothing is handed on. */
  lemma NoCallbackOnlyQuestionsLogged(s: IntakeState, input: string, reply: Option<string>, parse: string -> Option<DeliveryData>)
    ensures var o := Turn(s, input, reply, parse, false);
      && o.reported.None?
      && (|o.state.conversation| > |s.conversation| ==> o.state.questionCount == s.questionCount + 1)
  {
    TurnHasEffect(s, input, reply, parse, false);
  }

  /** Once a record is shown, the next accepted submit locks the input for
      good: every later submit does nothing. */
  lemma RecordThenLocked(s: IntakeState, reply: Option<string>, parse: string -> Option<DeliveryData>,
                         reply2: Option<string>, parse2: string -> Option<DeliveryData>, hasCallback: bool)
    requires s.deliveryData.Some?
    ensures var o := Submit(s, reply, parse, hasCallback).state;
      && o.deliveryData.Some?
      && (o == s || (o.isProcessing && Submit(o, reply2, parse2, hasCallback) == Outcome(o, None)))
  {
    if !(IsBlank(s.userInput) || s.isProcessing) {
      TurnHasEffect(s, s.userInput, reply, parse, hasCallback);
    }
  }

  /** Once three questions are asked, every later prompt demands JSON. */
  lemma PromptForcedAfterThreeQuestions(instructions: string, s: IntakeState, input: string)
    requires ValidIntake(s) && s.questionCount >= 3
    ensures EndsWith(PromptFor(instructions, s.conversation, s.questionCount, input), MandatoryLine)
  {
    ForcedPromptEnding(instructions, s.conversation, s.questionCount, input);
  }

  /** Before any question, the conversation is empty and the prompt is the
      instructions followed by the input. */
  lemma FirstPromptNotForced(instructions: string, s: IntakeState, input: string)
    requires ValidIntake(s) && s.deliveryData.None? && s.questionCount == 0
    ensures PromptFor(instructions, s.conversation, s.questionCount, input) == instructions + "\n" + UserLine(input)
  {
  }

  // ---------------------------------------------------------------------
  // The component
  // ---------------------------------------------------------------------

  class IntakeAssistant {
    /** The instructions the component starts every prompt with. */
    const instructions: string
    /** Whether the component was given an `onDataReady` callback. */
    const hasCallback: bool
    var userInput: string
    var conversation: seq<Entry>
    var isProcessing: bool
    var deliveryData: Option<DeliveryData>
    var questionCount: nat

    function State(): IntakeState
      reads this
    {
      IntakeState(userInput, conversation, isProcessing, deliveryData, questionCount)
    }

    ghost predicate Valid()
      reads this
    {
      ValidIntake(State())
    }

    constructor (onDataReadyGiven: bool)
      ensures Valid() && State() == InitialState()
      ensures instructions == InitialPrompt && hasCallback == onDataReadyGiven
    {
      instructions := InitialPrompt;
      hasCallback := onDataReadyGiven;
      userInput, conversation, isProcessing, deliveryData, questionCount := "", [], false, None, 0;
    }

    /** Typing into the input; the input is disabled while locked. */
    method ChangeInput(value: string)
      modifies this`userInput
      ensures userInput == if old(isProcessing) then old(userInput) else value
    {
      if !isProcessing {
        userInput := value;
      }
    }

    /** The handler's state updates for the reaction `r` to the model's
        reply: a question is shown and counted, a record is kept and, when
        there is a callback, handed on and shown, and an unusable reply
        changes nothing. */
    method ApplyReaction(input: string, r: Reaction) returns (reported: Option<DeliveryData>)
      requires isProcessing
      modifies this`deliveryData, this`conversation, this`questionCount
      ensures State() == Apply(old(State()), input, r, hasCallback).state
      ensures reported == Apply(old(State()), input, r, hasCallback).reported
    {
      match r
      case Unusable =>
        reported := None;
      case Question(q) =>
        questionCount := questionCount + 1;
        conversation := Exchange(conversation, input, q);
        reported := None;
      case Record(d, shown) =>
        deliveryData := Some(d);
        if !hasCallback {
          // calling the missing callback throws; the catch ends the update
          return None;
        }
        reported := Some(d);
        conversation := Exchange(conversation, input, shown);
    }

    /** One run of the handler: it builds the prompt, takes the model's
        `reply` to it (None when the request fails) and updates the state as
        the turn says. */
    method ProcessUserInput(input: string, reply: Option<string>, parse: string -> Option<DeliveryData>)
      returns (prompt: string, reported: Option<DeliveryData>)
      modifies this
      ensures prompt == PromptFor(instructions, old(conversation), old(questionCount), input)
      ensures State() == Turn(old(State()), input, reply, parse, hasCallback).state
      ensures reported == Turn(old(State()), input, reply, parse, hasCallback).reported
    {
      ghost var before := State();
      var seen := deliveryData;
      isProcessing := true;
      prompt := PromptFor(instructions, conversation, questionCount, input);
      var reaction := ReactionTo(questionCount, reply, parse);
      ApplyWhileBusy(before, input, reaction, hasCallback);
      reported := ApplyReaction(input, reaction);
      Settled(seen);
    }

    /** The `finally` block, with the record seen when the handler began:
        without one the input is unlocked and cleared. */
    method Settled(seen: Option<DeliveryData>)
      modifies this`isProcessing, this`userInput
      ensures State() == Settle(seen, old(State()))
    {
      if seen.None? {
        isProcessing := false;
        userInput := "";
      }
    }

    /** The form's submit: a blank input, or one given while locked, does
        nothing; otherwise the handler runs on the current input. */
    method HandleSubmit(reply: Option<string>, parse: string -> Option<DeliveryData>)
      returns (prompt: Option<string>, reported: Option<DeliveryData>)
      requires Valid()
      modifies this
      ensures Valid()
      ensures State() == Submit(old(State()), reply, parse, hasCallback).state
      ensures reported == Submit(old(State()), reply, parse, hasCallback).reported
      ensures prompt.Some? <==> !(IsBlank(old(userInput)) || old(isProcessing))
      ensures prompt.Some? ==> prompt.value == PromptFor(instructions, old(conversation), old(questionCount), old(userInput))
    {
      if IsBlank(userInput) || isProcessing {
        return None, None;
      }
      TurnKeepsValid(State(), userInput, reply, parse, hasCallback);
      var p;
      p, reported := ProcessUserInput(userInput, reply, parse);
      prompt := Some(p);
    }
  }
}
