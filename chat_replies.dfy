/** The delivery chatbot's canned answers: an ordered, case-insensitive
    keyword classifier over the question, the reply chosen from it, and the
    prompt text built from the recent conversation. */
module ChatReplies {
  import opened Common

  /** The reply groups, in the order the keyword tests run. */
  datatype Topic = Tracking | Routing | Priority | Vehicle | Delay | Timing | Features | Other

  function Rank(t: Topic): nat {
    match t
    case Tracking => 0
    case Routing => 1
    case Priority => 2
    case Vehicle => 3
    case Delay => 4
    case Timing => 5
    case Features => 6
    case Other => 7
  }

  /** The keyword test of each group, on the lower-cased question. In the
      feature test `&&` binds tighter than `||`: "feature" alone suffices,
      or "what" and "do" together. The fallback group matches anything. */
  predicate Mentions(t: Topic, lower: string) {
    match t
    case Tracking => Contains(lower, "track") || Contains(lower, "where") || Contains(lower, "status")
    case Routing => Contains(lower, "route") || Contains(lower, "traffic")
    case Priority => Contains(lower, "priority") || Contains(lower, "urgent")
    case Vehicle => Contains(lower, "vehicle")
    case Delay => Contains(lower, "delay") || Contains(lower, "late")
    case Timing => Contains(lower, "time") || Contains(lower, "eta")
    case Features => Contains(lower, "feature") || (Contains(lower, "what") && Contains(lower, "do"))
    case Other => true
  }

  /** The group whose reply the bot gives: the first one, in test order,
      whose keywords occur in the lower-cased question. */
  function Classify(query: string): (t: Topic)
    ensures Mentions(t, ToLower(query))
    ensures forall u :: Rank(u) < Rank(t) ==> !Mentions(u, ToLower(query))
  {
    var lowerQuery := ToLower(query);
    if Contains(lowerQuery, "track") || Contains(lowerQuery, "where") || Contains(lowerQuery, "status") then Tracking
    else if Contains(lowerQuery, "route") || Contains(lowerQuery, "traffic") then Routing
    else if Contains(lowerQuery, "priority") || Contains(lowerQuery, "urgent") then Priority
    else if Contains(lowerQuery, "vehicle") then Vehicle
    else if Contains(lowerQuery, "delay") || Contains(lowerQuery, "late") then Delay
    else if Contains(lowerQuery, "time") || Contains(lowerQuery, "eta") then Timing
    else if Contains(lowerQuery, "feature") || (Contains(lowerQuery, "what") && Contains(lowerQuery, "do")) then Features
    else Other
  }

  const TrackingReply :=
      "I can provide real-time tracking information. Please share "
    + "your order number to view the current status and estimated "
    + "delivery time."
  const RoutingReply :=
      "Our system automatically optimizes routes using real-time "
    + "traffic and weather data, refreshing every 10-15 minutes "
    + "to ensure on-time delivery."
  const PriorityReply :=
      "We prioritize deliveries to hospitals and elderly customers "
    + "automatically. For other urgent deliveries, we can adjust "
    + "priorities upon request."
  const VehicleReply :=
      "Our AI selects the optimal vehicle for each delivery based "
    + "on package specifications, route conditions, and efficiency "
    + "factors to minimize costs and environmental impact."
  const DelayReply :=
      "If a delay occurs, our system immediately recalculates and "
    + "may transfer the package to another driver to maintain delivery "
    + "schedules. You'll receive real-time notifications of any "
    + "changes."
  const TimingReply :=
      "We provide precise delivery windows by analyzing historical "
    + "data for each location, including factors like building "
    + "access time and security procedures."
  const FeaturesReply :=
      "Our delivery service features AI-driven route optimization, "
    + "precise ETAs, priority handling for critical deliveries, "
    + "smart vehicle selection, and automatic rerouting to avoid "
    + "delays."
  const FallbackPrefix := "I understand you're asking about "
  const FallbackSuffix :=
      ". To best assist you, could you provide more specific details "
    + "about your delivery needs?"

  /** The fixed answer of each keyword group. */
  function CannedReply(t: Topic): string
    requires t != Other
  {
    match t
    case Tracking => TrackingReply
    case Routing => RoutingReply
    case Priority => PriorityReply
    case Vehicle => VehicleReply
    case Delay => DelayReply
    case Timing => TimingReply
    case Features => FeaturesReply
  }

  /** The answer to `query`: its group's fixed text, or the fallback that
      quotes the question exactly as typed. */
  function Reply(query: string): (r: string)
    ensures Classify(query) != Other ==> r == CannedReply(Classify(query))
  {
    match Classify(query)
    case Other => FallbackPrefix + query + FallbackSuffix
    case t => CannedReply(t)
  }

  /** The fallback answer quotes the question verbatim, not lower-cased. */
  lemma FallbackQuotesQuery(query: string)
    requires Classify(query) == Other
    ensures Contains(Reply(query), query)
  {
    ContainsSpliced(FallbackPrefix, query, FallbackSuffix);
  }

  /** Every keyword test still passes when more text surrounds the question. */
  lemma MentionsSurvivesContext(t: Topic, pre: string, lower: string, post: string)
    requires Mentions(t, lower)
    ensures Mentions(t, pre + lower + post)
  {
    forall w | Contains(lower, w) ensures Contains(pre + lower + post, w) {
      ContainsInfix(pre, lower, post, w);
    }
  }

  /** Adding words around a question can only move it to an earlier group
      in the test order, never to a later one. */
  lemma MoreWordsNeverDemote(pre: string, query: string, post: string)
    ensures Rank(Classify(pre + query + post)) <= Rank(Classify(query))
  {
    ToLowerAppend(pre, query);
    ToLowerAppend(pre + query, post);
    MentionsSurvivesContext(Classify(query), ToLower(pre), ToLower(query), ToLower(post));
  }

  /** Capitals do not matter to the tests: a question and its lower-cased
      form fall in the same group. */
  lemma ClassifyIgnoresCase(query: string)
    ensures Classify(ToLower(query)) == Classify(query)
  {
    var lower := ToLower(query);
    forall k | 0 <= k < |lower| ensures ToLower(lower)[k] == lower[k] {
    }
    assert ToLower(lower) == lower;
  }

  /** "feature" carries no keyword of an earlier group. */
  lemma FeatureWordHasNoEarlierKeyword(q: string, u: Topic)
    requires q == "feature" && Rank(u) < Rank(Features)
    ensures !Mentions(u, q)
  {
    match u
    case Tracking =>
      MissingCharNotContained(q, "track", 'c');
      MissingCharNotContained(q, "where", 'w');
      MissingCharNotContained(q, "status", 's');
    case Routing =>
      MissingCharNotContained(q, "route", 'o');
      MissingCharNotContained(q, "traffic", 'i');
    case Priority =>
      MissingCharNotContained(q, "priority", 'p');
      MissingCharNotContained(q, "urgent", 'g');
    case Vehicle =>
      MissingCharNotContained(q, "vehicle", 'v');
    case Delay =>
      MissingCharNotContained(q, "delay", 'd');
      MissingCharNotContained(q, "late", 'l');
    case Timing =>
      MissingCharNotContained(q, "time", 'i');
      // "feature" has every letter of "eta" but never 'e' before 't'
      MissingPairNotContained(q, "eta", 0);
  }

  /** A question spelled only with the letters of "what do" carries no
      keyword of a group before the feature group. */
  lemma WhatDoLettersHaveNoEarlierKeyword(q: string, u: Topic)
    requires forall k :: 0 <= k < |q| ==> q[k] in "what do"
    requires Rank(u) < Rank(Features)
    ensures !Mentions(u, q)
  {
    match u
    case Tracking =>
      MissingCharNotContained(q, "track", 'k');
      MissingCharNotContained(q, "where", 'e');
      MissingCharNotContained(q, "status", 's');
    case Routing =>
      MissingCharNotContained(q, "route", 'r');
      MissingCharNotContained(q, "traffic", 'r');
    case Priority =>
      MissingCharNotContained(q, "priority", 'p');
      MissingCharNotContained(q, "urgent", 'u');
    case Vehicle =>
      MissingCharNotContained(q, "vehicle", 'v');
    case Delay =>
      MissingCharNotContained(q, "delay", 'e');
      MissingCharNotContained(q, "late", 'l');
    case Timing =>
      MissingCharNotContained(q, "time", 'i');
      MissingCharNotContained(q, "eta", 'e');
  }

  /** The feature test reads `feature || (what && do)`. Under that reading
      "feature" on its own is enough (it would not be under
      `(feature || what) && do`) ... */
  lemma FeatureAloneSuffices(q: string)
    requires q == "feature"
    ensures Classify(q) == Features
  {
    assert ToLower(q) == q;
    forall u | Rank(u) < Rank(Features) ensures !Mentions(u, ToLower(q)) {
      FeatureWordHasNoEarlierKeyword(q, u);
    }
    assert q[..|q|] == q;
  }

  /** ... "what" together with "do" is enough ... */
  lemma WhatWithDoSelectsFeatures(q: string)
    requires q == "what do"
    ensures Classify(q) == Features
  {
    assert ToLower(q) == q;
    forall u | Rank(u) < Rank(Features) ensures !Mentions(u, ToLower(q)) {
      WhatDoLettersHaveNoEarlierKeyword(q, u);
    }
    assert q[..4] == "what";
    ContainsSpliced("what ", "do", []);
    assert "what " + "do" + [] == q;
  }

  /** ... and "what" without "do" is not (it would be under
      `feature || what || do`). */
  lemma WhatAloneFallsThrough(q: string)
    requires q == "what"
    ensures Classify(q) == Other
  {
    assert ToLower(q) == q;
    forall u | Rank(u) < Rank(Features) ensures !Mentions(u, ToLower(q)) {
      WhatDoLettersHaveNoEarlierKeyword(q, u);
    }
    MissingCharNotContained(q, "feature", 'f');
    MissingCharNotContained(q, "do", 'd');
  }

  datatype Sender = User | Bot

  /** One entry of the chat log. */
  datatype Message = Message(id: nat, text: string, sender: Sender)

  /** `messages.slice(-5)`: the last five messages, or all when fewer. */
  function RecentHistory(messages: seq<Message>): (r: seq<Message>)
    ensures |r| == if |messages| < 5 then |messages| else 5
    ensures r == messages[|messages| - |r|..]
  {
    if |messages| < 5 then messages else messages[|messages| - 5..]
  }

  /** How a message is quoted in the prompt: "User" for the user's messages
      and "Assistant" for everything else. */
  function HistoryLine(m: Message): (r: string)
    ensures m.sender == User ==> r == "User: " + m.text
    ensures m.sender != User ==> r == "Assistant: " + m.text
  {
    (if m.sender == User then "User" else "Assistant") + ": " + m.text
  }

  function HistoryLines(history: seq<Message>): (r: seq<string>)
    ensures |r| == |history|
    ensures forall k :: 0 <= k < |r| ==> r[k] == HistoryLine(history[k])
  {
    seq(|history|, k requires 0 <= k < |history| => HistoryLine(history[k]))
  }

  const PromptHead :=
      "\nYou are an AI assistant for a delivery optimization app "
    + "with the following features:\n- Route optimization using "
    + "real-time traffic and weather data\n- Precise delivery time "
    + "prediction using historical data\n- Priority delivery for "
    + "hospitals and elderly customers\n- AI-based vehicle selection "
    + "for optimal efficiency\n- Reliable delivery with driver "
    + "transfer capability\n- Real-time updates and tracking\n\n"
    + "User's recent conversation: \n"
  const QuestionHead := "\n\nUser's current question: "
  const PromptTail :=
      "\n\nPlease provide a professional, concise, and helpful "
    + "response about our delivery services.\n"

  /** The prompt for `query` that starts with `instructions`: the history
      one message per line, then the question and the closing request. */
  function PromptWith(instructions: string, query: string, history: seq<Message>): string {
    instructions + (Join(HistoryLines(history), "\n") + (QuestionHead + (query + PromptTail)))
  }

  /** The prompt text the chatbot sends for `query`. */
  function GeminiPrompt(query: string, history: seq<Message>): string {
    PromptWith(PromptHead, query, history)
  }

  /** The prompt quotes each message of the history it is given. */
  lemma PromptQuotesLine(instructions: string, query: string, history: seq<Message>, j: nat)
    requires j < |history|
    ensures Contains(PromptWith(instructions, query, history), HistoryLine(history[j]))
  {
    var lines := Join(HistoryLines(history), "\n");
    JoinContainsParts(HistoryLines(history), "\n", j);
    ContainsAppend(lines, QuestionHead + (query + PromptTail), HistoryLine(history[j]));
    ContainsPrepend(instructions, lines + (QuestionHead + (query + PromptTail)), HistoryLine(history[j]));
  }

  /** The prompt quotes the question. */
  lemma PromptQuotesQuery(instructions: string, query: string, history: seq<Message>)
    ensures Contains(PromptWith(instructions, query, history), query)
  {
    var lines := Join(HistoryLines(history), "\n");
    ContainsSpliced([], query, PromptTail);
    assert [] + query + PromptTail == query + PromptTail;
    ContainsPrepend(QuestionHead, query + PromptTail, query);
    ContainsPrepend(lines, QuestionHead + (query + PromptTail), query);
    ContainsPrepend(instructions, lines + (QuestionHead + (query + PromptTail)), query);
  }

  /** The prompt built from the recent history quotes each of the last five
      messages with its speaker label. */
  lemma PromptQuotesRecent(instructions: string, query: string, messages: seq<Message>, k: int)
    requires 0 <= k < |messages| && |messages| - 5 <= k
    ensures Contains(PromptWith(instructions, query, RecentHistory(messages)), HistoryLine(messages[k]))
  {
    var recent := RecentHistory(messages);
    var j := k - (|messages| - |recent|);
    assert recent[j] == messages[k];
    PromptQuotesLine(instructions, query, recent, j);
  }
}
