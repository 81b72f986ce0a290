# AIVentures delivery components, modelled in Dafny

This project models the logic of three React components of the AIVentures
delivery app:

- **The route planner** (`DeliveryRouteOptimizer`). It keeps an ordered stop
  list: a start, waypoints and an end. It adds, removes and edits stops and
  checks the list before asking for a route. When a route comes back it sums
  the predicted delay of every stop after the start. It also reads an
  uploaded CSV of deliveries: every header and cell is trimmed and unquoted,
  incomplete rows are dropped, each row is geocoded, and the deliveries are
  grouped by start address. The first group's stops are then shown.
- **The delivery chatbot** (`DeliveryGeminiChatbot`). It keeps an
  append-only message log whose ids count up from 1. It builds a prompt from
  the last five messages. It answers with the canned reply of the first
  keyword group, in a fixed order, whose keyword occurs in the lower-cased
  question, or with a fallback that quotes the question.
- **The intake assistant** (`AIInput`). It builds prompts from the
  conversation so far. It lets the model ask at most three questions and
  then demands a JSON record. It takes the record from the first `{` to the
  last `}` of the reply and keeps it. Then it calls its `onDataReady`
  callback, shows the record as indented JSON followed by the reply's success
  line, and locks its input. When the questions are used up without a record,
  it uses a default record instead. The app renders the component without
  the callback, so that call throws and the record is kept but never shown in
  the conversation.

Modules:

| file | module | contents |
|---|---|---|
| `common.dfy` | `Common` | `Option`; the JavaScript `trim`, `includes`, `endsWith`, `toLowerCase` (ASCII), `join` and decimal printing |
| `route_stops.dfy` | `RouteStops` | stop entries, card labels and classes, the stop-list edits and the shape they keep |
| `route_checks.dfy` | `RouteChecks` | the checks made before routing, predicted delays and their sum, minute rounding |
| `csv_routes.dfy` | `CsvRoutes` | CSV cell cleaning, the row filter, the grouping by start address (loop and reference definition), loading a group's stops |
| `route_optimizer.dfy` | `RouteOptimizer` | the `Planner` class: the component's state and one method per handler |
| `chat_replies.dfy` | `ChatReplies` | the keyword classifier, the replies, the chatbot prompt |
| `chat_log.dfy` | `ChatLog` | the `Chatbot` class: the message log, submit and reply |
| `intake_text.dfy` | `IntakeText` | JSON string quoting and its inverse, the record printout, the brace-block and success-line matches, table labels |
| `intake.dfy` | `Intake` | the intake prompt, one turn as a function on the state, the validity invariant, and the `IntakeAssistant` class |

The outside world is passed in as parameters:

- **The geocoder** is a total function `string -> Option<LatLng>`.
- **The delay predictor** is a total function `string -> Option<int>`.
- **The model's reply** is an `Option<string>`, where `None` means the request failed.
- **`JSON.parse` of a record** is a function `string -> Option<DeliveryData>`.
- **The `onDataReady` prop** is a flag saying whether it was given. A given callback is assumed to return; the record it receives is the `reported` result of a turn. A missing one throws when called, right after the record is set: the rest of that branch is skipped. `CalendarContent` renders the component without it.
- **Router outcomes** and **map initialisation** become separate methods or arguments. The router's duration is a `real` number of seconds.
- **Entry objects** of the stop list are given identity numbers, so that the planner can tell which arrays share an entry that is edited in place.

## Model

| member | source | states |
|---|---|---|
| Common.TrimStart | src/components/DeliveryRouteOptimizer.jsx:617-618 | the result is a suffix of the input that does not start with whitespace |
| Common.TrimStartSpec | src/components/DeliveryRouteOptimizer.jsx:617-618 | every character the start-trim drops is whitespace |
| Common.TrimEnd | src/components/DeliveryRouteOptimizer.jsx:617-618 | the result is a prefix of the input that does not end with whitespace |
| Common.TrimEndSpec | src/components/DeliveryRouteOptimizer.jsx:617-618 | every character the end-trim drops is whitespace |
| Common.Trim | src/components/DeliveryRouteOptimizer.jsx:617-618 | `trim()` is no longer than its input and has no whitespace at either end |
| Common.BlankIffAllWhitespace | src/components/DeliveryGeminiChatbot.jsx:100 | `s.trim() === ''` holds exactly when every character of `s` is whitespace |
| Common.TrimKeepsTrimmed | src/components/DeliveryRouteOptimizer.jsx:669 | trimming changes nothing when neither end is whitespace |
| Common.TrimIdempotent | src/components/DeliveryRouteOptimizer.jsx:682-683 | trimming an already trimmed cell changes nothing |
| Common.ContainsIffOccurs | src/components/DeliveryGeminiChatbot.jsx:68 | `includes` is true exactly when the word occurs at some index |
| Common.EndsWithAppended | src/components/AIInput.jsx:56-59 | a string ends with what was appended to it last |
| Common.ContainsSpliced | src/components/DeliveryGeminiChatbot.jsx:83 | a string contains every string spliced into it |
| Common.ContainsInfix | src/components/DeliveryGeminiChatbot.jsx:66-84 | text on both sides keeps every occurrence inside |
| Common.ContainsAppend | src/components/DeliveryGeminiChatbot.jsx:44 | text appended keeps every occurrence |
| Common.ContainsPrepend | src/components/DeliveryGeminiChatbot.jsx:44 | text prepended keeps every occurrence |
| Common.OccursInSlice | src/components/AIInput.jsx:77 | an occurrence inside a slice is an occurrence in the slice, shifted by its start |
| Common.ContainsTransitive | src/components/AIInput.jsx:54-56 | containment is transitive |
| Common.MissingCharNotContained | src/components/DeliveryGeminiChatbot.jsx:66-84 | a string lacking one of the keyword's letters does not contain the keyword |
| Common.MissingPairNotContained | src/components/DeliveryGeminiChatbot.jsx:78 | a string in which two adjacent letters of the keyword never stand side by side does not contain it |
| Common.JoinContainsParts | src/components/DeliveryGeminiChatbot.jsx:44 | `join('\n')` contains each of its parts |
| Common.ToLower | src/components/DeliveryGeminiChatbot.jsx:66 | `toLowerCase` keeps the length and maps each character on its own |
| Common.ToLowerAppend | src/components/DeliveryGeminiChatbot.jsx:66 | lower-casing distributes over concatenation |
| Common.NatToString | src/components/DeliveryRouteOptimizer.jsx:531 | a number prints as a non-empty string of decimal digits |
| Common.NatToStringRoundTrip | src/components/DeliveryRouteOptimizer.jsx:531 | reading the printed digits back gives the number |
| RouteStops.BlankWaypoint | src/components/DeliveryRouteOptimizer.jsx:198 | the inserted entry is a waypoint with an empty address and no coordinates |
| RouteStops.InitialStops | src/components/DeliveryRouteOptimizer.jsx:21-25 | the planner starts with a blank start, waypoint and end in a well-shaped list |
| RouteStops.LocationLabel | src/components/DeliveryRouteOptimizer.jsx:524-533 | "Starting Point", "Destination", or "Waypoint " followed by digits whose value is the index |
| RouteStops.LocationTypeClass | src/components/DeliveryRouteOptimizer.jsx:536-545 | "location-" followed by the kind's name |
| RouteStops.TypeClassInjective | src/components/DeliveryRouteOptimizer.jsx:536-545 | two kinds of entry never share a card class |
| RouteStops.WithWaypointBeforeLast | src/components/DeliveryRouteOptimizer.jsx:195-201 | one entry longer; the last entry stays last; a blank waypoint just before it; everything earlier untouched |
| RouteStops.AddWaypointKeepsShape | src/components/DeliveryRouteOptimizer.jsx:195-201 | adding a waypoint keeps the start first, the end last and only waypoints between |
| RouteStops.SpliceStart | src/components/DeliveryRouteOptimizer.jsx:211 | `splice`'s start: a negative index counts from the end; both ends are clamped |
| RouteStops.SpliceOne | src/components/DeliveryRouteOptimizer.jsx:211 | `splice(index, 1)` removes the one entry at its start, if any, and keeps the order of the rest |
| RouteStops.SpliceOneRemovesOne | src/components/DeliveryRouteOptimizer.jsx:211 | the removed entry plus the rest is the old list, as a multiset |
| RouteStops.RemoveWaypointKeepsShape | src/components/DeliveryRouteOptimizer.jsx:204-213 | removing a waypoint from a list of more than three keeps the shape |
| RouteStops.WithAddressTyped | src/components/DeliveryRouteOptimizer.jsx:216-221 | the typed entry gets the new address and loses its coordinates; the others are unchanged |
| RouteStops.WithSuggestionPicked | src/components/DeliveryRouteOptimizer.jsx:261-272 | the picked entry keeps its kind and takes the place's name and coordinates; the others are unchanged |
| RouteStops.EditsKeepShape | src/components/DeliveryRouteOptimizer.jsx:216-272 | typing or picking never changes any entry's kind |
| RouteStops.FreshIds | src/components/DeliveryRouteOptimizer.jsx:198 | entry objects created together are distinct and newer than every earlier one |
| RouteStops.FreshKeepsDistinct | src/components/DeliveryRouteOptimizer.jsx:196-200 | a new entry object, added before the last or replacing one, keeps a list's entries distinct |
| RouteStops.SpliceKeepsDistinct | src/components/DeliveryRouteOptimizer.jsx:210-212 | removing an entry keeps a list's entries distinct |
| RouteStops.TypedIntoEntry | src/components/DeliveryRouteOptimizer.jsx:217-220 | in a list of distinct objects, typing into an entry's object is typing into that entry |
| RouteStops.TypedIntoOtherObject | src/components/DeliveryRouteOptimizer.jsx:217-220 | a list that does not hold the typed-into object is unchanged |
| RouteChecks.FirstEmptyAddress | src/components/DeliveryRouteOptimizer.jsx:358 | finds an entry with an empty address; `None` exactly when there is none |
| RouteChecks.FirstMissingCoords | src/components/DeliveryRouteOptimizer.jsx:364 | the first entry whose latitude or longitude is missing or zero; `None` exactly when all have both |
| RouteChecks.RouteInputError | src/components/DeliveryRouteOptimizer.jsx:345-371 | map first, then empty addresses, then the first entry without coordinates named by its address; no error exactly when all checks pass |
| RouteChecks.ZeroCoordinateRejected | src/components/DeliveryRouteOptimizer.jsx:358-370 | a stop at latitude 0 is rejected as having no coordinates |
| RouteChecks.PredictedDelay | src/components/DeliveryRouteOptimizer.jsx:289-342 | the predicted minutes, or 0 when the prediction fails |
| RouteChecks.SumDelaysAppend | src/components/DeliveryRouteOptimizer.jsx:457-461 | delays add up over consecutive stretches of the list |
| RouteChecks.RouteDelayExcludesStart | src/components/DeliveryRouteOptimizer.jsx:458 | the start never contributes a delay |
| RouteChecks.RouteDelayRetyped | src/components/DeliveryRouteOptimizer.jsx:457-461 | retyping a stop after the start changes the delay by the difference of the two predictions |
| RouteChecks.TypedIntoRouteDelay | src/components/DeliveryRouteOptimizer.jsx:443-461 | an address typed into a routed stop's object after the request is what the route-found handler prices |
| RouteChecks.SumDelaysBounds | src/components/DeliveryRouteOptimizer.jsx:330-341 | all predictions failing gives 0; all non-negative gives a non-negative total |
| RouteChecks.TotalDelay | src/components/DeliveryRouteOptimizer.jsx:457-461 | the loop's sum is the route delay of every stop after the start |
| RouteChecks.RouteMinutes | src/components/DeliveryRouteOptimizer.jsx:465-467 | `Math.round(seconds / 60)` on the router's fractional seconds: the nearest minute, halves rounded up |
| RouteChecks.RoundedMinutes | src/components/DeliveryRouteOptimizer.jsx:465 | the same rounding on whole seconds |
| RouteChecks.WholeSecondsSuffice | src/components/DeliveryRouteOptimizer.jsx:465-467 | the fraction of a second never changes the rounded minutes |
| RouteOptimizer.Planner.constructor | src/components/DeliveryRouteOptimizer.jsx:21-38 | the initial state of every field; the three initial entries are distinct objects |
| RouteOptimizer.Planner.InitializeMap | src/components/DeliveryRouteOptimizer.jsx:48-83 | the map comes up, or the error is set and nothing else changes |
| RouteOptimizer.Planner.AddWaypoint | src/components/DeliveryRouteOptimizer.jsx:195-201 | the new stop list is `WithWaypointBeforeLast` of the old one and keeps its shape; the blank waypoint is a new object and the others are kept |
| RouteOptimizer.Planner.RemoveWaypoint | src/components/DeliveryRouteOptimizer.jsx:204-213 | refused with the error at three entries or fewer; otherwise the entry is spliced out, its object with it, and the shape kept |
| RouteOptimizer.Planner.ChangeLocation | src/components/DeliveryRouteOptimizer.jsx:216-226 | address set and coordinates cleared, in the entry object itself, so the routed list changes wherever it holds that object; a blank value clears the suggestions; any other value marks them loading |
| RouteOptimizer.Planner.ReceiveSuggestions | src/components/DeliveryRouteOptimizer.jsx:228-257 | the places found, or none on failure; loading ends |
| RouteOptimizer.Planner.SelectSuggestion | src/components/DeliveryRouteOptimizer.jsx:261-272 | a new entry object takes the place; its suggestions are emptied; no input is active |
| RouteOptimizer.Planner.OptimizeRoute | src/components/DeliveryRouteOptimizer.jsx:345-371 | the error set is `RouteInputError`; routing goes on exactly when there is none, and then the list routed and its entry objects are recorded for the route-found handler |
| RouteOptimizer.Planner.RoutesFound | src/components/DeliveryRouteOptimizer.jsx:443-485 | duration is `Math.round` of the fractional seconds in minutes; delay summed over the stops after the start of the routed list, with addresses typed into its objects since; total = both; number of routed stops |
| RouteOptimizer.Planner.RouteSetupFailed | src/components/DeliveryRouteOptimizer.jsx:496-500 | a throw while setting up the route shows "Error optimizing route: " and the message, and ends optimizing |
| RouteOptimizer.Planner.RoutingFailed | src/components/DeliveryRouteOptimizer.jsx:489-495 | the routing error is set and optimising ends |
| RouteOptimizer.Planner.LoadRouteForStartLocation | src/components/DeliveryRouteOptimizer.jsx:698-724 | incomplete route data changes nothing; complete data shows that group's stops as new objects and selects its start |
| RouteOptimizer.Planner.ProcessCsvData | src/components/DeliveryRouteOptimizer.jsx:602-658 | the grouping is `GroupedRoutes` of the rows; a non-empty first key is selected and its stops loaded |
| RouteOptimizer.Planner.UploadCsv | src/components/DeliveryRouteOptimizer.jsx:662-695 | no file: nothing changes; parse error: only the error, the stops and the selected start unchanged; parsed: the cleaned complete rows are stored and grouped; with a group, the first key is selected and its stops are shown; without one, stops and selection stay |
| CsvRoutes.Unquote | src/components/DeliveryRouteOptimizer.jsx:669 | drops at most one quote at each end, and only quotes |
| CsvRoutes.CleanCellUnquotes | src/components/DeliveryRouteOptimizer.jsx:673 | a quoted cell loses exactly its two quotes |
| CsvRoutes.CleanCellTrimsUnquoted | src/components/DeliveryRouteOptimizer.jsx:673 | a cell with no quote at either end is only trimmed |
| CsvRoutes.ColumnFrom | src/components/DeliveryRouteOptimizer.jsx:666-670 | the first column headed by the name; `None` exactly when there is none |
| CsvRoutes.Field | src/components/DeliveryRouteOptimizer.jsx:680-681 | the cleaned cell under a column with that header; `None` exactly when no header matches |
| CsvRoutes.CompleteRows | src/components/DeliveryRouteOptimizer.jsx:678-684 | keeps exactly the complete rows, each as often as before |
| CsvRoutes.UploadedRows | src/components/DeliveryRouteOptimizer.jsx:665-686 | every row handed on has a non-blank Start and End |
| CsvRoutes.Geocoded | src/components/DeliveryRouteOptimizer.jsx:625-626 | the geocoder's position, named after the address; none exactly when the geocoder fails |
| CsvRoutes.RowContribution | src/components/DeliveryRouteOptimizer.jsx:611-630 | a row contributes its trimmed addresses and their positions, or nothing when a column is missing or empty or a lookup fails |
| CsvRoutes.FirstOccurrencesMembers | src/components/DeliveryRouteOptimizer.jsx:631-636 | the keys are exactly the start addresses used, and the first comes first |
| CsvRoutes.GroupContributionsSpec | src/components/DeliveryRouteOptimizer.jsx:604-648 | the grouping loop equals the reference: keys in first-seen order; each group's deliveries in row order, never empty; its position from its first row |
| CsvRoutes.DestinationsAbsent | src/components/DeliveryRouteOptimizer.jsx:631-636 | an address that is not a key has no deliveries |
| CsvRoutes.GroupedRoutesSpec | src/components/DeliveryRouteOptimizer.jsx:602-651 | the same on rows: each group's position is its key's geocoded position |
| CsvRoutes.ContributionsGeocoded | src/components/DeliveryRouteOptimizer.jsx:625-633 | each contribution's start position is the geocoded start address |
| CsvRoutes.FirstStartCoordsGeocoded | src/components/DeliveryRouteOptimizer.jsx:631-636 | a group's position is its key's geocoded position |
| CsvRoutes.UploadedKeysNonEmpty | src/components/DeliveryRouteOptimizer.jsx:678-684 | after the upload filter no contributed start address is empty |
| CsvRoutes.FirstUploadedKeyNonEmpty | src/components/DeliveryRouteOptimizer.jsx:654-658 | after an upload the first key, when there is one, is non-empty, so it is always selected |
| CsvRoutes.GroupedRoutesStep | src/components/DeliveryRouteOptimizer.jsx:607-648 | one more row adds exactly its contribution |
| CsvRoutes.GroupRows | src/components/DeliveryRouteOptimizer.jsx:604-648 | the loop builds exactly `GroupedRoutes` |
| CsvRoutes.StopsForGroup | src/components/DeliveryRouteOptimizer.jsx:702-720 | none when data is missing; otherwise the start, then one waypoint per delivery in order, named by its address or else the place name |
| CsvRoutes.LoadedStopsHaveNoEnd | src/components/DeliveryRouteOptimizer.jsx:707-720 | a loaded group's list has one start at the front and only waypoints after it |
| ChatReplies.Classify | src/components/DeliveryGeminiChatbot.jsx:66-84 | the chosen group's keywords occur in the lower-cased question and no earlier group's do |
| ChatReplies.Reply | src/components/DeliveryGeminiChatbot.jsx:66-84 | a matched group gives its fixed reply |
| ChatReplies.FallbackQuotesQuery | src/components/DeliveryGeminiChatbot.jsx:83 | the fallback quotes the question as typed |
| ChatReplies.MentionsSurvivesContext | src/components/DeliveryGeminiChatbot.jsx:66-84 | every keyword test still passes with text around the question |
| ChatReplies.MoreWordsNeverDemote | src/components/DeliveryGeminiChatbot.jsx:66-84 | added words can only move a question to an earlier group |
| ChatReplies.ClassifyIgnoresCase | src/components/DeliveryGeminiChatbot.jsx:66 | a question and its lower-cased form fall in the same group |
| ChatReplies.FeatureWordHasNoEarlierKeyword | src/components/DeliveryGeminiChatbot.jsx:68-78 | "feature" carries no earlier group's keyword |
| ChatReplies.WhatDoLettersHaveNoEarlierKeyword | src/components/DeliveryGeminiChatbot.jsx:68-78 | words from the letters of "what do" carry no earlier keyword |
| ChatReplies.FeatureAloneSuffices | src/components/DeliveryGeminiChatbot.jsx:80 | "feature" alone selects the features reply |
| ChatReplies.WhatWithDoSelectsFeatures | src/components/DeliveryGeminiChatbot.jsx:80 | "what do" selects the features reply |
| ChatReplies.WhatAloneFallsThrough | src/components/DeliveryGeminiChatbot.jsx:80-83 | "what" without "do" gets the fallback |
| ChatReplies.RecentHistory | src/components/DeliveryGeminiChatbot.jsx:57 | `slice(-5)`: the last five messages, or all when fewer |
| ChatReplies.HistoryLine | src/components/DeliveryGeminiChatbot.jsx:44 | "User: " for the user's messages, "Assistant: " for the rest |
| ChatReplies.PromptQuotesLine | src/components/DeliveryGeminiChatbot.jsx:33-50 | the prompt quotes each message of its history |
| ChatReplies.PromptQuotesQuery | src/components/DeliveryGeminiChatbot.jsx:33-50 | the prompt quotes the question |
| ChatReplies.PromptQuotesRecent | src/components/DeliveryGeminiChatbot.jsx:57-60 | the prompt quotes each of the last five messages with its speaker |
| ChatLog.Appended | src/components/DeliveryGeminiChatbot.jsx:102-110 | one message more; earlier ones unchanged; sequential ids kept |
| ChatLog.SequentialIdsDistinct | src/components/DeliveryGeminiChatbot.jsx:103 | sequential ids are distinct |
| ChatLog.Chatbot.constructor | src/components/DeliveryGeminiChatbot.jsx:5-14 | the log starts with the welcome message, id 1 |
| ChatLog.Chatbot.ChangeInput | src/components/DeliveryGeminiChatbot.jsx:29-31 | the input takes the typed value |
| ChatLog.Chatbot.Submit | src/components/DeliveryGeminiChatbot.jsx:98-113 | blank input: nothing changes; otherwise the question is logged with the next id, the input is cleared, loading is already false, and the prompt quotes the five earlier messages |
| ChatLog.Chatbot.Send | src/components/DeliveryGeminiChatbot.jsx:52-60 | past the blank check: the question is logged with the next id, the input cleared, and loading set and reset while the prompt is built from the five earlier messages |
| ChatLog.Chatbot.ReceiveReply | src/components/DeliveryGeminiChatbot.jsx:113-128 | the reply is logged with the next id, and loading ends |
| IntakeText.HexValue | src/components/AIInput.jsx:54-56 | a hex digit's value is below 16 |
| IntakeText.HexValueIgnoresCase | src/components/AIInput.jsx:54-56 | an upper- and a lower-case hex digit read the same |
| IntakeText.HexDigitValue | src/components/AIInput.jsx:54-56 | the digit written for a value reads back as that value |
| IntakeText.EscapeChar | src/components/AIInput.jsx:54-56 | every character is written as at least one character |
| IntakeText.EscapeCharShape | src/components/AIInput.jsx:54-56 | a plain character is written as itself; a quote, backslash or control character as an escape starting with a backslash |
| IntakeText.Hex4 | src/components/AIInput.jsx:54-56 | four hex digits are below 0x10000 |
| IntakeText.Hex4OfDigits | src/components/AIInput.jsx:54-56 | four written hex digits read back as their positional value |
| IntakeText.UnescapeControl | src/components/AIInput.jsx:54-56 | a control character written as `\u00XX` decodes to itself, then the rest |
| IntakeText.UnescapeOne | src/components/AIInput.jsx:54-56 | decoding an escaped character then the rest |
| IntakeText.UnescapeEscape | src/components/AIInput.jsx:54-56 | JSON string quoting round-trips: decoding the escaped string gives it back |
| IntakeText.ConversationJsonQuotesEntries | src/components/AIInput.jsx:54-56 | the serialised conversation quotes each entry's content recoverably |
| IntakeText.DefaultRecord | src/components/AIInput.jsx:109-116 | the default record has six fields |
| IntakeText.FieldValueSpec | src/components/AIInput.jsx:125-129 | a field lookup finds nothing exactly when no field has the key, and a value found belongs to a field with that key |
| IntakeText.DefaultRecordFields | src/components/AIInput.jsx:109-116 | the default record's keys are distinct and its start and end locations are "unknown" |
| IntakeText.IntToString | src/components/AIInput.jsx:79-83 | an integer prints as a non-empty string |
| IntakeText.IntToStringRoundTrip | src/components/AIInput.jsx:79-83 | a minus sign exactly for a negative number, then decimal digits whose value is the magnitude |
| IntakeText.PrettyJsonShowsFields | src/components/AIInput.jsx:79-83 | the printed record has each field as `"key": value` indented by two spaces |
| IntakeText.FirstIndexOf | src/components/AIInput.jsx:67 | a found index is inside the string |
| IntakeText.FirstIndexOfSpec | src/components/AIInput.jsx:67 | the first index holding the character; `None` exactly when it does not occur |
| IntakeText.LastIndexOf | src/components/AIInput.jsx:67 | a found index is inside the string |
| IntakeText.LastIndexOfSpec | src/components/AIInput.jsx:67 | the last index holding the character; `None` exactly when it does not occur |
| IntakeText.BraceBlock | src/components/AIInput.jsx:67 | a block is a non-empty stretch of the reply |
| IntakeText.BraceBlockSpec | src/components/AIInput.jsx:67 | from the first `{` to the last `}`; none exactly when no `}` follows a `{` |
| IntakeText.BlockOccursOnce | src/components/AIInput.jsx:74-75 | the block occurs only where it was found, so `split(block)[1]` is the text after it |
| IntakeText.LineEnd | src/components/AIInput.jsx:77 | the line end is between the position and the end |
| IntakeText.LineEndSpec | src/components/AIInput.jsx:77 | the first line terminator from the position on, or the end |
| IntakeText.LastClosingIn | src/components/AIInput.jsx:77 | the place found fits inside the window |
| IntakeText.LastClosingInOccurs | src/components/AIInput.jsx:77 | the place found is an occurrence of the closing words |
| IntakeText.LastClosingInSpec | src/components/AIInput.jsx:77 | it is the last occurrence in the window; none exactly when there is none |
| IntakeText.SuccessMatchFrom | src/components/AIInput.jsx:77 | a match lies on one line, after the start, longer than the closing words |
| IntakeText.SuccessMatchEnds | src/components/AIInput.jsx:77 | a match starts with the check mark and ends with the closing words |
| IntakeText.CanStartIffClosingOnLine | src/components/AIInput.jsx:77 | a match can start exactly at a check mark followed on its line by the closing words |
| IntakeText.SuccessMatchCanStart | src/components/AIInput.jsx:77 | the match starts where a match can start |
| IntakeText.SuccessMatchIsLeftmost | src/components/AIInput.jsx:77 | no match can start earlier |
| IntakeText.SuccessMatchFound | src/components/AIInput.jsx:77 | wherever a match can start, one is found |
| IntakeText.MatchedLineShape | src/components/AIInput.jsx:74-83 | a success line is one line: the check mark, then text, then the closing words |
| IntakeText.NoMatchedLineNoStart | src/components/AIInput.jsx:83 | an empty success line means no match could start anywhere |
| IntakeText.SpaceBeforeCapitals | src/components/AIInput.jsx:167 | empty exactly when the key is empty; never starts with a capital; keeps the last character |
| IntakeText.UnlabelSpaceBeforeCapitals | src/components/AIInput.jsx:167 | the spaces are only inserted: removing them gives the key back |
| IntakeText.CamelCaseLabel | src/components/AIInput.jsx:167 | a camelCase key's label is the key with a space before each capital, and it gives the key back |
| IntakeText.SpaceBeforeCapitalsAppend | src/components/AIInput.jsx:167 | spacing works piece by piece |
| IntakeText.NoCapitalsNoSpaces | src/components/AIInput.jsx:167 | a word without capitals is unchanged |
| IntakeText.CapitalisedWordSpaced | src/components/AIInput.jsx:167 | a capitalised word gets one space in front |
| IntakeText.SpaceAfterWord | src/components/AIInput.jsx:167 | past a lower-case word the next capital gets its space |
| IntakeText.ThreeWordSpacing | src/components/AIInput.jsx:167 | three camelCase words get a space before the second and third |
| IntakeText.ThreeWordLabel | src/components/AIInput.jsx:164-168 | a three-word key such as `numberOfPackages` is labelled "number Of Packages" |
| IntakeText.DeliveryTable | src/components/AIInput.jsx:156-176 | one row per field |
| IntakeText.DeliveryTableRowReadsBack | src/components/AIInput.jsx:164-169 | each row's label gives back its camelCase key, and its value is the field's value as text |
| IntakeText.DeliveryTableLabelsDistinct | src/components/AIInput.jsx:164-169 | fields with different camelCase keys get different labels |
| Intake.PromptStartsWithInstructions | src/components/AIInput.jsx:51-60 | every prompt starts with the instructions |
| Intake.FirstPromptEnding | src/components/AIInput.jsx:52-53 | the first prompt ends with the user's line |
| Intake.LaterPromptEnding | src/components/AIInput.jsx:54-60 | a later prompt ends with the user's line while fewer than three questions were asked |
| Intake.ForcedPromptEnding | src/components/AIInput.jsx:49-59 | from three questions on, a later prompt ends with the mandatory-JSON line |
| Intake.PromptQuotesConversation | src/components/AIInput.jsx:54-56 | a later prompt quotes every entry's content |
| Intake.PlainReaction | src/components/AIInput.jsx:96-138 | a reply without a JSON block is a question only while fewer than three were asked |
| Intake.TextReaction | src/components/AIInput.jsx:67-138 | a reply's text is a question only while fewer than three were asked |
| Intake.ReactionTo | src/components/AIInput.jsx:62-141 | a question only while fewer than three were asked |
| Intake.ApplyEffect | src/components/AIInput.jsx:68-140 | the handler's updates have the effect of a turn, with or without an `onDataReady` callback |
| Intake.TurnHasEffect | src/components/AIInput.jsx:43-148 | each turn adds one exchange and either counts a question or, on a record given to a callback, sets and reports it; or it adds none, and then reports nothing and keeps the record, unless without a callback a new record is set |
| Intake.Submit | src/components/AIInput.jsx:150-154 | blank input or a locked input changes nothing |
| Intake.InitialStateValid | src/components/AIInput.jsx:8-12 | the initial state satisfies the invariant |
| Intake.EffectKeepsValid | src/components/AIInput.jsx:85-137 | a turn's effect keeps at most three questions, alternating roles and one exchange per question or record |
| Intake.TurnKeepsValid | src/components/AIInput.jsx:43-148 | every turn keeps the invariant |
| Intake.SubmitKeepsValid | src/components/AIInput.jsx:150-154 | every submit keeps the invariant |
| Intake.QuestionTurn | src/components/AIInput.jsx:98-106 | a reply without a block while questions remain: the question without "AI: ", trimmed, is logged and counted |
| Intake.DefaultAfterThreeQuestions | src/components/AIInput.jsx:107-140 | a reply without a block after three questions sets the default record; with a callback it is also reported and shown; without one the call throws and the conversation is left as it was |
| Intake.DefaultSuccessNamesEnds | src/components/AIInput.jsx:121-129 | the default success text names the record's start and end locations, "unknown" for the default record |
| Intake.RecordTurn | src/components/AIInput.jsx:67-95 | a parsed block sets the record and leaves the count; with a callback it is also reported and shown with the success line; without one the call throws and the conversation is left as it was |
| Intake.NoCallbackOnlyQuestionsLogged | src/components/AIInput.jsx:71-72 | without `onDataReady`, as `CalendarContent` renders the component, nothing is reported and every exchange added is a counted question |
| Intake.DataReplyShape | src/components/AIInput.jsx:79-83 | the text shown is the JSON, a blank line, then an empty or a closing success line |
| Intake.UnusableReplyChangesNothingShown | src/components/AIInput.jsx:93-95 | a failed request or an unparsable block changes neither the conversation, the count nor the record |
| Intake.FirstRecordLeavesInputOpen | src/components/AIInput.jsx:142-147 | a turn that sets the first record leaves the input cleared and not locked |
| Intake.RecordThenLocked | src/components/AIInput.jsx:92 | once a record is shown, the next accepted submit leaves the input locked |
| Intake.PromptForcedAfterThreeQuestions | src/components/AIInput.jsx:49 | in a valid state with three questions every prompt demands JSON |
| Intake.FirstPromptNotForced | src/components/AIInput.jsx:52-53 | before any question the prompt is the instructions and the user's line |
| Intake.IntakeAssistant.constructor | src/components/AIInput.jsx:7-12 | the initial state, which is valid, and whether an `onDataReady` callback was given |
| Intake.IntakeAssistant.ChangeInput | src/components/AIInput.jsx:194-196 | the input changes only while not locked |
| Intake.IntakeAssistant.ApplyReaction | src/components/AIInput.jsx:68-140 | the state after the handler's updates, the missing callback's throw included, is `Apply` of the old state |
| Intake.ApplyWhileBusy | src/components/AIInput.jsx:45 | reacting from a state already marked busy gives the same outcome |
| Intake.IntakeAssistant.Settled | src/components/AIInput.jsx:142-147 | the `finally` block: without a record seen at the start, the input is unlocked and cleared |
| Intake.IntakeAssistant.ProcessUserInput | src/components/AIInput.jsx:43-148 | the prompt built, and the new state and report are those of `Turn` for the component's callback |
| Intake.IntakeAssistant.HandleSubmit | src/components/AIInput.jsx:150-154 | the new state is `Submit` of the old one; a prompt is sent exactly when the input is not blank and not locked; the invariant is kept |

## Left out

- Network calls (the Gemini model, OpenStreetMap search, OSRM routing) are parameters or separate methods; their request formats are not modelled.
- The Leaflet map (markers, routing control, `setView`, `invalidateSize`) is not modelled; only whether it initialised is.
- Distances, kilometres with two decimals and `NaN` are not modelled: coordinates are `real` and a missing one is `None`.
- `toLowerCase` is modelled on ASCII letters only; other scripts' case mappings are left out.
- Timers are left out. This covers the address-search debounce, the one-second pause between CSV rows and the delayed `invalidateSize`. It also covers the automatic `optimizeRoute` call 500 ms after a group loads.
- `getCurrentLocation` and `getCoordinatesWithGemini`'s text parsing are left out: the geocoder is a total function parameter, with one fixed answer per address.
- Papa.parse is left out: the parsed CSV is a header line and records of strings. When two headers are equal after cleaning, the first column is used.
- `Object.keys` ordering is modelled as insertion order. This holds for non-numeric keys only. Numeric-looking start addresses, which JavaScript orders first, and prototype keys are left out.
- `JSON.parse` of the model's block is a parameter. Records are flat lists of string and integer fields.
- `JSON.stringify` escapes lone surrogates, which are not modelled: `char` here is a Unicode scalar value.
- The chatbot's open and close toggle, scrolling, and the input focus and click-outside handling are left out.
- The chatbot's connection-trouble reply and its apology message are left out because no path leads to either. The prompt is built from strings and cannot throw, and the reply promise is never rejected.
- IntakeText.MatchedLine: `.*` is greedy, so the match ends at the last occurrence of the closing words on its line. The model computes that, but only the leftmost start and the line shape are proved, not that the end is the last one.
- Planner.RoutesFound: all delays are predicted against the stops as they are when the route arrives. The handler awaits each prediction in turn, so an address typed between two predictions would count only for the later stops; that interleaving is left out.
- The route-found event is modelled as arriving once, for the last route request that passed the checks. Events of earlier, replaced routing controls are left out.
- Console logging is left out.
- A given `onDataReady` callback that throws is left out. It would behave like a missing one, except that it has received the record.
- Two behaviours caused by stale React closures are modelled as written and proved as lemmas:
  - The intake's `finally` block reads the record from before the turn. After the first record the input stays open (`FirstRecordLeavesInputOpen`); after a later accepted submit it stays locked (`RecordThenLocked`).
  - The chatbot's loading flag is already false when `handleSubmit` yields (`Chatbot.Submit`).
  - The route-found handler sums delays over the stop array it was created with, not the one on screen when the route arrives (`Planner.RoutesFound`). The entries of that array are shared objects, so an address typed into one of them since still counts (`TypedIntoRouteDelay`); a picked suggestion or a loaded group makes new objects and does not.
