/** The text handling of the delivery intake assistant: how it writes JSON
    (for the conversation it sends and the record it shows), how it finds
    the JSON block and the closing success line in the model's reply, and
    how it turns field names into table labels. */
module IntakeText {
  import opened Common

  // ---------------------------------------------------------------------
  // JSON.stringify of a string
  // ---------------------------------------------------------------------

  function HexDigit(n: nat): (c: char)
    requires n < 16
  {
    if n < 10 then ('0' as int + n) as char else ('a' as int + n - 10) as char
  }

  /** The value of one hexadecimal digit, in either case. */
  function HexValue(c: char): (r: Option<nat>)
    ensures r.Some? ==> r.value < 16
  {
    if '0' <= c <= '9' then Some(c as int - '0' as int)
    else if 'a' <= c <= 'f' then Some(c as int - 'a' as int + 10)
    else if 'A' <= c <= 'F' then Some(c as int - 'A' as int + 10)
    else None
  }

  lemma HexDigitValue(n: nat)
    requires n < 16
    ensures HexValue(HexDigit(n)) == Some(n)
  {
  }

  /** A hexadecimal digit means the same in either case. */
  lemma HexValueIgnoresCase(c: char)
    ensures HexValue(LowerChar(c)) == HexValue(c)
  {
  }

  /** How JSON.stringify writes one character inside a string: the quote,
      the backslash and the control characters are escaped (the five with a
      short form by it, the others as `\u00xx`); every other character is
      written as it is. */
  function EscapeChar(c: char): (r: string)
    ensures r != []
  {
    if c == '"' then "\\\""
    else if c == '\\' then "\\\\"
    else if c == '\U{0008}' then "\\b"
    else if c == '\U{000C}' then "\\f"
    else if c == '\n' then "\\n"
    else if c == '\r' then "\\r"
    else if c == '\t' then "\\t"
    else if c < ' ' then "\\u00" + [HexDigit(c as int / 16), HexDigit(c as int % 16)]
    else [c]
  }

  /** A character other than the quote, the backslash and the controls is
      written as it is; those are written as an escape of two characters or
      more. */
  lemma EscapeCharShape(c: char)
    ensures !(c == '"' || c == '\\' || c < ' ') ==> EscapeChar(c) == [c]
    ensures (c == '"' || c == '\\' || c < ' ') ==> |EscapeChar(c)| >= 2 && EscapeChar(c)[0] == '\\'
  {
  }

  function Escape(s: string): string {
    if s == [] then [] else EscapeChar(s[0]) + Escape(s[1..])
  }

  /** JSON.stringify applied to a string. */
  function Quote(s: string): string {
    "\"" + Escape(s) + "\""
  }

  /** The character a two-character escape `\x` stands for. */
  function ShortEscape(x: char): Option<char> {
    if x == '"' then Some('"')
    else if x == '\\' then Some('\\')
    else if x == '/' then Some('/')
    else if x == 'b' then Some('\U{0008}')
    else if x == 'f' then Some('\U{000C}')
    else if x == 'n' then Some('\n')
    else if x == 'r' then Some('\r')
    else if x == 't' then Some('\t')
    else None
  }

  /** The value of four hexadecimal digits. */
  function Hex4(h: string): (r: Option<nat>)
    requires |h| == 4
    ensures r.Some? ==> r.value < 0x1_0000
  {
    match (HexValue(h[0]), HexValue(h[1]), HexValue(h[2]), HexValue(h[3]))
    case (Some(a), Some(b), Some(c), Some(d)) => Some(((a * 16 + b) * 16 + c) * 16 + d)
    case _ => None
  }

  /** Four digits written for a value read back as that value. */
  lemma Hex4OfDigits(a: nat, b: nat, c: nat, d: nat)
    requires a < 16 && b < 16 && c < 16 && d < 16
    ensures Hex4([HexDigit(a), HexDigit(b), HexDigit(c), HexDigit(d)]) == Some(a * 0x1000 + b * 0x100 + c * 0x10 + d)
  {
    HexDigitValue(a);
    HexDigitValue(b);
    HexDigitValue(c);
    HexDigitValue(d);
  }

  function Prepend(c: char, rest: Option<string>): Option<string> {
    match rest
    case Some(r) => Some([c] + r)
    case None => None
  }

  /** Reading back the inside of a JSON string: the escapes are decoded, and
      a bare quote or control character, an unknown escape or a surrogate
      code unit is an error. */
  function Unescape(e: string): Option<string>
    decreases |e|
  {
    if e == [] then Some([])
    else if e[0] == '\\' then
      if |e| < 2 then None
      else match ShortEscape(e[1])
        case Some(c) => Prepend(c, Unescape(e[2..]))
        case None =>
          if e[1] != 'u' || |e| < 6 then None
          else match Hex4(e[2..6])
            case Some(v) => if 0xD800 <= v < 0xE000 then None else Prepend(v as char, Unescape(e[6..]))
            case None => None
    else if e[0] == '"' || e[0] < ' ' then None
    else Prepend(e[0], Unescape(e[1..]))
  }

  /** Decoding a control character written as `\u00XX`, then the rest. */
  lemma UnescapeControl(c: char, rest: string)
    requires c < ' ' && c != '\U{0008}' && c != '\U{000C}' && c != '\n' && c != '\r' && c != '\t'
    ensures Unescape(EscapeChar(c) + rest) == Prepend(c, Unescape(rest))
  {
    var e := EscapeChar(c) + rest;
    var h1, h2 := c as int / 16, c as int % 16;
    HexDigitValue(h1);
    HexDigitValue(h2);
    assert e[1] == 'u' && e[2..6] == ['0', '0', HexDigit(h1), HexDigit(h2)];
    assert Hex4(e[2..6]) == Some(c as int);
    assert e[6..] == rest;
  }

  /** Decoding one escaped character and then the rest. */
  lemma UnescapeOne(c: char, rest: string)
    ensures Unescape(EscapeChar(c) + rest) == Prepend(c, Unescape(rest))
  {
    var e := EscapeChar(c) + rest;
    if c < ' ' && c != '\U{0008}' && c != '\U{000C}' && c != '\n' && c != '\r' && c != '\t' {
      UnescapeControl(c, rest);
    } else if |EscapeChar(c)| == 2 {
      assert e[2..] == rest;
    } else {
      assert e[1..] == rest;
    }
  }

  /** Every string survives JSON quoting: decoding its escaped form gives it
      back. */
  lemma {:induction false} UnescapeEscape(s: string)
    ensures Unescape(Escape(s)) == Some(s)
  {
    if s != [] {
      UnescapeOne(s[0], Escape(s[1..]));
      UnescapeEscape(s[1..]);
      assert [s[0]] + s[1..] == s;
    }
  }

  // ---------------------------------------------------------------------
  // The conversation as JSON.stringify writes it
  // ---------------------------------------------------------------------

  datatype Role = UserRole | AssistantRole

  /** One conversation entry: who said it and what. */
  datatype Entry = Entry(role: Role, content: string)

  function RoleName(r: Role): string {
    match r
    case UserRole => "user"
    case AssistantRole => "assistant"
  }

  function EntryJson(e: Entry): string {
    "{\"role\":" + Quote(RoleName(e.role)) + ",\"content\":" + Quote(e.content) + "}"
  }

  function EntriesJson(conversation: seq<Entry>): (r: seq<string>)
    ensures |r| == |conversation|
    ensures forall k :: 0 <= k < |r| ==> r[k] == EntryJson(conversation[k])
  {
    seq(|conversation|, k requires 0 <= k < |conversation| => EntryJson(conversation[k]))
  }

  /** `JSON.stringify(conversation)`: a compact array of role/content
      objects. */
  function ConversationJson(conversation: seq<Entry>): string {
    "[" + Join(EntriesJson(conversation), ",") + "]"
  }

  /** The serialised conversation quotes every entry's content, in a form
      that decodes back to that content. */
  lemma ConversationJsonQuotesEntries(conversation: seq<Entry>, k: nat)
    requires k < |conversation|
    ensures Contains(ConversationJson(conversation), Quote(conversation[k].content))
    ensures Unescape(Escape(conversation[k].content)) == Some(conversation[k].content)
  {
    var e := conversation[k];
    var parts := EntriesJson(conversation);
    ContainsSpliced("{\"role\":" + Quote(RoleName(e.role)) + ",\"content\":", Quote(e.content), "}");
    JoinContainsParts(parts, ",", k);
    ContainsInfix("[", Join(parts, ","), "]", parts[k]);
    ContainsTransitive(ConversationJson(conversation), parts[k], Quote(e.content));
    UnescapeEscape(e.content);
  }

  // ---------------------------------------------------------------------
  // The delivery record
  // ---------------------------------------------------------------------

  /** A field value of the record the model returns: a string or an integer. */
  datatype Scalar = Text(s: string) | Number(n: int)

  datatype Field = Field(key: string, value: Scalar)

  /** The delivery record, its fields in the object's key order. */
  type DeliveryData = seq<Field>

  /** `record[key]`: the value of the field named `key`, if there is one. */
  function FieldValue(d: DeliveryData, key: string): Option<Scalar> {
    if d == [] then None
    else if d[0].key == key then Some(d[0].value)
    else FieldValue(d[1..], key)
  }

  /** The value found is the value of a field with that key; there is none
      exactly when no field has the key. */
  lemma {:induction false} FieldValueSpec(d: DeliveryData, key: string)
    ensures FieldValue(d, key).None? <==> forall k :: 0 <= k < |d| ==> d[k].key != key
    ensures FieldValue(d, key).Some? ==> exists k :: 0 <= k < |d| && d[k].key == key && d[k].value == FieldValue(d, key).value
  {
    if d != [] && d[0].key != key {
      FieldValueSpec(d[1..], key);
      if FieldValue(d, key).Some? {
        var k :| 0 <= k < |d[1..]| && d[1..][k].key == key && d[1..][k].value == FieldValue(d, key).value;
        assert d[k + 1] == d[1..][k];
      }
      assert forall k :: 0 < k < |d| ==> d[k] == d[1..][k - 1];
    }
  }

  /** The keys of an object are distinct. */
  predicate DistinctKeys(d: DeliveryData) {
    forall i, j :: 0 <= i < j < |d| ==> d[i].key != d[j].key
  }

  /** The record used when the model still gives no JSON after three
      questions. */
  function DefaultRecord(): (d: DeliveryData)
    ensures |d| == 6
  {
    [ Field("startLocation", Text("unknown")),
      Field("endLocation", Text("unknown")),
      Field("numberOfPackages", Number(1)),
      Field("weightPerPackage", Text("1kg")),
      Field("volumePerPackage", Text("0.1m\U{00B3}")),
      Field("priorityLevel", Text("standard")) ]
  }

  /** The default record is an object (its keys are distinct) and its start
      and end are "unknown". */
  lemma DefaultRecordFields()
    ensures DistinctKeys(DefaultRecord())
    ensures FieldValue(DefaultRecord(), "startLocation") == Some(Text("unknown"))
    ensures FieldValue(DefaultRecord(), "endLocation") == Some(Text("unknown"))
  {
  }

  /** An integer as JavaScript prints it. */
  function IntToString(n: int): (r: string)
    ensures r != []
  {
    if n < 0 then "-" + NatToString(-n) else NatToString(n)
  }

  /** A printed integer is a minus sign exactly when it is negative,
      followed by digits that read back as its magnitude. */
  lemma IntToStringRoundTrip(n: int)
    ensures var r := IntToString(n);
      var digits := if n < 0 then r[1..] else r;
      && (r[0] == '-' <==> n < 0)
      && digits != [] && (forall k :: 0 <= k < |digits| ==> IsDigit(digits[k]))
      && DigitsValue(digits) == (if n < 0 then -n else n)
  {
    var m: nat := if n < 0 then -n else n;
    NatToStringRoundTrip(m);
    var r := IntToString(n);
    if n < 0 {
      assert r[1..] == NatToString(m);
    } else {
      assert IsDigit(r[0]);
    }
  }

  function ScalarJson(v: Scalar): string {
    match v
    case Text(s) => Quote(s)
    case Number(n) => IntToString(n)
  }

  function FieldLines(d: DeliveryData): seq<string> {
    seq(|d|, k requires 0 <= k < |d| => "  " + Quote(d[k].key) + ": " + ScalarJson(d[k].value))
  }

  /** `JSON.stringify(data, null, 2)`: one field per line, indented by two
      spaces; an empty object is `{}`. */
  function PrettyJson(d: DeliveryData): string {
    if d == [] then "{}" else "{\n" + Join(FieldLines(d), ",\n") + "\n}"
  }

  /** Each field of the record appears in its printed form on a line of its
      own. */
  lemma PrettyJsonShowsFields(d: DeliveryData, k: nat)
    requires k < |d|
    ensures Contains(PrettyJson(d), "  " + Quote(d[k].key) + ": " + ScalarJson(d[k].value))
  {
    JoinContainsParts(FieldLines(d), ",\n", k);
    ContainsInfix("{\n", Join(FieldLines(d), ",\n"), "\n}", FieldLines(d)[k]);
  }

  // ---------------------------------------------------------------------
  // Finding the JSON block: /\{[\s\S]*\}/
  // ---------------------------------------------------------------------

  /** A stretch `s[start..end]` of a string. */
  datatype Span = Span(start: nat, end: nat)

  function FirstIndexOf(s: string, c: char): (r: Option<nat>)
    ensures r.Some? ==> r.value < |s|
  {
    if s == [] then None
    else if s[0] == c then Some(0)
    else match FirstIndexOf(s[1..], c)
      case Some(k) => Some(k + 1)
      case None => None
  }

  /** The index found holds `c` and no earlier one does; without one, `c`
      does not occur. */
  lemma {:induction false} FirstIndexOfSpec(s: string, c: char)
    ensures var r := FirstIndexOf(s, c);
      && (r.Some? ==> s[r.value] == c && forall k :: 0 <= k < r.value ==> s[k] != c)
      && (r.None? ==> forall k :: 0 <= k < |s| ==> s[k] != c)
  {
    if s != [] && s[0] != c {
      FirstIndexOfSpec(s[1..], c);
      assert forall k :: 1 <= k < |s| ==> s[k] == s[1..][k - 1];
    }
  }

  function LastIndexOf(s: string, c: char): (r: Option<nat>)
    ensures r.Some? ==> r.value < |s|
  {
    if s == [] then None
    else if s[|s| - 1] == c then Some(|s| - 1)
    else LastIndexOf(s[..|s| - 1], c)
  }

  /** The index found holds `c` and no later one does; without one, `c`
      does not occur. */
  lemma {:induction false} LastIndexOfSpec(s: string, c: char)
    ensures var r := LastIndexOf(s, c);
      && (r.Some? ==> s[r.value] == c && forall k :: r.value < k < |s| ==> s[k] != c)
      && (r.None? ==> forall k :: 0 <= k < |s| ==> s[k] != c)
  {
    if s != [] && s[|s| - 1] != c {
      LastIndexOfSpec(s[..|s| - 1], c);
    }
  }

  /** The greedy match of `{` anything `}`: from the first `{` to the last
      `}` after it. */
  function BraceBlock(s: string): (r: Option<Span>)
    ensures r.Some? ==> r.value.start < r.value.end <= |s|
  {
    match (FirstIndexOf(s, '{'), LastIndexOf(s, '}'))
    case (Some(i), Some(j)) => if i < j then Some(Span(i, j + 1)) else None
    case _ => None
  }

  /** The block runs from the first `{` to the last `}`, and there is one
      exactly when some `{` comes before some `}`. */
  lemma BraceBlockSpec(s: string)
    ensures var r := BraceBlock(s);
      && (r.Some? ==> s[r.value.start] == '{' && s[r.value.end - 1] == '}')
      && (r.Some? ==> forall k :: 0 <= k < r.value.start ==> s[k] != '{')
      && (r.Some? ==> forall k :: r.value.end <= k < |s| ==> s[k] != '}')
      && (r.None? <==> forall i, j :: 0 <= i < j < |s| && s[i] == '{' ==> s[j] != '}')
  {
    FirstIndexOfSpec(s, '{');
    LastIndexOfSpec(s, '}');
  }

  /** The block occurs in the reply only where it was found, so splitting
      the reply on it leaves exactly two pieces and the second one is the
      text after the block. */
  lemma BlockOccursOnce(s: string, i: int)
    requires BraceBlock(s).Some?
    requires OccursAt(s, s[BraceBlock(s).value.start..BraceBlock(s).value.end], i)
    ensures i == BraceBlock(s).value.start
  {
    var sp := BraceBlock(s).value;
    var block := s[sp.start..sp.end];
    BraceBlockSpec(s);
    assert s[i..i + |block|][0] == s[i] && block[0] == s[sp.start];
    assert s[i..i + |block|][|block| - 1] == s[i + |block| - 1] && block[|block| - 1] == s[sp.end - 1];
  }

  // ---------------------------------------------------------------------
  // The reply texts
  // ---------------------------------------------------------------------

  /** `text.replace(/^AI: /, "")`. */
  function StripAiPrefix(t: string): string {
    if |t| >= 4 && t[..4] == "AI: " then t[4..] else t
  }

  const CheckMark: char := '\U{2705}'
  const RouteClosing := "via the most optimal route."

  /** The characters `.` does not match in a JavaScript regular expression. */
  predicate IsLineTerminator(c: char) {
    c == '\n' || c == '\r' || c == '\U{2028}' || c == '\U{2029}'
  }

  /** Where the line through position `i` ends. */
  function LineEnd(s: string, i: nat): (r: nat)
    requires i <= |s|
    ensures i <= r <= |s|
    decreases |s| - i
  {
    if i == |s| || IsLineTerminator(s[i]) then i else LineEnd(s, i + 1)
  }

  /** The line end is the first line terminator from `i` on, or the end of
      the string. */
  lemma {:induction false} LineEndSpec(s: string, i: nat)
    requires i <= |s|
    ensures forall k :: i <= k < LineEnd(s, i) ==> !IsLineTerminator(s[k])
    ensures LineEnd(s, i) == |s| || IsLineTerminator(s[LineEnd(s, i)])
    decreases |s| - i
  {
    if i < |s| && !IsLineTerminator(s[i]) {
      LineEndSpec(s, i + 1);
    }
  }

  /** The last place in `s[lo..hi]` where `closing` starts. */
  function LastClosingIn(s: string, closing: string, lo: nat, hi: nat): (r: Option<nat>)
    requires lo <= hi <= |s|
    ensures r.Some? ==> lo <= r.value && r.value + |closing| <= hi
    decreases hi - lo
  {
    if hi - lo < |closing| then None
    else if OccursAt(s, closing, hi - |closing|) then Some(hi - |closing|)
    else LastClosingIn(s, closing, lo, hi - 1)
  }

  /** The place found is an occurrence of `closing`. */
  lemma {:induction false} LastClosingInOccurs(s: string, closing: string, lo: nat, hi: nat)
    requires lo <= hi <= |s| && LastClosingIn(s, closing, lo, hi).Some?
    ensures OccursAt(s, closing, LastClosingIn(s, closing, lo, hi).value)
    decreases hi - lo
  {
    if !OccursAt(s, closing, hi - |closing|) {
      LastClosingInOccurs(s, closing, lo, hi - 1);
    }
  }

  /** The place found is an occurrence, and no later one fits before `hi`;
      when none is found, none fits in `s[lo..hi]`. */
  lemma {:induction false} LastClosingInSpec(s: string, closing: string, lo: nat, hi: nat)
    requires lo <= hi <= |s|
    ensures var r := LastClosingIn(s, closing, lo, hi);
      && (r.Some? ==> OccursAt(s, closing, r.value))
      && (r.Some? ==> forall j :: r.value < j && j + |closing| <= hi ==> !OccursAt(s, closing, j))
      && (r.None? ==> forall j :: lo <= j && j + |closing| <= hi ==> !OccursAt(s, closing, j))
    decreases hi - lo
  {
    if hi - lo >= |closing| && !OccursAt(s, closing, hi - |closing|) {
      LastClosingInSpec(s, closing, lo, hi - 1);
    }
  }

  /** A check mark at `k` that `closing` follows on the same line. */
  ghost predicate SuccessCanStartAt(s: string, closing: string, k: nat)
    requires k < |s|
  {
    && s[k] == CheckMark
    && exists j :: k + 1 <= j && j + |closing| <= LineEnd(s, k + 1) && OccursAt(s, closing, j)
  }

  /** The match of `/✅.*<closing>/` in `s` from `i` on: the first check mark
      that `closing` follows on its line, up to the last occurrence of
      `closing` on that line (`.*` is greedy and stops at line ends). */
  function SuccessMatchFrom(s: string, closing: string, i: nat): (r: Option<Span>)
    requires i <= |s|
    ensures r.Some? ==> i <= r.value.start && r.value.start + |closing| < r.value.end <= |s|
    ensures r.Some? ==> r.value.end <= LineEnd(s, r.value.start + 1)
    decreases |s| - i
  {
    if i == |s| then None
    else
      var last := LastClosingIn(s, closing, i + 1, LineEnd(s, i + 1));
      if s[i] == CheckMark && last.Some? then
        Some(Span(i, last.value + |closing|))
      else
        SuccessMatchFrom(s, closing, i + 1)
  }

  /** A match starts with a check mark and ends with `closing`. */
  lemma {:induction false} SuccessMatchEnds(s: string, closing: string, i: nat, m: Span)
    requires i <= |s| && SuccessMatchFrom(s, closing, i) == Some(m)
    ensures s[m.start] == CheckMark && OccursAt(s, closing, m.end - |closing|)
    decreases |s| - i
  {
    var last := LastClosingIn(s, closing, i + 1, LineEnd(s, i + 1));
    if s[i] == CheckMark && last.Some? {
      LastClosingInOccurs(s, closing, i + 1, LineEnd(s, i + 1));
    } else {
      SuccessMatchEnds(s, closing, i + 1, m);
    }
  }

  /** A match can start at `i` exactly when `i` holds a check mark and the
      rest of its line holds `closing`. */
  lemma CanStartIffClosingOnLine(s: string, closing: string, i: nat)
    requires i < |s|
    ensures SuccessCanStartAt(s, closing, i) <==>
      s[i] == CheckMark && LastClosingIn(s, closing, i + 1, LineEnd(s, i + 1)).Some?
  {
    var last := LastClosingIn(s, closing, i + 1, LineEnd(s, i + 1));
    LastClosingInSpec(s, closing, i + 1, LineEnd(s, i + 1));
    if last.Some? {
      assert OccursAt(s, closing, last.value);
    }
  }

  /** The match starts at a place a match can start. */
  lemma {:induction false} SuccessMatchCanStart(s: string, closing: string, i: nat)
    requires i <= |s| && SuccessMatchFrom(s, closing, i).Some?
    ensures SuccessCanStartAt(s, closing, SuccessMatchFrom(s, closing, i).value.start)
    decreases |s| - i
  {
    CanStartIffClosingOnLine(s, closing, i);
    if SuccessMatchFrom(s, closing, i).value.start != i {
      SuccessMatchCanStart(s, closing, i + 1);
    }
  }

  /** No match can start before the match: it is the leftmost one. */
  lemma {:induction false} SuccessMatchIsLeftmost(s: string, closing: string, i: nat, k: nat)
    requires i <= k < |s| && SuccessMatchFrom(s, closing, i).Some?
    requires k < SuccessMatchFrom(s, closing, i).value.start
    ensures !SuccessCanStartAt(s, closing, k)
    decreases |s| - i
  {
    CanStartIffClosingOnLine(s, closing, i);
    if k != i {
      SuccessMatchIsLeftmost(s, closing, i + 1, k);
    }
  }

  /** Wherever a match can start, the search finds one. */
  lemma {:induction false} SuccessMatchFound(s: string, closing: string, i: nat, k: nat)
    requires i <= k < |s| && SuccessCanStartAt(s, closing, k)
    ensures SuccessMatchFrom(s, closing, i).Some?
    decreases |s| - i
  {
    CanStartIffClosingOnLine(s, closing, i);
    if k != i {
      SuccessMatchFound(s, closing, i + 1, k);
    }
  }

  /** The text `/✅.*<closing>/` matches in `s`, or "" when it does not
      match. */
  function MatchedLine(s: string, closing: string): string {
    match SuccessMatchFrom(s, closing, 0)
    case None => ""
    case Some(sp) => s[sp.start..sp.end]
  }

  /** A single line that starts with the check mark and ends with
      `closing`. */
  predicate IsClosingLine(r: string, closing: string) {
    && |r| > |closing| && r[0] == CheckMark
    && OccursAt(r, closing, |r| - |closing|)
    && forall k :: 0 <= k < |r| ==> !IsLineTerminator(r[k])
  }

  /** A matched line starts with the check mark, ends with `closing` and
      stays on one line. */
  lemma MatchedLineShape(s: string, closing: string)
    ensures MatchedLine(s, closing) != [] ==> IsClosingLine(MatchedLine(s, closing), closing)
  {
    match SuccessMatchFrom(s, closing, 0)
    case None =>
    case Some(sp) =>
      var r := s[sp.start..sp.end];
      assert MatchedLine(s, closing) == r;
      SuccessMatchEnds(s, closing, 0, sp);
      assert r[0] == CheckMark;
      OccursInSlice(s, closing, sp.start, sp.end, sp.end - |closing|);
      LineEndSpec(s, sp.start + 1);
      forall k | 0 <= k < |r| ensures !IsLineTerminator(r[k]) {
        assert r[k] == s[sp.start + k];
      }
  }

  /** A reply with no success line has no check mark that `closing`
      follows on its line. */
  lemma NoMatchedLineNoStart(s: string, closing: string, k: nat)
    requires MatchedLine(s, closing) == [] && k < |s|
    ensures !SuccessCanStartAt(s, closing, k)
  {
    if SuccessCanStartAt(s, closing, k) {
      SuccessMatchFound(s, closing, 0, k);
    }
  }

  /** `text.match(/✅.*via the most optimal route\./)?.[0] || ""`. */
  function SuccessLine(s: string): string {
    MatchedLine(s, RouteClosing)
  }

  // ---------------------------------------------------------------------
  // Field labels: key.replace(/([A-Z])/g, " $1").trim()
  // ---------------------------------------------------------------------

  predicate IsUpper(c: char) {
    'A' <= c <= 'Z'
  }

  /** A space before every capital letter. The result never starts with a
      capital, and it ends with the key's last character. */
  function SpaceBeforeCapitals(s: string): (r: string)
    ensures r == [] <==> s == []
    ensures r != [] ==> !IsUpper(r[0]) && r[|r| - 1] == s[|s| - 1]
    ensures s != [] && !IsUpper(s[0]) ==> r[0] == s[0]
  {
    if s == [] then []
    else (if IsUpper(s[0]) then [' ', s[0]] else [s[0]]) + SpaceBeforeCapitals(s[1..])
  }

  /** The inverse edit: drop each space that stands right before a
      capital. */
  function Unlabel(t: string): string
    decreases |t|
  {
    if t == [] then []
    else if |t| >= 2 && t[0] == ' ' && IsUpper(t[1]) then [t[1]] + Unlabel(t[2..])
    else [t[0]] + Unlabel(t[1..])
  }

  /** The spaces are only inserted: removing them gives the key back. */
  lemma {:induction false} UnlabelSpaceBeforeCapitals(s: string)
    ensures Unlabel(SpaceBeforeCapitals(s)) == s
  {
    if s != [] {
      var rest := SpaceBeforeCapitals(s[1..]);
      UnlabelSpaceBeforeCapitals(s[1..]);
      if IsUpper(s[0]) {
        assert SpaceBeforeCapitals(s) == [' ', s[0]] + rest;
        assert ([' ', s[0]] + rest)[2..] == rest;
      } else {
        assert SpaceBeforeCapitals(s) == [s[0]] + rest;
        assert ([s[0]] + rest)[1..] == rest;
      }
      assert [s[0]] + s[1..] == s;
    }
  }

  /** The label of a field in the delivery table. */
  function FieldLabel(key: string): string {
    Trim(SpaceBeforeCapitals(key))
  }

  /** For a camelCase key (starting with a lower-case letter, no whitespace
      at either end) trimming removes nothing, so the label is the key with
      the spaces inserted, and the key can be read back from it. */
  lemma CamelCaseLabel(key: string)
    requires key != [] && !IsUpper(key[0])
    requires !IsWhitespace(key[0]) && !IsWhitespace(key[|key| - 1])
    ensures FieldLabel(key) == SpaceBeforeCapitals(key)
    ensures Unlabel(FieldLabel(key)) == key
  {
    TrimKeepsTrimmed(SpaceBeforeCapitals(key));
    UnlabelSpaceBeforeCapitals(key);
  }

  /** Inserting spaces works piece by piece. */
  lemma {:induction false} SpaceBeforeCapitalsAppend(a: string, b: string)
    ensures SpaceBeforeCapitals(a + b) == SpaceBeforeCapitals(a) + SpaceBeforeCapitals(b)
  {
    if a != [] {
      assert (a + b)[1..] == a[1..] + b;
      SpaceBeforeCapitalsAppend(a[1..], b);
    } else {
      assert a + b == b;
    }
  }

  predicate NoCapitals(w: string) {
    forall k :: 0 <= k < |w| ==> !IsUpper(w[k])
  }

  /** A word without capitals gets no spaces. */
  lemma {:induction false} NoCapitalsNoSpaces(w: string)
    requires NoCapitals(w)
    ensures SpaceBeforeCapitals(w) == w
  {
    if w != [] {
      NoCapitalsNoSpaces(w[1..]);
      assert [w[0]] + w[1..] == w;
    }
  }

  /** A capitalised word gets one space, in front. */
  lemma CapitalisedWordSpaced(c: char, w: string)
    requires IsUpper(c) && NoCapitals(w)
    ensures SpaceBeforeCapitals([c] + w) == [' ', c] + w
  {
    assert ([c] + w)[1..] == w;
    NoCapitalsNoSpaces(w);
  }

  /** Past a word without capitals, the next capital gets its space. */
  lemma SpaceAfterWord(word: string, c: char, rest: string)
    requires NoCapitals(word) && IsUpper(c)
    ensures SpaceBeforeCapitals(word + ([c] + rest)) == word + ([' ', c] + SpaceBeforeCapitals(rest))
  {
    SpaceBeforeCapitalsAppend(word, [c] + rest);
    NoCapitalsNoSpaces(word);
    assert ([c] + rest)[1..] == rest;
  }

  /** Three camelCase words get a space before the second and the third. */
  lemma ThreeWordSpacing(first: string, c1: char, second: string, c2: char, third: string)
    requires NoCapitals(first) && IsUpper(c1) && NoCapitals(second) && IsUpper(c2) && NoCapitals(third)
    ensures SpaceBeforeCapitals(first + ([c1] + (second + ([c2] + third))))
         == first + ([' ', c1] + (second + ([' ', c2] + third)))
  {
    SpaceAfterWord(second, c2, third);
    NoCapitalsNoSpaces(third);
    SpaceAfterWord(first, c1, second + ([c2] + third));
  }

  /** A key of three camelCase words is labelled with the words spaced
      apart. */
  lemma ThreeWordLabel(first: string, c1: char, second: string, c2: char, third: string)
    requires first != [] && NoCapitals(first) && !IsWhitespace(first[0])
    requires IsUpper(c1) && NoCapitals(second) && IsUpper(c2) && NoCapitals(third)
    requires third != [] && !IsWhitespace(third[|third| - 1])
    ensures FieldLabel(first + [c1] + second + [c2] + third)
         == first + [' ', c1] + second + [' ', c2] + third
  {
    var key := first + [c1] + second + [c2] + third;
    assert key == first + ([c1] + (second + ([c2] + third)));
    ThreeWordSpacing(first, c1, second, c2, third);
    assert first + ([' ', c1] + (second + ([' ', c2] + third)))
        == first + [' ', c1] + second + [' ', c2] + third;
    assert key[0] == first[0] && key[|key| - 1] == third[|third| - 1];
    CamelCaseLabel(key);
  }

  /** How React prints a field value in the table. */
  function ScalarText(v: Scalar): string {
    match v
    case Text(s) => s
    case Number(n) => IntToString(n)
  }

  /** The rows of the delivery table: one per field, in the record's order,
      labelled from the key. */
  function DeliveryTable(d: DeliveryData): (rows: seq<(string, string)>)
    ensures |rows| == |d|
  {
    seq(|d|, k requires 0 <= k < |d| => (FieldLabel(d[k].key), ScalarText(d[k].value)))
  }

  /** A key the label edit can be undone for: camelCase, with no whitespace
      at either end. */
  predicate IsCamelCaseKey(key: string) {
    key != [] && !IsUpper(key[0]) && !IsWhitespace(key[0]) && !IsWhitespace(key[|key| - 1])
  }

  /** The label of a camelCase field's row gives its key back, and the row
      shows the field's value. */
  lemma DeliveryTableRowReadsBack(d: DeliveryData, k: nat)
    requires k < |d| && IsCamelCaseKey(d[k].key)
    ensures Unlabel(DeliveryTable(d)[k].0) == d[k].key
    ensures DeliveryTable(d)[k].1 == ScalarText(d[k].value)
  {
    CamelCaseLabel(d[k].key);
  }

  /** Two camelCase fields with different keys never share a label. */
  lemma DeliveryTableLabelsDistinct(d: DeliveryData, i: nat, j: nat)
    requires i < |d| && j < |d| && d[i].key != d[j].key
    requires IsCamelCaseKey(d[i].key) && IsCamelCaseKey(d[j].key)
    ensures DeliveryTable(d)[i].0 != DeliveryTable(d)[j].0
  {
    DeliveryTableRowReadsBack(d, i);
    DeliveryTableRowReadsBack(d, j);
  }
}
