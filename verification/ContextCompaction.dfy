/**
 In-place compaction of a coding agent's conversation. It goes through the old
 messages in order and cuts what is long, a result or the arguments of a call. A
 running byte count follows each cut by the difference of the two strings alone.

 A message keeps the serialized text around its content and its tool calls as
 it is: roles, call identifiers and every other field are part of that text.
 */
module ContextCompaction {
  import opened Prelude
  import opened JsonText

  const COMPACT_TRIGGER_BYTES: nat := 160_000
  const COMPACT_TARGET_BYTES: nat := 120_000
  const COMPACT_MIN_CHARS: nat := 600
  const COMPACT_HEAD_CHARS: nat := 200

  datatype Role = System | User | Assistant | Tool

  /** The arguments are a JSON string between the texts before and after it. */
  datatype ToolCall = ToolCall(before: Text, arguments: Text, after: Text)

  datatype Message = Message(
    role: Role, before: Text, content: Option<Text>, between: Text, toolCalls: Option<seq<ToolCall>>, after: Text)

  // ----- The serialized conversation -----

  function Ascii(s: string): Text {
    seq(|s|, i requires 0 <= i < |s| => if s[i] as int < 0x80 then s[i] as int else 0x3F)
  }

  /** Texts separated by commas. */
  function Join(texts: seq<Text>): Text {
    if texts == [] then []
    else if |texts| == 1 then texts[0]
    else texts[0] + [0x2C] + Join(texts[1..])
  }

  function CallText(call: ToolCall): Text {
    call.before + Quote(call.arguments) + call.after
  }

  function CallTexts(calls: seq<ToolCall>): seq<Text> {
    seq(|calls|, i requires 0 <= i < |calls| => CallText(calls[i]))
  }

  function CallsText(calls: Option<seq<ToolCall>>): Text {
    if calls.None? then [] else Ascii(",\"tool_calls\":[") + Join(CallTexts(calls.value)) + [0x5D]
  }

  function ContentText(content: Option<Text>): Text {
    if content.None? then Ascii("null") else Quote(content.value)
  }

  function MessageText(m: Message): Text {
    m.before + ContentText(m.content) + m.between + CallsText(m.toolCalls) + m.after
  }

  function MessageTexts(ms: seq<Message>): seq<Text> {
    seq(|ms|, i requires 0 <= i < |ms| => MessageText(ms[i]))
  }

  function ConversationText(ms: seq<Message>): Text {
    [0x5B] + Join(MessageTexts(ms)) + [0x5D]
  }

  /** The true size of the conversation: the bytes of its serialized form. */
  function Bytes(ms: seq<Message>): nat {
    Utf8Bytes(ConversationText(ms))
  }

  // ----- A string inside the conversation -----

  /** Replacing one text leaves everything around it. */
  lemma {:induction false} JoinAround(texts: seq<Text>, i: nat, t: Text) returns (p: Text, s: Text)
    requires i < |texts|
    ensures Join(texts) == p + texts[i] + s && Join(texts[i := t]) == p + t + s
  {
    if i == 0 {
      p, s := [], if |texts| == 1 then [] else [0x2C] + Join(texts[1..]);
      assert texts[0 := t][1..] == texts[1..];
    } else {
      var q;
      q, s := JoinAround(texts[1..], i - 1, t);
      p := texts[0] + [0x2C] + q;
      assert texts[i := t][1..] == texts[1..][i - 1 := t];
      assert Join(texts) == texts[0] + [0x2C] + (q + texts[i] + s);
      assert Join(texts[i := t]) == texts[0] + [0x2C] + (q + t + s);
    }
  }

  lemma MessageAround(ms: seq<Message>, i: nat, m: Message) returns (p: Text, s: Text)
    requires i < |ms|
    ensures ConversationText(ms) == p + MessageText(ms[i]) + s && ConversationText(ms[i := m]) == p + MessageText(m) + s
  {
    hide MessageText, Join;
    var q, r := JoinAround(MessageTexts(ms), i, MessageText(m));
    assert MessageTexts(ms[i := m]) == MessageTexts(ms)[i := MessageText(m)];
    p, s := [0x5B] + q, r + [0x5D];
    assert [0x5B] + (q + MessageText(ms[i]) + r) + [0x5D] == p + MessageText(ms[i]) + s;
    assert [0x5B] + (q + MessageText(m) + r) + [0x5D] == p + MessageText(m) + s;
  }

  /** The size changes by exactly what the replaced content does. */
  lemma ContentCounts(ms: seq<Message>, i: nat, content: Text)
    requires i < |ms| && ms[i].content.Some?
    ensures Bytes(ms[i := ms[i].(content := Some(content))])
      == Bytes(ms) - Utf8Bytes(Quote(ms[i].content.value)) + Utf8Bytes(Quote(content))
  {
    hide Quote, Join, CallsText;
    var m := ms[i];
    var m' := m.(content := Some(content));
    var p, s := MessageAround(ms, i, m');
    var tail := m.between + CallsText(m.toolCalls) + m.after;
    assert MessageText(m) == m.before + Quote(m.content.value) + tail;
    assert MessageText(m') == m.before + Quote(content) + tail;
    assert ConversationText(ms) == (p + m.before) + Quote(m.content.value) + (tail + s);
    assert ConversationText(ms[i := m']) == (p + m.before) + Quote(content) + (tail + s);
    QuotedCountsAlone(p + m.before, m.content.value, tail + s);
    QuotedCountsAlone(p + m.before, content, tail + s);
  }

  /** The calls with new arguments in one place. */
  function WithArguments(m: Message, j: nat, arguments: Text): Message
    requires m.toolCalls.Some? && j < |m.toolCalls.value|
  {
    m.(toolCalls := Some(m.toolCalls.value[j := m.toolCalls.value[j].(arguments := arguments)]))
  }

  lemma SameArguments(m: Message, j: nat)
    requires m.toolCalls.Some? && j < |m.toolCalls.value|
    ensures WithArguments(m, j, m.toolCalls.value[j].arguments) == m
  {
    assert m.toolCalls.value[j := m.toolCalls.value[j]] == m.toolCalls.value;
  }

  lemma CallsAround(calls: seq<ToolCall>, j: nat, arguments: Text) returns (p: Text, s: Text)
    requires j < |calls|
    ensures CallsText(Some(calls)) == p + Quote(calls[j].arguments) + s
    ensures CallsText(Some(calls[j := calls[j].(arguments := arguments)])) == p + Quote(arguments) + s
  {
    hide Quote, Join, Ascii;
    var open := Ascii(",\"tool_calls\":[");
    var call, call' := calls[j], calls[j].(arguments := arguments);
    var q, r := JoinAround(CallTexts(calls), j, CallText(call'));
    assert CallTexts(calls[j := call']) == CallTexts(calls)[j := CallText(call')];
    p, s := open + q + call.before, call.after + r + [0x5D];
    assert open + (q + CallText(call) + r) + [0x5D] == p + Quote(call.arguments) + s;
    assert open + (q + CallText(call') + r) + [0x5D] == p + Quote(arguments) + s;
  }

  /** The size changes by exactly what the replaced arguments do. */
  lemma ArgumentsCount(ms: seq<Message>, i: nat, j: nat, arguments: Text)
    requires i < |ms| && ms[i].toolCalls.Some? && j < |ms[i].toolCalls.value|
    ensures Bytes(ms[i := WithArguments(ms[i], j, arguments)])
      == Bytes(ms) - Utf8Bytes(Quote(ms[i].toolCalls.value[j].arguments)) + Utf8Bytes(Quote(arguments))
  {
    hide Quote, Join, CallsText, ContentText;
    var m := ms[i];
    var previous := m.toolCalls.value[j].arguments;
    var m' := WithArguments(m, j, arguments);
    var p, s := MessageAround(ms, i, m');
    var q, r := CallsAround(m.toolCalls.value, j, arguments);
    var front := p + (m.before + ContentText(m.content) + m.between) + q;
    var tail := r + m.after + s;
    assert ConversationText(ms) == front + Quote(previous) + tail;
    assert ConversationText(ms[i := m']) == front + Quote(arguments) + tail;
    QuotedCountsAlone(front, previous, tail);
    QuotedCountsAlone(front, arguments, tail);
  }

  // ----- Shortening one entry -----

  function Digits(n: nat): Text {
    if n < 10 then [0x30 + n] else Digits(n / 10) + [0x30 + n % 10]
  }

  const CONTENT_NOTE := "Older output removed to save context; run the tool again to see it"

  function ShortContent(content: Text): Text {
    Ascii("{\"truncated\":true,\"note\":\"") + Ascii(CONTENT_NOTE) + Ascii("\",\"text\":")
    + Quote(if |content| < COMPACT_HEAD_CHARS then content else content[..COMPACT_HEAD_CHARS]) + [0x7D]
  }

  /** `path` is the path that the parsed arguments name, if they parse and name one. */
  function ShortArguments(arguments: Text, path: Option<Text>): Text {
    [0x7B] + (if path.Some? then Ascii("\"path\":") + Quote(path.value) + [0x2C] else [])
    + Ascii("\"omitted_chars\":") + Digits(|arguments|)
    + Ascii(",\"note\":\"Older arguments removed to save context\"}")
  }

  /** A replacement is used only when its serialized form is shorter. */
  function IfShorter(was: Text, short: Text): Text {
    if Utf8Bytes(Quote(short)) < Utf8Bytes(Quote(was)) then short else was
  }

  function ShortenedContent(m: Message): Option<Text> {
    if m.role == Tool && m.content.Some? && |m.content.value| > COMPACT_MIN_CHARS
    then Some(IfShorter(m.content.value, ShortContent(m.content.value))) else m.content
  }

  function ShortenedCall(call: ToolCall, pathOf: Text -> Option<Text>): ToolCall {
    if |call.arguments| <= COMPACT_MIN_CHARS then call
    else call.(arguments := IfShorter(call.arguments, ShortArguments(call.arguments, pathOf(call.arguments))))
  }

  function ShortenedCalls(calls: seq<ToolCall>, n: nat, pathOf: Text -> Option<Text>): seq<ToolCall>
    requires n <= |calls|
  {
    seq(|calls|, j requires 0 <= j < |calls| => if j < n then ShortenedCall(calls[j], pathOf) else calls[j])
  }

  /** The message after the content and the first `n` tool calls have been looked at. */
  function ShortenedUpTo(m: Message, n: nat, pathOf: Text -> Option<Text>): Message
    requires m.toolCalls.Some? ==> n <= |m.toolCalls.value|
  {
    m.(content := ShortenedContent(m),
       toolCalls := if m.toolCalls.None? then None else Some(ShortenedCalls(m.toolCalls.value, n, pathOf)))
  }

  function Shortened(m: Message, pathOf: Text -> Option<Text>): Message {
    ShortenedUpTo(m, if m.toolCalls.None? then 0 else |m.toolCalls.value|, pathOf)
  }

  /** The conversation with the messages from `first` up to `k` looked at. */
  function Partly(ms: seq<Message>, first: nat, k: nat, pathOf: Text -> Option<Text>): seq<Message> {
    seq(|ms|, i requires 0 <= i < |ms| => if first <= i < k then Shortened(ms[i], pathOf) else ms[i])
  }

  predicate IsTurn(m: Message) {
    m.role == Assistant && m.toolCalls.Some?
  }

  /** The newest assistant message with tool calls after the first two messages; failing that, index 1 or the end. */
  predicate IsLatest(ms: seq<Message>, latest: int) {
    && -1 <= latest < |ms| && (latest < |ms| - 1 ==> latest >= 1)
    && (forall i :: latest < i < |ms| ==> !IsTurn(ms[i]))
    && (latest > 1 ==> IsTurn(ms[latest]))
  }

  function Max(a: nat, b: nat): nat {
    if a > b then a else b
  }

  /**
   What compaction from `start` does: it looks at messages in order, stops before
   the latest turn, and stops as soon as the size is within the target.
   */
  predicate Compacts(ms: seq<Message>, start: nat, latest: int, ms': seq<Message>, next: nat, pathOf: Text -> Option<Text>) {
    var first := Max(start, 2);
    && first <= next && ms' == Partly(ms, first, next, pathOf)
    && (next >= latest || Bytes(ms') <= COMPACT_TARGET_BYTES)
    && (forall k: nat :: first <= k < next ==> k < latest && Bytes(Partly(ms, first, k, pathOf)) > COMPACT_TARGET_BYTES)
  }

  function Changed(ms: seq<Message>, first: nat, k: nat, pathOf: Text -> Option<Text>): nat
    decreases k
  {
    if k <= first || k == 0 then 0
    else Changed(ms, first, k - 1, pathOf) + (if k - 1 < |ms| && Shortened(ms[k - 1], pathOf) != ms[k - 1] then 1 else 0)
  }

  /** The places where the two conversations differ. */
  function Differences(a: seq<Message>, b: seq<Message>): set<int>
    requires |a| == |b|
  {
    set i | 0 <= i < |a| && a[i] != b[i]
  }

  /** One more difference, or none. */
  lemma OneMoreDifference(was: seq<Message>, before: seq<Message>, now: seq<Message>, k: nat)
    requires |before| == |now| == |was| && k < |was| && before[k] == was[k] && now == before[k := now[k]]
    ensures |Differences(now, was)| == |Differences(before, was)| + (if now[k] != was[k] then 1 else 0)
  {
    if now[k] != was[k] {
      assert Differences(now, was) == Differences(before, was) + {k};
    } else {
      assert now == before;
    }
  }

  lemma {:induction false} ChangedCounts(ms: seq<Message>, first: nat, k: nat, pathOf: Text -> Option<Text>)
    ensures Changed(ms, first, k, pathOf) == |Differences(Partly(ms, first, k, pathOf), ms)|
    decreases k
  {
    hide Shortened, Differences;
    var now := Partly(ms, first, k, pathOf);
    if k <= first {
      assert now == ms;
      NoDifference(ms);
    } else {
      ChangedCounts(ms, first, k - 1, pathOf);
      var before := Partly(ms, first, k - 1, pathOf);
      if k - 1 < |ms| {
        assert now == before[k - 1 := now[k - 1]];
        OneMoreDifference(ms, before, now, k - 1);
      } else {
        assert now == before;
      }
    }
  }

  lemma NoDifference(ms: seq<Message>)
    ensures |Differences(ms, ms)| == 0
  {
    assert Differences(ms, ms) == {};
  }

  lemma PartlyStep(ms: seq<Message>, first: nat, k: nat, pathOf: Text -> Option<Text>)
    requires first <= k < |ms|
    ensures Partly(ms, first, k + 1, pathOf) == Partly(ms, first, k, pathOf)[k := Shortened(ms[k], pathOf)]
    ensures Partly(ms, first, first, pathOf) == ms
  {
  }

  lemma ShortenedStep(m: Message, n: nat, pathOf: Text -> Option<Text>)
    requires m.toolCalls.Some? && n < |m.toolCalls.value|
    ensures ShortenedUpTo(m, n + 1, pathOf) ==
      WithArguments(ShortenedUpTo(m, n, pathOf), n, ShortenedCall(m.toolCalls.value[n], pathOf).arguments)
    ensures ShortenedUpTo(m, n, pathOf).toolCalls.value[n] == m.toolCalls.value[n]
  {
    assert ShortenedCalls(m.toolCalls.value, n + 1, pathOf) ==
      ShortenedCalls(m.toolCalls.value, n, pathOf)[n := ShortenedCall(m.toolCalls.value[n], pathOf)];
  }

  lemma ShortenedStart(m: Message, pathOf: Text -> Option<Text>)
    ensures ShortenedUpTo(m, 0, pathOf) == m.(content := ShortenedContent(m))
  {
    if m.toolCalls.Some? {
      assert ShortenedCalls(m.toolCalls.value, 0, pathOf) == m.toolCalls.value;
    }
  }

  method FindLatest(messages: array<Message>) returns (latest: int)
    ensures IsLatest(messages[..], latest)
    ensures forall i :: 1 < i < messages.Length && i > latest ==> !(messages[i].role == Assistant && messages[i].toolCalls.Some?)
    ensures 1 < latest ==> latest < messages.Length && messages[latest].role == Assistant && messages[latest].toolCalls.Some?
    ensures latest <= 1 ==> latest == if messages.Length < 2 then messages.Length - 1 else 1
  {
    latest := messages.Length - 1;
    while latest > 1 && !(messages[latest].role == Assistant && messages[latest].toolCalls.Some?)
      invariant -1 <= latest < messages.Length && (latest < messages.Length - 1 ==> latest >= 1)
      invariant forall i :: latest < i < messages.Length ==> !IsTurn(messages[i])
    {
      latest := latest - 1;
    }
  }

  /** Looks at one message: its content, then its tool calls in order; the size follows every change. */
  method ShortenMessage(messages: array<Message>, index: nat, size: int, pathOf: Text -> Option<Text>) returns (after: int)
    requires index < messages.Length && size == Bytes(messages[..])
    modifies messages
    ensures messages[..] == old(messages[..])[index := Shortened(old(messages[index]), pathOf)]
    ensures after == Bytes(messages[..]) && after <= size
    ensures after < size <==> messages[index] != old(messages[index])
  {
    hide Bytes, Utf8Bytes, Quote, ShortContent, ShortArguments, Compacts, IsLatest;
    ghost var was := messages[..];
    var m := messages[index];
    after := size;
    if m.role == Tool && m.content.Some? && |m.content.value| > COMPACT_MIN_CHARS {
      var content := ShortContent(m.content.value);
      var change: int := Utf8Bytes(Quote(content)) - Utf8Bytes(Quote(m.content.value)) as int;
      if change < 0 {
        ContentCounts(was, index, content);
        messages[index] := messages[index].(content := Some(content));
        assert messages[..] == was[index := was[index].(content := Some(content))];
        after := after + change;
      }
    }
    ShortenedStart(m, pathOf);
    if messages[index].toolCalls.Some? {
      var n := |messages[index].toolCalls.value|;
      for j := 0 to n
        invariant m.toolCalls.Some? && n == |m.toolCalls.value|
        invariant messages[..] == was[index := ShortenedUpTo(m, j, pathOf)]
        invariant after == Bytes(messages[..]) && after <= size
        invariant after < size <==> messages[index] != m
      {
        after := ShortenOneCall(messages, index, j, m, after, pathOf);
      }
    }
  }

  /** Looks at the next tool call of a message whose content and earlier calls have been looked at. */
  method ShortenOneCall(messages: array<Message>, index: nat, j: nat, ghost m: Message, size: int, pathOf: Text -> Option<Text>)
    returns (after: int)
    requires index < messages.Length && size == Bytes(messages[..])
    requires m.toolCalls.Some? && j < |m.toolCalls.value| && messages[index] == ShortenedUpTo(m, j, pathOf)
    modifies messages
    ensures messages[..] == old(messages[..])[index := ShortenedUpTo(m, j + 1, pathOf)]
    ensures after == Bytes(messages[..]) && after <= size
    ensures after == size <==> messages[index] == old(messages[index])
    ensures messages[index] == m ==> old(messages[index]) == m
  {
    hide Bytes, Utf8Bytes, Quote, ShortContent, ShortArguments, ShortenedContent;
    ghost var was := messages[..];
    after := size;
    ShortenedStep(m, j, pathOf);
    var call := messages[index].toolCalls.value[j];
    SameArguments(messages[index], j);
    if |call.arguments| > COMPACT_MIN_CHARS {
      var arguments := ShortArguments(call.arguments, pathOf(call.arguments));
      var change: int := Utf8Bytes(Quote(arguments)) - Utf8Bytes(Quote(call.arguments)) as int;
      if change < 0 {
        ArgumentsCount(was, index, j, arguments);
        messages[index] := WithArguments(messages[index], j, arguments);
        after := after + change;
        assert messages[index].toolCalls.value[j] != call;
      }
    }
  }

  /**
   Shortens older turns from message `start` on. The running size is the true
   size of the result; the result, where the pass stopped and how many messages
   it shortened are exactly those of the specification.
   */
  method CompactContext(messages: array<Message>, size0: nat, start: nat, pathOf: Text -> Option<Text>)
    returns (shortened: nat, next: nat, size: int, ghost latest: int)
    requires size0 == Bytes(messages[..])
    modifies messages
    ensures IsLatest(old(messages[..]), latest)
    ensures Compacts(old(messages[..]), start, latest, messages[..], next, pathOf)
    ensures size == Bytes(messages[..]) && size <= size0
    ensures shortened == Changed(old(messages[..]), Max(start, 2), next, pathOf)
    ensures shortened == |Differences(messages[..], old(messages[..]))|
  {
    hide Bytes, Shortened;
    ghost var was := messages[..];
    var last := FindLatest(messages);
    latest := last;
    var first := Max(start, 2);
    shortened, next, size := 0, first, size0;
    assert messages[..] == Partly(was, first, first, pathOf);
    while next < last && size > COMPACT_TARGET_BYTES
      invariant first <= next && (next == first || next <= last)
      invariant messages[..] == Partly(was, first, next, pathOf)
      invariant size == Bytes(messages[..]) && size <= size0
      invariant shortened == Changed(was, first, next, pathOf)
      invariant forall k: nat :: first <= k < next ==> k < last && Bytes(Partly(was, first, k, pathOf)) > COMPACT_TARGET_BYTES
      decreases last - next
    {
      assert messages[next] == was[next];
      PartlyStep(was, first, next, pathOf);
      var before := size;
      size := ShortenMessage(messages, next, size, pathOf);
      if size < before {
        shortened := shortened + 1;
      }
      next := next + 1;
    }
    ChangedCounts(was, first, next, pathOf);
  }

  // ----- What compaction cuts -----

  /** No later message is an assistant's with tool calls. */
  predicate IsNewestTurn(ms: seq<Message>, t: nat) {
    && t < |ms| && ms[t].role == Assistant && ms[t].toolCalls.Some?
    && forall u :: t < u < |ms| ==> ms[u].role != Assistant || ms[u].toolCalls.None?
  }

  /**
   Exactly which entries a pass cuts, and to what: of the messages it looks at, the
   results of tools and the arguments of calls that are longer than 600 units and
   whose short form takes fewer bytes. All else stays, the newest turn with tool
   calls and everything after it included; and the pass ends before that turn only
   within the target.
   */
  lemma CompactionCutsExactly(ms: seq<Message>, start: nat, latest: int, ms': seq<Message>, next: nat, pathOf: Text -> Option<Text>)
    requires IsLatest(ms, latest) && Compacts(ms, start, latest, ms', next, pathOf)
    ensures |ms'| == |ms| && (next < latest ==> Bytes(ms') <= 120_000)
    ensures forall i :: 0 <= i < |ms| && (i < 2 || i < start || i >= next) ==> ms'[i] == ms[i]
    ensures forall t, i :: 2 <= t <= i < |ms| && IsNewestTurn(ms, t) ==> ms'[i] == ms[i]
    ensures forall i :: 2 <= i < |ms| && start <= i < next ==>
      ms'[i].content ==
        if ms[i].role == Tool && ms[i].content.Some? && |ms[i].content.value| > 600
           && Utf8Bytes(Quote(ShortContent(ms[i].content.value))) < Utf8Bytes(Quote(ms[i].content.value))
        then Some(ShortContent(ms[i].content.value)) else ms[i].content
    ensures forall i :: 2 <= i < |ms| && start <= i < next && ms[i].toolCalls.Some? ==>
      && ms'[i].toolCalls.Some? && |ms'[i].toolCalls.value| == |ms[i].toolCalls.value|
      && forall j :: 0 <= j < |ms[i].toolCalls.value| ==>
           var was := ms[i].toolCalls.value[j].arguments;
           ms'[i].toolCalls.value[j].arguments ==
             if |was| > 600 && Utf8Bytes(Quote(ShortArguments(was, pathOf(was)))) < Utf8Bytes(Quote(was))
             then ShortArguments(was, pathOf(was)) else was
  {
    hide Bytes, Utf8Bytes, Quote, ShortContent, ShortArguments;
    var first := Max(start, 2);
    if first < next {
      var k: nat := next - 1;
      assert Bytes(Partly(ms, first, k, pathOf)) > COMPACT_TARGET_BYTES;
    }
    forall t, i | 2 <= t <= i < |ms| && IsNewestTurn(ms, t) ensures ms'[i] == ms[i] {
      assert IsTurn(ms[t]);
      assert latest > 1 ==> IsTurn(ms[latest]);
    }
  }

  /** A reader of a shortened result finds the first 200 units of the old one. */
  lemma ShortContentReads(content: Text) returns (escaped: Text)
    ensures ShortContent(content)
      == Ascii("{\"truncated\":true,\"note\":\"") + Ascii(CONTENT_NOTE) + Ascii("\",\"text\":") + [QUOTE] + escaped + [QUOTE, 0x7D]
    ensures Unescape(escaped) == Some(if |content| < 200 then content else content[..200])
  {
    hide Escape, Unescape, Ascii;
    escaped := Escape(if |content| < 200 then content else content[..200]);
    UnescapeEscape(if |content| < 200 then content else content[..200]);
  }

  /** The number that a decimal numeral stands for, most significant digit first. */
  function Number(digits: Text): int {
    if digits == [] then 0 else Number(digits[..|digits| - 1]) * 10 + digits[|digits| - 1] - 0x30
  }

  /** The numeral of a number, without leading zeros. */
  lemma {:induction false} DigitsRead(n: nat)
    ensures Number(Digits(n)) == n && Digits(n) != [] && (n > 0 ==> Digits(n)[0] != 0x30)
    ensures forall d :: d in Digits(n) ==> 0x30 <= d <= 0x39
  {
    if n >= 10 {
      DigitsRead(n / 10);
      assert Digits(n)[..|Digits(n)| - 1] == Digits(n / 10);
    } else {
      assert [0x30 + n][..0] == [];
    }
  }

  /** A reader of shortened arguments finds the path, if there was one, and the length of the old ones. */
  lemma ShortArgumentsRead(arguments: Text, path: Option<Text>) returns (escaped: Text, digits: Text)
    ensures ShortArguments(arguments, path)
      == [0x7B] + (if path.Some? then Ascii("\"path\":") + [QUOTE] + escaped + [QUOTE, 0x2C] else [])
         + Ascii("\"omitted_chars\":") + digits + Ascii(",\"note\":\"Older arguments removed to save context\"}")
    ensures path.Some? ==> Unescape(escaped) == path
    ensures Number(digits) == |arguments|
  {
    hide Escape, Unescape, Digits, Number, Ascii;
    digits := Digits(|arguments|);
    DigitsRead(|arguments|);
    escaped := [];
    if path.Some? {
      escaped := Escape(path.value);
      UnescapeEscape(path.value);
      assert Ascii("\"path\":") + Quote(path.value) + [0x2C] == Ascii("\"path\":") + [QUOTE] + escaped + [QUOTE, 0x2C];
    }
  }

  // ----- What compaction leaves alone -----

  /** The same message apart from shortened content and arguments. */
  predicate SameShape(a: Message, b: Message) {
    && b.role == a.role && b.before == a.before && b.between == a.between && b.after == a.after
    && (b.content.Some? <==> a.content.Some?) && (b.toolCalls.Some? <==> a.toolCalls.Some?)
    && (a.toolCalls.Some? ==>
          && |b.toolCalls.value| == |a.toolCalls.value|
          && forall j :: 0 <= j < |a.toolCalls.value| ==>
               b.toolCalls.value[j].before == a.toolCalls.value[j].before && b.toolCalls.value[j].after == a.toolCalls.value[j].after)
  }

  /**
   Compaction keeps the number, order, roles and identifiers of messages, the
   first two messages and the latest turn, and touches nothing outside the range
   it reports.
   */
  lemma CompactionKeepsShape(ms: seq<Message>, start: nat, latest: int, ms': seq<Message>, next: nat, pathOf: Text -> Option<Text>)
    requires IsLatest(ms, latest) && Compacts(ms, start, latest, ms', next, pathOf)
    ensures |ms'| == |ms|
    ensures forall i :: 0 <= i < |ms| ==> SameShape(ms[i], ms'[i])
    ensures forall i :: 0 <= i < |ms| && (i < 2 || i < start || i >= next || i >= latest) ==> ms'[i] == ms[i]
    ensures IsLatest(ms', latest)
  {
    hide Bytes, ShortenedContent, IfShorter, ShortArguments;
    var first := Max(start, 2);
    if first < next {
      var k: nat := next - 1;
      assert Bytes(Partly(ms, first, k, pathOf)) > COMPACT_TARGET_BYTES;
    }
    forall i | 0 <= i < |ms| ensures SameShape(ms[i], ms'[i]) {
      if first <= i < next { ShapeOfShortened(ms[i], pathOf); }
    }
  }

  lemma ShapeOfShortened(m: Message, pathOf: Text -> Option<Text>)
    ensures SameShape(m, Shortened(m, pathOf))
  {
    hide IfShorter, ShortArguments, ShortContent;
  }

  // ----- Over a whole run of the agent -----

  /** The conversation, where the next compaction starts, and every message that compactions have looked at. */
  datatype Session = Session(messages: seq<Message>, compactFrom: nat, visited: seq<nat>)

  datatype Action = Append(turn: seq<Message>) | Compact(latest: int, messages: seq<Message>, next: nat)

  function UpTo(first: nat, next: nat): seq<nat>
    requires first <= next
  {
    seq(next - first, i requires 0 <= i < next - first => first + i)
  }

  /** The run appends turns, and compacts only when the conversation has passed the trigger size. */
  ghost predicate Acts(s: Session, a: Action, s': Session, pathOf: Text -> Option<Text>) {
    match a
    case Append(turn) => s' == s.(messages := s.messages + turn)
    case Compact(latest, ms, next) =>
      && Bytes(s.messages) > COMPACT_TRIGGER_BYTES
      && IsLatest(s.messages, latest) && Compacts(s.messages, s.compactFrom, latest, ms, next, pathOf)
      && s' == Session(ms, next, s.visited + UpTo(Max(s.compactFrom, 2), next))
  }

  ghost predicate Run(run: seq<Session>, pathOf: Text -> Option<Text>) {
    && run != [] && |run[0].messages| >= 2 && run[0].compactFrom == 2 && run[0].visited == []
    && forall i, j :: 0 <= i && j == i + 1 && j < |run| ==> Moves(run[i], run[j], pathOf)
  }

  ghost predicate Moves(s: Session, s': Session, pathOf: Text -> Option<Text>) {
    exists a :: Acts(s, a, s', pathOf)
  }

  /** No message was looked at twice, and none at or after the place where the next compaction starts. */
  predicate VisitedOnce(s: Session) {
    && s.compactFrom >= 2
    && (forall i :: 0 <= i < |s.visited| ==> 2 <= s.visited[i] < s.compactFrom)
    && (forall i, j :: 0 <= i < j < |s.visited| ==> s.visited[i] < s.visited[j])
  }

  lemma ActKeeps(s: Session, a: Action, s': Session, pathOf: Text -> Option<Text>)
    requires VisitedOnce(s) && Acts(s, a, s', pathOf)
    ensures VisitedOnce(s') && |s.messages| <= |s'.messages| && s.compactFrom <= s'.compactFrom
    ensures forall i :: 0 <= i < |s.messages| ==> SameShape(s.messages[i], s'.messages[i])
    ensures forall i :: 0 <= i < |s.messages| && (i < 2 || i < s.compactFrom) ==> s'.messages[i] == s.messages[i]
  {
    hide Bytes, Shortened;
    if a.Compact? {
      CompactionKeepsShape(s.messages, s.compactFrom, a.latest, a.messages, a.next, pathOf);
    }
  }

  /** A step of a run changes a message only while the serialized conversation is larger than 160,000 bytes. */
  lemma OnlyLargeIsCut(s: Session, s': Session, k: nat, pathOf: Text -> Option<Text>)
    requires Moves(s, s', pathOf) && k < |s.messages| && k < |s'.messages| && s'.messages[k] != s.messages[k]
    ensures Bytes(s.messages) > 160_000 && s.compactFrom <= k < s'.compactFrom
  {
    hide Bytes, Shortened;
    var a :| Acts(s, a, s', pathOf);
    if a.Compact? {
      CompactionKeepsShape(s.messages, s.compactFrom, a.latest, a.messages, a.next, pathOf);
    }
  }

  lemma ShapeTransitive(a: Message, b: Message, c: Message)
    requires SameShape(a, b) && SameShape(b, c)
    ensures SameShape(a, c)
  {
  }

  /**
   Over a whole run no message is looked at twice; the first two messages never
   change, a message that a compaction has passed never changes again, and every
   message keeps its place and shape.
   */
  lemma {:induction false} NoMessageIsVisitedTwice(run: seq<Session>, pathOf: Text -> Option<Text>, i: nat, j: nat)
    requires Run(run, pathOf) && i <= j < |run|
    ensures VisitedOnce(run[i]) && VisitedOnce(run[j])
    ensures |run[i].messages| <= |run[j].messages| && run[i].compactFrom <= run[j].compactFrom
    ensures forall k :: 0 <= k < |run[i].messages| ==> SameShape(run[i].messages[k], run[j].messages[k])
    ensures forall k :: 0 <= k < |run[i].messages| && (k < 2 || k < run[i].compactFrom) ==> run[j].messages[k] == run[i].messages[k]
    decreases j
  {
    hide Acts, SameShape;
    if j == 0 {
      ShapeReflexive(run[0].messages);
    } else {
      NoMessageIsVisitedTwice(run, pathOf, if i < j then i else j - 1, j - 1);
      assert Moves(run[j - 1], run[j], pathOf);
      var a :| Acts(run[j - 1], a, run[j], pathOf);
      ActKeeps(run[j - 1], a, run[j], pathOf);
      ShapeReflexive(run[j].messages);
      if i < j {
        forall k | 0 <= k < |run[i].messages| ensures SameShape(run[i].messages[k], run[j].messages[k]) {
          ShapeTransitive(run[i].messages[k], run[j - 1].messages[k], run[j].messages[k]);
        }
      }
    }
  }

  lemma ShapeReflexive(ms: seq<Message>)
    ensures forall k :: 0 <= k < |ms| ==> SameShape(ms[k], ms[k])
  {
  }
}
