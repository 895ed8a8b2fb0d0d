/**
 * The streaming side of server/app.py: how the events of one graph run are
 * turned into server-sent-event lines (`generate_chat_responses`), with the
 * ad-hoc escaping of content and queries and the URL extraction from search
 * results. The graph is an oracle: given the user's message and the thread
 * id, it produces the events it emits before it finishes or raises.
 */
module ChatStream {
  import opened Common
  import opened AgentGraph

  // ---------------------------------------------------------------------
  // Escaping (`str.replace` chains)
  // ---------------------------------------------------------------------

  /** Python's `s.replace(c, rep)` for a one-character pattern. */
  function ReplaceChar(s: string, c: char, rep: string): (r: string)
    ensures c !in rep ==> c !in r
    ensures |r| >= |s| || rep == []
  {
    if s == [] then [] else (if s[0] == c then rep else [s[0]]) + ReplaceChar(s[1..], c, rep)
  }

  lemma {:induction false} ReplaceCharAppend(a: string, b: string, c: char, rep: string)
    ensures ReplaceChar(a + b, c, rep) == ReplaceChar(a, c, rep) + ReplaceChar(b, c, rep)
  {
    if a != [] {
      assert (a + b)[1..] == a[1..] + b;
      ReplaceCharAppend(a[1..], b, c, rep);
    } else {
      assert a + b == b;
    }
  }

  lemma {:induction false} ReplaceCharAbsent(s: string, c: char, rep: string)
    requires c !in s
    ensures ReplaceChar(s, c, rep) == s
  {
    if s != [] {
      ReplaceCharAbsent(s[1..], c, rep);
    }
  }

  /** Escaping of a content fragment: `'` then newline (app.py line 176). */
  function EscapeContent(s: string): (r: string)
    ensures '\n' !in r
    ensures |r| >= |s|
  {
    ReplaceChar(ReplaceChar(s, '\'', "\\'"), '\n', "\\n")
  }

  /** Escaping of a search query: `"`, then `'`, then newline (app.py line 189). */
  function EscapeQuery(s: string): (r: string)
    ensures '\n' !in r
    ensures |r| >= |s|
  {
    ReplaceChar(ReplaceChar(ReplaceChar(s, '"', "\\\""), '\'', "\\'"), '\n', "\\n")
  }

  /** What the content escaping does to one character. */
  function EscapeContentChar(c: char): string
  {
    if c == '\'' then "\\'" else if c == '\n' then "\\n" else [c]
  }

  /** What the query escaping does to one character. */
  function EscapeQueryChar(c: char): string
  {
    if c == '"' then "\\\"" else EscapeContentChar(c)
  }

  /** The chained replaces act character by character (no replacement feeds a later one). */
  lemma EscapeContentCons(s: string)
    requires s != []
    ensures EscapeContent(s) == EscapeContentChar(s[0]) + EscapeContent(s[1..])
  {
    var x := if s[0] == '\'' then "\\'" else [s[0]];
    ReplaceCharAppend(x, ReplaceChar(s[1..], '\'', "\\'"), '\n', "\\n");
    if s[0] != '\n' {
      ReplaceCharAbsent(x, '\n', "\\n");
    }
  }

  lemma EscapeQueryCons(s: string)
    requires s != []
    ensures EscapeQuery(s) == EscapeQueryChar(s[0]) + EscapeQuery(s[1..])
  {
    var x := if s[0] == '"' then "\\\"" else [s[0]];
    var rest := ReplaceChar(s[1..], '"', "\\\"");
    ReplaceCharAppend(x, rest, '\'', "\\'");
    var y := if s[0] == '\'' then "\\'" else x;
    if s[0] != '\'' {
      ReplaceCharAbsent(x, '\'', "\\'");
    }
    ReplaceCharAppend(y, ReplaceChar(rest, '\'', "\\'"), '\n', "\\n");
    if s[0] != '\n' {
      ReplaceCharAbsent(y, '\n', "\\n");
    }
  }

  /** Every occurrence of `q` in `r` directly follows a backslash. */
  predicate BackslashBefore(r: string, q: char)
  {
    forall i :: 0 <= i < |r| && r[i] == q ==> 0 < i && r[i - 1] == '\\'
  }

  lemma BackslashBeforeAppend(a: string, b: string, q: char)
    requires BackslashBefore(a, q) && BackslashBefore(b, q)
    ensures BackslashBefore(a + b, q)
  {
    forall i | 0 <= i < |a + b| && (a + b)[i] == q
      ensures 0 < i && (a + b)[i - 1] == '\\'
    {
      if i >= |a| {
        assert b[i - |a|] == q;
      }
    }
  }

  /**
   * Escaped content holds no raw newline, and every `'` in it is preceded by
   * a backslash.
   */
  lemma {:induction false} EscapedContentShape(s: string)
    ensures '\n' !in EscapeContent(s)
    ensures BackslashBefore(EscapeContent(s), '\'')
  {
    if s != [] {
      EscapeContentCons(s);
      EscapedContentShape(s[1..]);
      BackslashBeforeAppend(EscapeContentChar(s[0]), EscapeContent(s[1..]), '\'');
    }
  }

  /**
   * An escaped query holds no raw newline, and every `'` and every `"` in
   * it is preceded by a backslash.
   */
  lemma {:induction false} EscapedQueryShape(s: string)
    ensures '\n' !in EscapeQuery(s)
    ensures BackslashBefore(EscapeQuery(s), '\'')
    ensures BackslashBefore(EscapeQuery(s), '"')
  {
    if s != [] {
      EscapeQueryCons(s);
      EscapedQueryShape(s[1..]);
      BackslashBeforeAppend(EscapeQueryChar(s[0]), EscapeQuery(s[1..]), '\'');
      BackslashBeforeAppend(EscapeQueryChar(s[0]), EscapeQuery(s[1..]), '"');
    }
  }

  /**
   * Content escaping touches only `'` and newlines: double quotes and
   * backslashes pass through raw.
   */
  lemma ContentEscapingLeavesOthers(s: string)
    requires '\'' !in s && '\n' !in s
    ensures EscapeContent(s) == s
  {
    ReplaceCharAbsent(s, '\'', "\\'");
    ReplaceCharAbsent(s, '\n', "\\n");
  }

  /** Both escapings act piecewise: escaping a concatenation escapes each part. */
  lemma EscapeContentAppend(a: string, b: string)
    ensures EscapeContent(a + b) == EscapeContent(a) + EscapeContent(b)
  {
    ReplaceCharAppend(a, b, '\'', "\\'");
    ReplaceCharAppend(ReplaceChar(a, '\'', "\\'"), ReplaceChar(b, '\'', "\\'"), '\n', "\\n");
  }

  lemma EscapeQueryAppend(a: string, b: string)
    ensures EscapeQuery(a + b) == EscapeQuery(a) + EscapeQuery(b)
  {
    ReplaceCharAppend(a, b, '"', "\\\"");
    var qa, qb := ReplaceChar(a, '"', "\\\""), ReplaceChar(b, '"', "\\\"");
    ReplaceCharAppend(qa, qb, '\'', "\\'");
    ReplaceCharAppend(ReplaceChar(qa, '\'', "\\'"), ReplaceChar(qb, '\'', "\\'"), '\n', "\\n");
  }

  /**
   * Double quotes are escaped in queries but not in content: wherever a `"`
   * stands in the text, the content line carries it raw and the query line
   * carries `\"`.
   */
  lemma DoubleQuoteEscapedOnlyInQueries(a: string, b: string)
    ensures EscapeContent(a + "\"" + b) == EscapeContent(a) + "\"" + EscapeContent(b)
    ensures EscapeQuery(a + "\"" + b) == EscapeQuery(a) + "\\\"" + EscapeQuery(b)
  {
    QuoteEscapings();
    EscapedAround(a, "\"", b);
  }

  lemma QuoteEscapings()
    ensures EscapeContent("\"") == "\""
    ensures EscapeQuery("\"") == "\\\""
  {
    ContentEscapingLeavesOthers("\"");
    EscapeQueryCons("\"");
  }

  /** Escaping `a + x + b` escapes the three parts separately. */
  lemma EscapedAround(a: string, x: string, b: string)
    ensures EscapeContent(a + x + b) == EscapeContent(a) + EscapeContent(x) + EscapeContent(b)
    ensures EscapeQuery(a + x + b) == EscapeQuery(a) + EscapeQuery(x) + EscapeQuery(b)
  {
    EscapeContentAppend(a + x, b);
    EscapeContentAppend(a, x);
    EscapeQueryAppend(a + x, b);
    EscapeQueryAppend(a, x);
  }

  /**
   * Carriage returns pass through both escapings raw, so an escaped line may
   * still hold a character that a server-sent-event parser treats as a line end.
   */
  lemma CarriageReturnPassesEscaping(a: string, b: string)
    ensures EscapeContent(a + "\r" + b) == EscapeContent(a) + "\r" + EscapeContent(b)
    ensures EscapeQuery(a + "\r" + b) == EscapeQuery(a) + "\r" + EscapeQuery(b)
  {
    CarriageReturnEscapings();
    EscapedAround(a, "\r", b);
  }

  lemma CarriageReturnEscapings()
    ensures EscapeContent("\r") == "\r"
    ensures EscapeQuery("\r") == "\r"
  {
    ContentEscapingLeavesOthers("\r");
    EscapeQueryCons("\r");
  }

  /** Backslashes are not escaped, so a real newline and `\n` collide. */
  lemma EscapeContentNotInjective()
    ensures "\n" != "\\n"
    ensures EscapeContent("\n") == EscapeContent("\\n")
  {
    EscapeContentCons("\n");
    ContentEscapingLeavesOthers("\\n");
  }

  /** Reads `\'` as `'` and `\n` as a newline; every other character stands for itself. */
  function UnescapeContent(r: string): string
  {
    if r == [] then []
    else if |r| >= 2 && r[0] == '\\' && r[1] == '\'' then "'" + UnescapeContent(r[2..])
    else if |r| >= 2 && r[0] == '\\' && r[1] == 'n' then "\n" + UnescapeContent(r[2..])
    else [r[0]] + UnescapeContent(r[1..])
  }

  /** On text without backslashes the content escaping loses nothing. */
  lemma {:induction false} UnescapeEscapeContent(s: string)
    requires '\\' !in s
    ensures UnescapeContent(EscapeContent(s)) == s
  {
    if s != [] {
      EscapeContentCons(s);
      UnescapeEscapeContent(s[1..]);
      var x, rest := EscapeContentChar(s[0]), EscapeContent(s[1..]);
      if |x| == 2 {
        assert (x + rest)[2..] == rest;
      } else {
        assert (x + rest)[1..] == rest;
      }
      assert s == [s[0]] + s[1..];
    }
  }

  // ---------------------------------------------------------------------
  // json.dumps of the URL list (ensure_ascii, ", " separator)
  // ---------------------------------------------------------------------

  function HexDigit(d: nat): (c: char)
    requires d < 16
    ensures '0' <= c <= '9' || 'a' <= c <= 'f'
  {
    if d < 10 then ('0' as int + d) as char else ('a' as int + d - 10) as char
  }

  function Hex4(n: nat): string
    requires n < 0x1_0000
  {
    [HexDigit(n / 0x1000), HexDigit(n / 0x100 % 16), HexDigit(n / 16 % 16), HexDigit(n % 16)]
  }

  /** One character inside a JSON string literal, as Python's ASCII-only encoder writes it. */
  function JsonChar(c: char): string
  {
    if c == '"' then "\\\""
    else if c == '\\' then "\\\\"
    else if c == '\n' then "\\n"
    else if c == '\r' then "\\r"
    else if c == '\t' then "\\t"
    else if c == 8 as char then "\\b"
    else if c == 12 as char then "\\f"
    else if ' ' <= c <= '~' then [c]
    else if c as int < 0x1_0000 then "\\u" + Hex4(c as int)
    else
      var v := c as int - 0x1_0000;
      "\\u" + Hex4(0xD800 + v / 0x400) + "\\u" + Hex4(0xDC00 + v % 0x400)
  }

  function JsonStringBody(s: string): string
  {
    if s == [] then "" else JsonChar(s[0]) + JsonStringBody(s[1..])
  }

  /** A JSON string literal. */
  function Quoted(s: string): string
  {
    "\"" + JsonStringBody(s) + "\""
  }

  function JoinJsonStrings(urls: seq<string>): string
  {
    if urls == [] then ""
    else if |urls| == 1 then Quoted(urls[0])
    else Quoted(urls[0]) + ", " + JoinJsonStrings(urls[1..])
  }

  /** `json.dumps(urls)` for a list of strings. */
  function JsonDumps(urls: seq<string>): (r: string)
    ensures |r| >= 2 && r[0] == '[' && r[|r| - 1] == ']'
    ensures urls == [] ==> r == "[]"
  {
    "[" + JoinJsonStrings(urls) + "]"
  }

  predicate PrintableAscii(s: string)
  {
    forall i :: 0 <= i < |s| ==> ' ' <= s[i] <= '~'
  }

  lemma {:induction false} JsonStringBodyPrintable(s: string)
    ensures PrintableAscii(JsonStringBody(s))
  {
    if s != [] {
      JsonStringBodyPrintable(s[1..]);
      JsonCharPrintable(s[0]);
      PrintableAppend(JsonChar(s[0]), JsonStringBody(s[1..]));
    }
  }

  lemma PrintableAppend(a: string, b: string)
    requires PrintableAscii(a) && PrintableAscii(b)
    ensures PrintableAscii(a + b)
  {
  }

  lemma Hex4Printable(n: nat)
    requires n < 0x1_0000
    ensures PrintableAscii(Hex4(n))
  {
  }

  /** Every character encodes to printable ASCII, astral ones as a surrogate pair. */
  lemma JsonCharPrintable(c: char)
    ensures PrintableAscii(JsonChar(c))
  {
    if c as int >= 0x1_0000 {
      SurrogatePairPrintable(c as int - 0x1_0000);
    } else if c as int >= 0x7F || c < ' ' {
      UnicodeEscapePrintable(c as int);
    }
  }

  lemma UnicodeEscapePrintable(n: nat)
    requires n < 0x1_0000
    ensures PrintableAscii("\\u" + Hex4(n))
  {
    Hex4Printable(n);
    PrintableAppend("\\u", Hex4(n));
  }

  lemma SurrogatePairPrintable(v: nat)
    requires v < 0x10_0000
    ensures PrintableAscii("\\u" + Hex4(0xD800 + v / 0x400) + "\\u" + Hex4(0xDC00 + v % 0x400))
  {
    var high := "\\u" + Hex4(0xD800 + v / 0x400);
    var low := "\\u" + Hex4(0xDC00 + v % 0x400);
    UnicodeEscapePrintable(0xD800 + v / 0x400);
    UnicodeEscapePrintable(0xDC00 + v % 0x400);
    PrintableAppend(high, low);
    assert high + "\\u" + Hex4(0xDC00 + v % 0x400) == high + low;
  }

  /** The encoded URL list is printable ASCII, so it never breaks the event line. */
  lemma {:induction false} JsonDumpsPrintable(urls: seq<string>)
    ensures PrintableAscii(JsonDumps(urls))
    ensures '\n' !in JsonDumps(urls)
  {
    JoinJsonStringsPrintable(urls);
    var d := JsonDumps(urls);
    assert forall i :: 0 <= i < |d| ==> d[i] != '\n';
  }

  lemma {:induction false} JoinJsonStringsPrintable(urls: seq<string>)
    ensures PrintableAscii(JoinJsonStrings(urls))
  {
    if urls != [] {
      QuotedPrintable(urls[0]);
      if |urls| > 1 {
        JoinJsonStringsPrintable(urls[1..]);
        SeparatedPrintable(Quoted(urls[0]), JoinJsonStrings(urls[1..]));
      }
    }
  }

  lemma QuotedPrintable(s: string)
    ensures PrintableAscii(Quoted(s))
  {
    JsonStringBodyPrintable(s);
    PrintableAppend("\"", JsonStringBody(s));
    PrintableAppend("\"" + JsonStringBody(s), "\"");
  }

  lemma SeparatedPrintable(a: string, b: string)
    requires PrintableAscii(a) && PrintableAscii(b)
    ensures PrintableAscii(a + ", " + b)
  {
    PrintableAppend(a, ", ");
    PrintableAppend(a + ", ", b);
  }

  // ---------------------------------------------------------------------
  // Events, frames and URL extraction
  // ---------------------------------------------------------------------

  /** The chunk of an `on_chat_model_stream` event. */
  datatype Chunk = AIMessageChunk(content: string) | OtherChunk(typeName: string)

  /** One element of the search tool's output list. */
  datatype ResultItem = DictItem(fields: map<string, string>) | OtherItem

  /** The output of an `on_tool_end` event: a list, or anything else. */
  datatype ToolOutput = ListOutput(items: seq<ResultItem>) | OtherOutput

  /**
   * The graph events the generator looks at. A model output without a
   * `tool_calls` attribute is the same, for the generator, as one with none.
   */
  datatype GraphEvent =
    | ChatModelStream(chunk: Chunk)
    | ChatModelEnd(toolCalls: seq<ToolCall>)
    | ToolEnd(name: string, output: ToolOutput)
    | OtherEvent(kind: string)

  /** What iterating the graph's event stream delivers: events, then completion or an exception. */
  datatype EventRun = EventRun(events: seq<GraphEvent>, failure: Option<string>)

  /** The graph: (user message, thread id) to the run it streams. */
  type Graph = (string, string) -> EventRun

  /** One yielded server-sent event; text fields hold what is written between the quotes. */
  datatype Frame =
    | CheckpointFrame(checkpointId: string)
    | ContentFrame(content: string)
    | SearchStartFrame(query: string)
    | SearchResultsFrame(urls: seq<string>)
    | EndFrame

  /** The JSON-ish payload of a frame. */
  function Payload(f: Frame): (r: string)
    ensures |r| >= 2 && r[0] == '{' && r[|r| - 1] == '}'
  {
    match f
    case CheckpointFrame(id) => "{\"type\": \"checkpoint\", \"checkpoint_id\": \"" + id + "\"}"
    case ContentFrame(c) => "{\"type\": \"content\", \"content\": \"" + c + "\"}"
    case SearchStartFrame(q) => "{\"type\": \"search_start\", \"query\": \"" + q + "\"}"
    case SearchResultsFrame(urls) => "{\"type\": \"search_results\", \"urls\": " + JsonDumps(urls) + "}"
    case EndFrame => "{\"type\": \"end\"}"
  }

  /** The exact text yielded for a frame. */
  function Render(f: Frame): (r: string)
    ensures |r| == |Payload(f)| + 8
    ensures r[..6] == "data: " && r[6..|r| - 2] == Payload(f) && r[|r| - 2..] == "\n\n"
  {
    "data: " + Payload(f) + "\n\n"
  }

  /**
   * No text field of the frame contains a line feed. (A carriage return is
   * not excluded: see `CarriageReturnPassesEscaping`.)
   */
  predicate NoLineFeed(f: Frame)
  {
    match f
    case CheckpointFrame(id) => '\n' !in id
    case ContentFrame(c) => '\n' !in c
    case SearchStartFrame(q) => '\n' !in q
    case _ => true
  }

  /**
   * A frame without line feeds in its fields renders as `data: `, a payload
   * without line feeds and the closing blank line: its only line feeds are
   * the closing pair.
   */
  lemma RenderLineFeeds(f: Frame)
    requires NoLineFeed(f)
    ensures '\n' !in Payload(f)
    ensures Render(f)[|Render(f)| - 2..] == "\n\n" && Render(f)[..6] == "data: "
  {
    match f {
      case CheckpointFrame(id) => CheckpointPayloadNoLineFeed(id);
      case ContentFrame(c) => ContentPayloadNoLineFeed(c);
      case SearchStartFrame(q) => SearchStartPayloadNoLineFeed(q);
      case SearchResultsFrame(urls) => SearchResultsPayloadNoLineFeed(urls);
      case EndFrame => EndPayloadNoLineFeed();
    }
    EventLineShape(Payload(f));
  }

  lemma CheckpointPayloadNoLineFeed(id: string)
    requires '\n' !in id
    ensures '\n' !in Payload(CheckpointFrame(id))
  {
    NoNewlineJoined("{\"type\": \"checkpoint\", \"checkpoint_id\": \"", id, "\"}");
  }

  lemma ContentPayloadNoLineFeed(c: string)
    requires '\n' !in c
    ensures '\n' !in Payload(ContentFrame(c))
  {
    NoNewlineJoined("{\"type\": \"content\", \"content\": \"", c, "\"}");
  }

  lemma SearchStartPayloadNoLineFeed(q: string)
    requires '\n' !in q
    ensures '\n' !in Payload(SearchStartFrame(q))
  {
    NoNewlineJoined("{\"type\": \"search_start\", \"query\": \"", q, "\"}");
  }

  lemma SearchResultsPayloadNoLineFeed(urls: seq<string>)
    ensures '\n' !in Payload(SearchResultsFrame(urls))
  {
    JsonDumpsPrintable(urls);
    NoNewlineJoined("{\"type\": \"search_results\", \"urls\": ", JsonDumps(urls), "}");
  }

  lemma EndPayloadNoLineFeed()
    ensures '\n' !in Payload(EndFrame)
  {
  }

  lemma NoNewlineJoined(a: string, b: string, c: string)
    requires '\n' !in a && '\n' !in b && '\n' !in c
    ensures '\n' !in a + b + c
  {
  }

  lemma EventLineShape(p: string)
    ensures var line := "data: " + p + "\n\n";
            line[|line| - 2..] == "\n\n" && line[..6] == "data: "
  {
    var line := "data: " + p + "\n\n";
    assert line[|line| - 2..] == "\n\n";
    assert line[..6] == "data: ";
  }

  /** `serialise_ai_message_chunk`: only AI message chunks have serialisable content. */
  function SerialiseChunk(chunk: Chunk): (r: Result<string, string>)
    ensures r.Ok? <==> chunk.AIMessageChunk?
    ensures r.Ok? ==> r.value == chunk.content
    ensures r.Err? ==> r.error == "Object of type " + chunk.typeName + " is not correctly formatted for serialisation"
  {
    match chunk
    case AIMessageChunk(content) => Ok(content)
    case OtherChunk(name) => Err("Object of type " + name + " is not correctly formatted for serialisation")
  }

  /** The `"url"` values of the dictionary items, in list order. */
  function Urls(items: seq<ResultItem>): (r: seq<string>)
    ensures |r| <= |items|
  {
    if items == [] then []
    else Urls(items[..|items| - 1]) + UrlOf(items[|items| - 1])
  }

  /** The `"url"` value of one item, when it is a dictionary holding one. */
  function UrlOf(it: ResultItem): seq<string>
  {
    if it.DictItem? && UrlKey in it.fields then [it.fields[UrlKey]] else []
  }

  const UrlKey := "url"

  /** A result list without dictionaries yields no URLs. */
  lemma {:induction false} UrlsWithoutDicts(items: seq<ResultItem>)
    requires forall k :: 0 <= k < |items| ==> !items[k].DictItem?
    ensures Urls(items) == []
  {
    if items != [] {
      UrlsWithoutDicts(items[..|items| - 1]);
    }
  }

  lemma UrlsSnoc(init: seq<ResultItem>, last: ResultItem)
    ensures Urls(init + [last]) == Urls(init) + UrlOf(last)
  {
    assert (init + [last])[..|init|] == init;
  }

  /** URL extraction distributes over concatenation, which pins down its order. */
  lemma {:induction false} UrlsAppend(a: seq<ResultItem>, b: seq<ResultItem>)
    ensures Urls(a + b) == Urls(a) + Urls(b)
  {
    if b == [] {
      assert a + b == a;
    } else {
      var init, last := b[..|b| - 1], b[|b| - 1];
      assert b == init + [last];
      AppendAssoc(a, init, [last]);
      UrlsAppend(a, init);
      UrlsSnoc(a + init, last);
      UrlsSnoc(init, last);
      AppendAssoc(Urls(a), Urls(init), UrlOf(last));
    }
  }

  /** Every extracted URL is the `"url"` of a dictionary item, and every such item contributes. */
  lemma {:induction false} UrlsMembership(items: seq<ResultItem>)
    ensures forall u :: u in Urls(items) <==> exists it :: it in items && it.DictItem? && "url" in it.fields && it.fields["url"] == u
  {
    if items != [] {
      var init := items[..|items| - 1];
      UrlsMembership(init);
      assert items == init + [items[|items| - 1]];
    }
  }

  /** The URL-collecting loop of the `on_tool_end` branch. */
  method ExtractUrls(items: seq<ResultItem>) returns (urls: seq<string>)
    ensures urls == Urls(items)
  {
    urls := [];
    var i := 0;
    while i < |items|
      invariant 0 <= i <= |items|
      invariant urls == Urls(items[..i])
    {
      var item := items[i];
      assert items[..i + 1][..i] == items[..i];
      if item.DictItem? && "url" in item.fields {
        urls := urls + [item.fields["url"]];
      }
      i := i + 1;
    }
    assert items[..i] == items;
  }

  /** `args.get("query", "")`. */
  function QueryOf(call: ToolCall): (q: string)
    ensures "query" !in call.args ==> q == ""
    ensures "query" in call.args ==> q == call.args["query"]
  {
    if "query" in call.args then call.args["query"] else ""
  }

  /** The frame (at most one) that a single event yields, or the exception it raises. */
  function FramesFor(ev: GraphEvent): (r: Result<seq<Frame>, string>)
    ensures r.Err? <==> ev.ChatModelStream? && ev.chunk.OtherChunk?
    ensures r.Ok? ==> |r.value| <= 1 && forall f :: f in r.value ==> NoLineFeed(f)
    ensures ev.ChatModelStream? && r.Ok? ==> r.value == [ContentFrame(EscapeContent(ev.chunk.content))]
    ensures ev.ChatModelEnd? ==>
              r.Ok? && (r.value != [] <==> SearchCalls(ev.toolCalls) != []) &&
              (r.value != [] ==> r.value[0] == SearchStartFrame(EscapeQuery(QueryOf(SearchCalls(ev.toolCalls)[0]))))
    ensures ev.ToolEnd? ==>
              r.Ok? && (r.value != [] <==> ev.name == SearchToolName && ev.output.ListOutput?) &&
              (r.value != [] ==> r.value[0] == SearchResultsFrame(Urls(ev.output.items)))
    ensures ev.OtherEvent? ==> r == Ok([])
  {
    match ev
    case ChatModelStream(chunk) =>
      (match SerialiseChunk(chunk)
       case Err(e) => Err(e)
       case Ok(c) => EscapedContentShape(c); Ok([ContentFrame(EscapeContent(c))]))
    case ChatModelEnd(calls) =>
      var searchCalls := SearchCalls(calls);
      if searchCalls != [] then
        EscapedQueryShape(QueryOf(searchCalls[0]));
        Ok([SearchStartFrame(EscapeQuery(QueryOf(searchCalls[0])))])
      else Ok([])
    case ToolEnd(name, output) =>
      if name == SearchToolName && output.ListOutput? then Ok([SearchResultsFrame(Urls(output.items))]) else Ok([])
    case OtherEvent(_) => Ok([])
  }

  /** Frames yielded so far, and the exception that stopped the generator, if any. */
  datatype Emitted = Emitted(frames: seq<Frame>, error: Option<string>)

  /** The frames yielded for the events, in order, stopping at the first exception. */
  function EventFrames(events: seq<GraphEvent>): (r: Emitted)
    ensures |r.frames| <= |events|
    ensures forall i :: 0 <= i < |r.frames| ==> !r.frames[i].CheckpointFrame? && !r.frames[i].EndFrame?
    ensures forall i :: 0 <= i < |r.frames| ==> NoLineFeed(r.frames[i])
  {
    if events == [] then Emitted([], None)
    else
      var before := EventFrames(events[..|events| - 1]);
      if before.error.Some? then before
      else match FramesFor(events[|events| - 1])
        case Err(e) => Emitted(before.frames, Some(e))
        case Ok(fs) => Emitted(before.frames + fs, None)
  }

  /** The stream is append-only: a later event never changes what was yielded for earlier ones. */
  lemma {:induction false} EventFramesPrefix(events: seq<GraphEvent>, n: nat)
    requires n <= |events|
    ensures EventFrames(events[..n]).frames <= EventFrames(events).frames
    ensures EventFrames(events[..n]).error.Some? ==> EventFrames(events) == EventFrames(events[..n])
  {
    if n < |events| {
      assert events[..|events| - 1][..n] == events[..n];
      EventFramesPrefix(events[..|events| - 1], n);
    } else {
      assert events[..n] == events;
    }
  }

  /** The thread the run uses: the caller's checkpoint id, or the fresh one. */
  function ThreadIdFor(checkpointId: Option<string>, freshId: string): (t: string)
    ensures checkpointId.None? ==> t == freshId
    ensures checkpointId.Some? ==> t == checkpointId.value
  {
    if checkpointId.None? then freshId else checkpointId.value
  }

  /**
   * Everything one call of the generator yields for a run of the graph.
   * Framing: a checkpoint frame appears exactly for a new conversation, and
   * then first, carrying the thread id; when the iteration completes the end
   * frame appears exactly once and last; an exception yields no end frame.
   */
  function StreamSpec(checkpointId: Option<string>, threadId: string, run: EventRun): (e: Emitted)
    ensures (exists i :: 0 <= i < |e.frames| && e.frames[i].CheckpointFrame?) <==> checkpointId.None?
    ensures checkpointId.None? ==> e.frames[0] == CheckpointFrame(threadId)
    ensures e.error.None? <==> run.failure.None? && EventFrames(run.events).error.None?
    ensures e.error.None? ==> |e.frames| > 0 && e.frames[|e.frames| - 1] == EndFrame
    ensures forall i :: 0 <= i < |e.frames| && e.frames[i].EndFrame? ==> e.error.None? && i == |e.frames| - 1
  {
    var header := if checkpointId.None? then [CheckpointFrame(threadId)] else [];
    var body := EventFrames(run.events);
    var e :=
      if body.error.Some? then Emitted(header + body.frames, body.error)
      else if run.failure.Some? then Emitted(header + body.frames, run.failure)
      else Emitted(header + body.frames + [EndFrame], None);
    CheckpointFraming(checkpointId, threadId, body.frames, e.frames);
    EndFraming(header, body.frames, e.frames, e.error.None?);
    e
  }

  /** The end frame is appended once, after every other frame, and only on completion. */
  lemma EndFraming(header: seq<Frame>, body: seq<Frame>, frames: seq<Frame>, completed: bool)
    requires forall i :: 0 <= i < |header| ==> !header[i].EndFrame?
    requires forall i :: 0 <= i < |body| ==> !body[i].EndFrame?
    requires frames == if completed then header + body + [EndFrame] else header + body
    ensures completed ==> |frames| > 0 && frames[|frames| - 1] == EndFrame
    ensures forall i :: 0 <= i < |frames| && frames[i].EndFrame? ==> completed && i == |frames| - 1
  {
    forall i | 0 <= i < |header| + |body|
      ensures !frames[i].EndFrame?
    {
      if i >= |header| { assert frames[i] == body[i - |header|]; }
    }
  }

  /** The checkpoint frame leads the yielded frames exactly when the conversation is new. */
  lemma CheckpointFraming(checkpointId: Option<string>, threadId: string, body: seq<Frame>, frames: seq<Frame>)
    requires forall i :: 0 <= i < |body| ==> !body[i].CheckpointFrame? && !body[i].EndFrame?
    requires var header := if checkpointId.None? then [CheckpointFrame(threadId)] else [];
             frames == header + body || frames == header + body + [EndFrame]
    ensures (exists i :: 0 <= i < |frames| && frames[i].CheckpointFrame?) <==> checkpointId.None?
    ensures checkpointId.None? ==> frames[0] == CheckpointFrame(threadId)
  {
    if checkpointId.None? {
      assert frames[0].CheckpointFrame?;
    } else {
      forall i | 0 <= i < |frames| ensures !frames[i].CheckpointFrame? {
        if i < |body| { assert frames[i] == body[i]; }
      }
    }
  }

  /**
   * No yielded payload holds a line feed, provided the thread id holds none
   * whenever it is yielded (for a new conversation).
   */
  lemma StreamPayloadsHaveNoLineFeed(checkpointId: Option<string>, threadId: string, run: EventRun)
    requires checkpointId.Some? || '\n' !in threadId
    ensures forall f :: f in StreamSpec(checkpointId, threadId, run).frames ==> '\n' !in Payload(f)
  {
    var header := if checkpointId.None? then [CheckpointFrame(threadId)] else [];
    FramesHaveNoLineFeed(header, EventFrames(run.events).frames, StreamSpec(checkpointId, threadId, run).frames);
  }

  lemma FramesHaveNoLineFeed(header: seq<Frame>, body: seq<Frame>, frames: seq<Frame>)
    requires forall i :: 0 <= i < |header| ==> NoLineFeed(header[i])
    requires forall i :: 0 <= i < |body| ==> NoLineFeed(body[i])
    requires frames == header + body || frames == header + body + [EndFrame]
    ensures forall f :: f in frames ==> '\n' !in Payload(f)
  {
    forall f | f in frames ensures '\n' !in Payload(f) {
      var i :| 0 <= i < |frames| && frames[i] == f;
      if i < |header| {
        assert f == header[i];
      } else if i < |header| + |body| {
        assert f == body[i - |header|];
      } else {
        assert f == EndFrame;
      }
      RenderLineFeeds(f);
    }
  }

  /** The body of the generator's `async for`: what one event yields. */
  method YieldFor(event: GraphEvent) returns (r: Result<seq<Frame>, string>)
    ensures r == FramesFor(event)
  {
    match event {
      case ChatModelStream(chunk) =>
        var serialised := SerialiseChunk(chunk);
        if serialised.Err? {
          return Err(serialised.error);
        }
        var safeContent := EscapeContent(serialised.value);
        r := Ok([ContentFrame(safeContent)]);
      case ChatModelEnd(toolCalls) =>
        var searchCalls := SearchCalls(toolCalls);
        r := Ok([]);
        if searchCalls != [] {
          var safeQuery := EscapeQuery(QueryOf(searchCalls[0]));
          r := Ok([SearchStartFrame(safeQuery)]);
        }
      case ToolEnd(name, output) =>
        r := Ok([]);
        if name == SearchToolName && output.ListOutput? {
          var urls := ExtractUrls(output.items);
          r := Ok([SearchResultsFrame(urls)]);
        }
      case OtherEvent(_) =>
        r := Ok([]);
    }
  }

  /** The generator's `async for`: the frames of each event in turn, until one raises. */
  method StreamEvents(events: seq<GraphEvent>) returns (frames: seq<Frame>, error: Option<string>)
    ensures Emitted(frames, error) == EventFrames(events)
  {
    frames, error := [], None;
    var i := 0;
    while i < |events|
      invariant 0 <= i <= |events|
      invariant EventFrames(events[..i]) == Emitted(frames, None)
    {
      var event := events[i];
      assert events[..i + 1][..i] == events[..i];
      var yielded := YieldFor(event);
      if yielded.Err? {
        error := Some(yielded.error);
        EventFramesPrefix(events, i + 1);
        return;
      }
      frames := frames + yielded.value;
      i := i + 1;
    }
    assert events[..i] == events;
  }

  /**
   * generate_chat_responses: picks the thread id (fresh for a new
   * conversation), starts the graph, yields the checkpoint frame for a new
   * conversation, one frame per interesting event, and the end frame once
   * the event iteration completes.
   */
  method GenerateChatResponses(message: string, checkpointId: Option<string>, freshId: string, graph: Graph)
    returns (threadId: string, frames: seq<Frame>, error: Option<string>)
    ensures threadId == ThreadIdFor(checkpointId, freshId)
    ensures Emitted(frames, error) == StreamSpec(checkpointId, threadId, graph(message, threadId))
    ensures (exists i :: 0 <= i < |frames| && frames[i].CheckpointFrame?) <==> checkpointId.None?
    ensures checkpointId.None? ==> frames[0] == CheckpointFrame(threadId)
    ensures error.None? <==> graph(message, threadId).failure.None? && EventFrames(graph(message, threadId).events).error.None?
    ensures error.None? ==> |frames| > 0 && frames[|frames| - 1] == EndFrame
    ensures forall i :: 0 <= i < |frames| && frames[i].EndFrame? ==> error.None? && i == |frames| - 1
  {
    var header: seq<Frame>;
    if checkpointId.None? {
      threadId := freshId;
      header := [CheckpointFrame(threadId)];
    } else {
      threadId := checkpointId.value;
      header := [];
    }
    var run := graph(message, threadId);
    var body;
    body, error := StreamEvents(run.events);
    frames := header + body;
    if error.None? {
      if run.failure.Some? {
        error := run.failure;
      } else {
        frames := frames + [EndFrame];
      }
    }
  }
}
