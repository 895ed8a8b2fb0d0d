/**
 * The chat page of client/src/App.jsx: the submit guard and the two
 * messages a submit appends, the reducer that applies each server-sent event
 * to the last message's `content`, `sources` and `steps`, the New Chat reset,
 * and the title and create-or-update choice of the auto-save.
 */
module ClientApp {
  import opened Common

  datatype Status = Idle | Active | Completed

  datatype SearchingStep = SearchingStep(status: Status, query: string)
  datatype ReadingStep = ReadingStep(status: Status, urls: seq<string>)
  datatype WritingStep = WritingStep(status: Status)

  /** The `steps` record of an AI message: what the thinking panel shows. */
  datatype Steps = Steps(searching: SearchingStep, reading: ReadingStep, writing: WritingStep)

  /** A chat message: the user's text, or an AI answer with its sources and steps. */
  datatype UiMessage =
    | UserMessage(content: string)
    | AiMessage(content: string, sources: seq<string>, steps: Steps)

  /** A parsed server-sent event. */
  datatype StreamEvent =
    | CheckpointEvent(checkpointId: string)
    | SearchStartEvent(query: string)
    | SearchResultsEvent(urls: seq<string>)
    | ContentEvent(content: string)
    | EndEvent
    | UnknownEvent(kind: string)

  /** The placeholder a submit appends for the coming answer: empty, without sources, every step idle. */
  function Placeholder(): (m: UiMessage)
    ensures m.AiMessage? && m.content == "" && m.sources == []
    ensures m.steps.searching.status == Idle && m.steps.reading.status == Idle && m.steps.writing.status == Idle
  {
    AiMessage("", [], Steps(SearchingStep(Idle, ""), ReadingStep(Idle, []), WritingStep(Idle)))
  }

  // ---------------------------------------------------------------------
  // The submit guard (`!input.trim()`)
  // ---------------------------------------------------------------------

  /** The characters `String.prototype.trim` removes (white space and line terminators). */
  predicate IsJsWhitespace(c: char)
  {
    c == '\t' || c == '\n' || c == 11 as char || c == 12 as char || c == '\r' || c == ' ' ||
    c == 0xA0 as char || c == 0x1680 as char || (0x2000 <= c as int <= 0x200A) ||
    c == 0x2028 as char || c == 0x2029 as char || c == 0x202F as char || c == 0x205F as char ||
    c == 0x3000 as char || c == 0xFEFF as char
  }

  function TrimStart(s: string): (r: string)
    ensures |r| <= |s|
  {
    if s != [] && IsJsWhitespace(s[0]) then TrimStart(s[1..]) else s
  }

  function TrimEnd(s: string): (r: string)
    ensures |r| <= |s|
  {
    if s != [] && IsJsWhitespace(s[|s| - 1]) then TrimEnd(s[..|s| - 1]) else s
  }

  /** `s.trim()`: nothing is left exactly when every character is white space. */
  function Trim(s: string): (r: string)
    ensures |r| <= |s|
    ensures r == "" <==> IsBlank(s)
  {
    TrimStartBlank(s);
    if TrimStart(s) != [] then
      TrimEndKeepsNonBlank(TrimStart(s));
      TrimEnd(TrimStart(s))
    else TrimEnd(TrimStart(s))
  }

  predicate IsBlank(s: string)
  {
    forall i :: 0 <= i < |s| ==> IsJsWhitespace(s[i])
  }

  lemma {:induction false} TrimStartBlank(s: string)
    ensures TrimStart(s) == [] <==> IsBlank(s)
    ensures TrimStart(s) != [] ==> !IsJsWhitespace(TrimStart(s)[0])
  {
    if s != [] && IsJsWhitespace(s[0]) {
      TrimStartBlank(s[1..]);
      if IsBlank(s[1..]) {
        assert IsBlank(s) by {
          forall i | 0 <= i < |s| ensures IsJsWhitespace(s[i]) {
            if i > 0 { assert s[i] == s[1..][i - 1]; }
          }
        }
      } else {
        var i :| 0 <= i < |s[1..]| && !IsJsWhitespace(s[1..][i]);
        assert !IsJsWhitespace(s[i + 1]);
      }
    }
  }

  lemma {:induction false} TrimEndKeepsNonBlank(s: string)
    requires s != [] && !IsJsWhitespace(s[0])
    ensures TrimEnd(s) != []
  {
    if IsJsWhitespace(s[|s| - 1]) {
      TrimEndKeepsNonBlank(s[..|s| - 1]);
    }
  }

  // ---------------------------------------------------------------------
  // The event reducer
  // ---------------------------------------------------------------------

  /**
   * What one event does to the last message when it is an AI message;
   * `content` is the stream's accumulated content after the event.
   */
  function ApplyEvent(m: UiMessage, ev: StreamEvent, content: string): (r: UiMessage)
    ensures !m.AiMessage? || ev.CheckpointEvent? || ev.UnknownEvent? ==> r == m
    ensures m.AiMessage? ==> r.AiMessage?
    ensures m.AiMessage? && ev.SearchStartEvent? ==>
              r.steps.searching == SearchingStep(Active, ev.query) &&
              r.steps.reading == m.steps.reading && r.steps.writing == m.steps.writing &&
              r.content == m.content && r.sources == m.sources
    ensures m.AiMessage? && ev.SearchResultsEvent? ==>
              r.steps.searching == SearchingStep(Completed, m.steps.searching.query) &&
              r.steps.reading == ReadingStep(Active, ev.urls) && r.sources == ev.urls &&
              r.steps.writing == m.steps.writing && r.content == m.content
    ensures m.AiMessage? && ev.ContentEvent? ==>
              r.content == content && r.sources == m.sources &&
              r.steps.writing.status == Active &&
              r.steps.searching.status == (if m.steps.searching.status == Active then Completed else m.steps.searching.status) &&
              r.steps.reading.status == (if m.steps.reading.status == Active then Completed else m.steps.reading.status) &&
              r.steps.searching.query == m.steps.searching.query && r.steps.reading.urls == m.steps.reading.urls
    ensures m.AiMessage? && ev.EndEvent? ==>
              r == m.(steps := m.steps.(writing := WritingStep(Completed)))
  {
    if !m.AiMessage? then m
    else match ev
      case SearchStartEvent(query) =>
        m.(steps := m.steps.(searching := SearchingStep(Active, query)))
      case SearchResultsEvent(urls) =>
        m.(steps := m.steps.(searching := m.steps.searching.(status := Completed), reading := ReadingStep(Active, urls)),
           sources := urls)
      case ContentEvent(_) =>
        var reading := if m.steps.reading.status == Active then m.steps.reading.(status := Completed) else m.steps.reading;
        var searching := if m.steps.searching.status == Active then m.steps.searching.(status := Completed) else m.steps.searching;
        m.(steps := Steps(searching, reading, WritingStep(Active)), content := content)
      case EndEvent =>
        m.(steps := m.steps.(writing := m.steps.writing.(status := Completed)))
      case _ => m
  }

  /** The list after an event: only the last message can change. */
  function UpdateLast(msgs: seq<UiMessage>, ev: StreamEvent, content: string): (r: seq<UiMessage>)
    ensures |r| == |msgs|
    ensures forall i :: 0 <= i < |msgs| - 1 ==> r[i] == msgs[i]
    ensures msgs != [] ==> r[|r| - 1] == ApplyEvent(msgs[|msgs| - 1], ev, content)
  {
    if msgs == [] then msgs else msgs[..|msgs| - 1] + [ApplyEvent(msgs[|msgs| - 1], ev, content)]
  }

  /** The concatenation of the content fragments among the events. */
  function ContentOf(evs: seq<StreamEvent>): (r: string)
    ensures (forall i :: 0 <= i < |evs| ==> !evs[i].ContentEvent?) ==> r == ""
  {
    if evs == [] then ""
    else ContentOf(evs[..|evs| - 1]) + (if evs[|evs| - 1].ContentEvent? then evs[|evs| - 1].content else "")
  }

  /** Every fragment received occurs in the accumulated content. */
  lemma {:induction false} ContentOfHoldsFragments(evs: seq<StreamEvent>)
    ensures forall i :: 0 <= i < |evs| && evs[i].ContentEvent? ==> ContainsSub(ContentOf(evs), evs[i].content)
  {
    if evs != [] {
      var init := evs[..|evs| - 1];
      var last := evs[|evs| - 1];
      var piece := if last.ContentEvent? then last.content else "";
      ContentOfHoldsFragments(init);
      ContainsSubGrows(ContentOf(init), piece);
      assert OccursAt(ContentOf(init) + piece, piece, |ContentOf(init)|);
      forall i | 0 <= i < |evs| - 1 && evs[i].ContentEvent?
        ensures ContainsSub(ContentOf(evs), evs[i].content)
      {
        assert evs[i] == init[i];
      }
    }
  }

  /** A message under a stream, with the stream's accumulated content. */
  datatype StreamState = StreamState(message: UiMessage, content: string)

  /**
   * The message after the events, one reducer step at a time, with the
   * stream's content: what it started with followed by every fragment.
   */
  function Replay(m: UiMessage, acc: string, evs: seq<StreamEvent>): (r: StreamState)
    ensures r.content == acc + ContentOf(evs)
    ensures m.AiMessage? ==> r.message.AiMessage?
    ensures !m.AiMessage? ==> r.message == m
  {
    if evs == [] then StreamState(m, acc)
    else
      var s := Replay(m, acc, evs[..|evs| - 1]);
      var ev := evs[|evs| - 1];
      var piece := if ev.ContentEvent? then ev.content else "";
      var acc' := s.content + piece;
      assert acc' == acc + ContentOf(evs) by {
        assert ContentOf(evs) == ContentOf(evs[..|evs| - 1]) + piece;
      }
      StreamState(ApplyEvent(s.message, ev, acc'), acc')
  }

  /**
   * The shown answer is the concatenation of every content fragment received
   * so far in this stream.
   */
  lemma {:induction false} ReplayContent(m: UiMessage, acc: string, evs: seq<StreamEvent>)
    requires m.AiMessage? && m.content == acc
    ensures Replay(m, acc, evs).message.content == acc + ContentOf(evs)
  {
    if evs != [] {
      ReplayContent(m, acc, evs[..|evs| - 1]);
    }
  }

  /** Events that do not start or finish a search. */
  predicate NoSearchEvents(evs: seq<StreamEvent>)
  {
    forall i :: 0 <= i < |evs| ==> !evs[i].SearchStartEvent? && !evs[i].SearchResultsEvent?
  }

  /** Once content has arrived and no search follows, only the writing step is active. */
  lemma {:induction false} ContentSettlesSearch(m: UiMessage, acc: string, pre: seq<StreamEvent>, c: string, post: seq<StreamEvent>)
    requires m.AiMessage? && NoSearchEvents(post) && !(EndEvent in post)
    ensures var r := Replay(m, acc, pre + [ContentEvent(c)] + post).message;
            r.AiMessage? && r.steps.searching.status != Active && r.steps.reading.status != Active &&
            r.steps.writing.status == Active
  {
    if post == [] {
      assert pre + [ContentEvent(c)] + post == pre + [ContentEvent(c)];
      assert (pre + [ContentEvent(c)])[..|pre|] == pre;
    } else {
      var evs := pre + [ContentEvent(c)] + post;
      assert evs[..|evs| - 1] == pre + [ContentEvent(c)] + post[..|post| - 1];
      assert post[|post| - 1] in post;
      ContentSettlesSearch(m, acc, pre, c, post[..|post| - 1]);
    }
  }

  /**
   * A stream that ends after content with no later search leaves no step
   * active, and the writing step completed.
   */
  lemma StreamEndsSettled(m: UiMessage, acc: string, pre: seq<StreamEvent>, c: string, post: seq<StreamEvent>)
    requires m.AiMessage? && NoSearchEvents(post) && !(EndEvent in post)
    ensures var r := Replay(m, acc, pre + [ContentEvent(c)] + post + [EndEvent]).message;
            r.AiMessage? && r.steps.searching.status != Active && r.steps.reading.status != Active &&
            r.steps.writing.status == Completed
  {
    ContentSettlesSearch(m, acc, pre, c, post);
    var evs := pre + [ContentEvent(c)] + post + [EndEvent];
    assert evs[..|evs| - 1] == pre + [ContentEvent(c)] + post;
  }

  // ---------------------------------------------------------------------
  // Auto-save: title and create-or-update
  // ---------------------------------------------------------------------

  /** The first user message, if any (`msgs.find(m => m.type === 'user')`). */
  function FirstUserIndex(msgs: seq<UiMessage>): (r: Option<nat>)
    ensures r.Some? ==> r.value < |msgs| && msgs[r.value].UserMessage?
    ensures r.Some? ==> forall j :: 0 <= j < r.value ==> !msgs[j].UserMessage?
    ensures r.None? ==> forall j :: 0 <= j < |msgs| ==> !msgs[j].UserMessage?
  {
    if msgs == [] then None
    else if msgs[0].UserMessage? then Some(0)
    else match FirstUserIndex(msgs[1..])
      case None => None
      case Some(i) => Some(i + 1)
  }

  /** The saved title: the first 50 characters of the first user message, or "New Chat". */
  function ChatTitle(msgs: seq<UiMessage>): (r: string)
    ensures FirstUserIndex(msgs).None? ==> r == "New Chat"
    ensures FirstUserIndex(msgs).Some? ==>
              var first := msgs[FirstUserIndex(msgs).value].content;
              r <= first && |r| == (if |first| < 50 then |first| else 50)
  {
    match FirstUserIndex(msgs)
    case None => "New Chat"
    case Some(i) => var content := msgs[i].content; if |content| <= 50 then content else content[..50]
  }

  /** The JSON body saveChat sends. */
  datatype ChatPayload = ChatPayload(userId: string, title: string, messages: seq<UiMessage>, checkpointId: Option<string>)

  /** What saveChat does: nothing, a PUT to an existing chat, or a POST creating one. */
  datatype SaveAction =
    | NoSave
    | UpdateExisting(chatId: string, userId: string, body: ChatPayload)
    | CreateNew(body: ChatPayload)

  /** saveChat's decision for a signed-in user id (or none). */
  function SavePlan(msgs: seq<UiMessage>, cpId: Option<string>, chatId: Option<string>, user: Option<string>): (a: SaveAction)
    ensures a.NoSave? <==> user.None?
    ensures a.UpdateExisting? <==> user.Some? && Truthy(chatId)
    ensures a.UpdateExisting? ==> a.chatId == chatId.value && a.userId == user.value
    ensures !a.NoSave? ==> a.body == ChatPayload(user.value, ChatTitle(msgs), msgs, cpId)
  {
    if user.None? then NoSave
    else
      var body := ChatPayload(user.value, ChatTitle(msgs), msgs, cpId);
      if Truthy(chatId) then UpdateExisting(chatId.value, user.value, body) else CreateNew(body)
  }

  // ---------------------------------------------------------------------
  // The page state
  // ---------------------------------------------------------------------

  /** The stream a submit opens: the untrimmed text and the checkpoint parameter, if any. */
  datatype StreamRequest = StreamRequest(message: string, checkpointId: Option<string>)

  /** The state of the App component that the chat logic reads and writes. */
  class ChatView {
    var messages: seq<UiMessage>
    var input: string
    var isLoading: bool
    var checkpointId: Option<string>
    var currentChatId: Option<string>
    /** `currentContent` of the open stream. */
    var streamContent: string
    var streamOpen: bool

    /** While a message is streamed into, its content is the stream's accumulated content. */
    predicate Valid()
      reads this
    {
      streamOpen && messages != [] && messages[|messages| - 1].AiMessage? ==>
        messages[|messages| - 1].content == streamContent
    }

    constructor ()
      ensures Valid()
      ensures messages == [] && input == "" && !isLoading && !streamOpen
      ensures checkpointId.None? && currentChatId.None?
    {
      messages, input, isLoading := [], "", false;
      checkpointId, currentChatId := None, None;
      streamContent, streamOpen := "", false;
    }

    /**
     * handleSubmit: ignored for blank input or while loading; otherwise
     * clears the input, appends the user message and the AI placeholder and
     * opens a stream for the untrimmed text.
     */
    method HandleSubmit() returns (request: Option<StreamRequest>)
      requires Valid()
      modifies this
      ensures Valid()
      ensures IsBlank(old(input)) || old(isLoading) ==> request.None? && unchanged(this)
      ensures !IsBlank(old(input)) && !old(isLoading) ==>
                && messages == old(messages) + [UserMessage(old(input)), Placeholder()]
                && input == "" && isLoading && streamOpen && streamContent == ""
                && checkpointId == old(checkpointId) && currentChatId == old(currentChatId)
                && request == Some(StreamRequest(old(input), if Truthy(old(checkpointId)) then old(checkpointId) else None))
    {
      if Trim(input) == "" || isLoading {
        return None;
      }
      var userMessage := input;
      input := "";
      messages := messages + [UserMessage(userMessage)];
      isLoading := true;
      messages := messages + [Placeholder()];
      streamContent, streamOpen := "", true;
      request := Some(StreamRequest(userMessage, if Truthy(checkpointId) then checkpointId else None));
    }

    /** eventSource.onmessage: applies one event to the last message and the page state. */
    method OnMessage(ev: StreamEvent)
      requires Valid() && streamOpen
      modifies this
      ensures Valid()
      ensures streamContent == old(streamContent) + (if ev.ContentEvent? then ev.content else "")
      ensures messages == UpdateLast(old(messages), ev, streamContent)
      ensures ev.CheckpointEvent? || ev.UnknownEvent? ==> messages == old(messages)
      ensures ev.CheckpointEvent? ==> checkpointId == Some(ev.checkpointId)
      ensures !ev.CheckpointEvent? ==> checkpointId == old(checkpointId)
      ensures ev.EndEvent? ==> !isLoading && !streamOpen
      ensures !ev.EndEvent? ==> isLoading == old(isLoading) && streamOpen
      ensures input == old(input) && currentChatId == old(currentChatId)
    {
      match ev {
        case CheckpointEvent(id) =>
          checkpointId := Some(id);
        case ContentEvent(c) =>
          streamContent := streamContent + c;
          messages := UpdateLast(messages, ev, streamContent);
        case EndEvent =>
          messages := UpdateLast(messages, ev, streamContent);
          streamOpen := false;
          isLoading := false;
        case UnknownEvent(_) =>
        case _ =>
          messages := UpdateLast(messages, ev, streamContent);
      }
    }

    /** eventSource.onerror: closes the stream and stops loading. */
    method OnError()
      requires Valid()
      modifies this
      ensures Valid()
      ensures !streamOpen && !isLoading
      ensures messages == old(messages) && input == old(input) && checkpointId == old(checkpointId)
      ensures currentChatId == old(currentChatId)
    {
      streamOpen, isLoading := false, false;
    }

    /** handleNewChat: empties the conversation and forgets its checkpoint and chat id. */
    method HandleNewChat()
      requires Valid()
      modifies this
      ensures Valid()
      ensures messages == [] && checkpointId.None? && currentChatId.None? && input == ""
      ensures isLoading == old(isLoading) && streamOpen == old(streamOpen)
    {
      messages := [];
      checkpointId := None;
      currentChatId := None;
      input := "";
    }

    /** The auto-save effect: saves when there are messages and nothing is loading. */
    method AutoSave(user: Option<string>) returns (action: SaveAction)
      ensures messages == [] || isLoading ==> action == NoSave
      ensures messages != [] && !isLoading ==> action == SavePlan(messages, checkpointId, currentChatId, user)
    {
      action := NoSave;
      if |messages| > 0 && !isLoading {
        action := SavePlan(messages, checkpointId, currentChatId, user);
      }
    }

    /** A successful POST: later saves update the created chat. */
    method OnChatCreated(id: string)
      requires Valid()
      modifies this
      ensures Valid()
      ensures currentChatId == Some(id)
      ensures messages == old(messages) && checkpointId == old(checkpointId) && isLoading == old(isLoading)
    {
      currentChatId := Some(id);
    }
  }
}
