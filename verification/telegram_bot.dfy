/**
 * The Telegram front end of server/telegram_handler.py: the per-user
 * conversation table mutated by `/start`, `/clear` and ordinary messages,
 * extraction of the reply from the graph's result and splitting of long
 * replies into 4096-character messages. The graph and fresh ids are
 * parameters; the bot transport is reduced to the list of replies sent.
 */
module TelegramBot {
  import opened Common

  type UserId = int

  /** One entry of `conversation_history`. */
  datatype Turn = Turn(role: string, content: string)

  /** The value stored per user in `user_conversations`. */
  datatype Conversation = Conversation(checkpointId: string, history: seq<Turn>)

  /** A message of the graph's result: its class name, its `content` if it has one, and `str(msg)`. */
  datatype GraphMessage = GraphMessage(className: string, content: Option<string>, printed: string)

  /** The graph, invoked with (user message, thread id): the result's messages, or the exception. */
  type Graph = (string, string) -> Result<seq<GraphMessage>, string>

  /** The fixed replies of the two commands (their texts are not modelled). */
  datatype CommandReply = WelcomeReply | ClearedReply

  /** Telegram's message-size limit used for splitting. */
  const ChunkSize := 4096

  /** The command that resets a conversation. */
  const ClearCommand := "/clear"

  /**
   * The apology sent when the turn raises (the leading emoji is not
   * modelled): it quotes the exception and always points the user at `/clear`.
   */
  function ErrorText(detail: string): (r: string)
    ensures ContainsSub(r, detail)
    ensures ContainsSub(r, "/clear")
  {
    var opening := "Sorry, I encountered an error: ";
    var advice := "\n\nPlease try again or use ";
    var closing := " to reset the conversation.";
    var r := opening + detail + advice + ClearCommand + closing;
    assert OccursAt(r, detail, |opening|) by {
      assert r[|opening|..|opening| + |detail|] == detail;
    }
    assert OccursAt(r, ClearCommand, |opening + detail + advice|) by {
      assert r == (opening + detail + advice) + ClearCommand + closing;
    }
    r
  }

  /** A message counts as an AI reply when its class name contains "AIMessage" and it has content. */
  predicate IsAIReply(m: GraphMessage)
  {
    ContainsSub(m.className, "AIMessage") && m.content.Some?
  }

  /** The position of the last AI reply, if any. */
  function LastAIIndex(msgs: seq<GraphMessage>): (r: Option<nat>)
    ensures r.Some? ==> r.value < |msgs| && IsAIReply(msgs[r.value])
    ensures r.Some? ==> forall j :: r.value < j < |msgs| ==> !IsAIReply(msgs[j])
    ensures r.None? ==> forall j :: 0 <= j < |msgs| ==> !IsAIReply(msgs[j])
  {
    if msgs == [] then None
    else if IsAIReply(msgs[|msgs| - 1]) then Some(|msgs| - 1)
    else LastAIIndex(msgs[..|msgs| - 1])
  }

  /**
   * The text the bot answers with: the content of the last AI reply; when
   * that is missing or empty, the last message's content, or its printed
   * form when it has no content.
   */
  function ReplyOf(msgs: seq<GraphMessage>): (r: string)
    ensures msgs == [] ==> r == ""
    ensures LastAIIndex(msgs).Some? && msgs[LastAIIndex(msgs).value].content.value != "" ==>
              r == msgs[LastAIIndex(msgs).value].content.value
    ensures msgs != [] && (LastAIIndex(msgs).None? || msgs[LastAIIndex(msgs).value].content.value == "") ==>
              var last := msgs[|msgs| - 1];
              r == if last.content.Some? then last.content.value else last.printed
  {
    if msgs == [] then ""
    else
      var ai := match LastAIIndex(msgs) case Some(i) => msgs[i].content.value case None => "";
      if ai != "" then ai
      else
        var last := msgs[|msgs| - 1];
        if last.content.Some? then last.content.value else last.printed
  }

  /** Reply extraction: walk the messages backwards up to the first AI reply, then fall back. */
  method ExtractReply(msgs: seq<GraphMessage>) returns (aiResponse: string)
    ensures aiResponse == ReplyOf(msgs)
    ensures msgs != [] && LastAIIndex(msgs).Some? && msgs[LastAIIndex(msgs).value].content.value != "" ==>
              aiResponse == msgs[LastAIIndex(msgs).value].content.value
    ensures msgs == [] ==> aiResponse == ""
    ensures msgs != [] && (LastAIIndex(msgs).None? || msgs[LastAIIndex(msgs).value].content.value == "") ==>
              var last := msgs[|msgs| - 1];
              aiResponse == if last.content.Some? then last.content.value else last.printed
  {
    aiResponse := "";
    if msgs != [] {
      var i := |msgs|;
      while i > 0
        invariant 0 <= i <= |msgs|
        invariant forall j :: i <= j < |msgs| ==> !IsAIReply(msgs[j])
        invariant aiResponse == ""
      {
        var msg := msgs[i - 1];
        if ContainsSub(msg.className, "AIMessage") && msg.content.Some? {
          aiResponse := msg.content.value;
          assert LastAIIndex(msgs) == Some(i - 1) by { LastAIIndexIs(msgs, i - 1); }
          break;
        }
        i := i - 1;
      }
      if aiResponse == "" {
        var lastMessage := msgs[|msgs| - 1];
        if lastMessage.content.Some? {
          aiResponse := lastMessage.content.value;
        } else {
          aiResponse := lastMessage.printed;
        }
      }
    }
  }

  /** The last AI reply is the one no later AI reply follows. */
  lemma {:induction false} LastAIIndexIs(msgs: seq<GraphMessage>, i: nat)
    requires i < |msgs| && IsAIReply(msgs[i])
    requires forall j :: i < j < |msgs| ==> !IsAIReply(msgs[j])
    ensures LastAIIndex(msgs) == Some(i)
  {
    if i < |msgs| - 1 {
      LastAIIndexIs(msgs[..|msgs| - 1], i);
    }
  }

  /** Number of messages a reply of length n is sent as. */
  function ChunkCount(n: nat): (k: nat)
    ensures n <= ChunkSize ==> k == 1
    ensures n > ChunkSize ==> (k - 1) * ChunkSize < n <= k * ChunkSize
  {
    if n > ChunkSize then (n + ChunkSize - 1) / ChunkSize else 1
  }

  /**
   * Reply splitting: a reply over 4096 characters goes out as consecutive
   * 4096-character slices (the last possibly shorter); any other reply as
   * one message.
   */
  method SplitReply(text: string) returns (chunks: seq<string>)
    ensures Concat(chunks) == text
    ensures |chunks| == ChunkCount(|text|)
    ensures forall k :: 0 <= k < |chunks| ==> |chunks[k]| <= ChunkSize
    ensures forall k :: 0 <= k < |chunks| - 1 ==> |chunks[k]| == ChunkSize
    ensures |text| > ChunkSize ==> forall k :: 0 <= k < |chunks| ==> chunks[k] != ""
  {
    if |text| > ChunkSize {
      chunks := [];
      var i := 0;
      while i < |text|
        invariant 0 <= i <= |text|
        invariant Concat(chunks) == text[..i]
        invariant i < |text| ==> i == |chunks| * ChunkSize
        invariant i == |text| ==> (|chunks| - 1) * ChunkSize < i <= |chunks| * ChunkSize
        invariant forall k :: 0 <= k < |chunks| ==> 0 < |chunks[k]| <= ChunkSize
        invariant forall k :: 0 <= k < |chunks| - 1 ==> |chunks[k]| == ChunkSize
        invariant i < |text| ==> forall k :: 0 <= k < |chunks| ==> |chunks[k]| == ChunkSize
      {
        var end := if i + ChunkSize <= |text| then i + ChunkSize else |text|;
        var chunk := text[i..end];
        ConcatAppend(chunks, chunk);
        assert text[..i] + chunk == text[..end];
        chunks := chunks + [chunk];
        i := end;
      }
      assert text[..i] == text;
      ChunkCountBounds(|text|, |chunks|);
    } else {
      chunks := [text];
    }
  }

  /** k slices are needed exactly when n fills more than k - 1 of them but no more than k. */
  lemma ChunkCountBounds(n: nat, k: nat)
    requires n > ChunkSize
    requires (k - 1) * ChunkSize < n <= k * ChunkSize
    ensures ChunkCount(n) == k
  {
  }

  /** `user_conversations`. */
  class Conversations {
    var table: map<UserId, Conversation>

    constructor ()
      ensures table == map[]
    {
      table := map[];
    }

    /** /start: creates a fresh entry only for a user without one. */
    method Start(user: UserId, freshId: string) returns (reply: CommandReply)
      modifies this
      ensures user in old(table) ==> table == old(table)
      ensures user !in old(table) ==> table == old(table)[user := Conversation(freshId, [])]
      ensures reply == WelcomeReply
    {
      if user !in table {
        table := table[user := Conversation(freshId, [])];
      }
      reply := WelcomeReply;
    }

    /** /clear: resets an existing entry; an absent user stays absent. */
    method Clear(user: UserId, freshId: string) returns (reply: CommandReply)
      modifies this
      ensures user in old(table) ==> table == old(table)[user := Conversation(freshId, [])]
      ensures user !in old(table) ==> table == old(table)
      ensures reply == ClearedReply
    {
      if user in table {
        table := table[user := Conversation(freshId, [])];
      }
      reply := ClearedReply;
    }

    /**
     * A text message: makes sure the user has an entry, runs the graph on
     * that entry's thread, sends the reply in chunks and records both turns;
     * if the graph raises, sends one apology and records nothing.
     */
    method HandleMessage(user: UserId, text: string, freshId: string, graph: Graph)
      returns (threadId: string, replies: seq<string>)
      modifies this
      ensures threadId == if user in old(table) then old(table)[user].checkpointId else freshId
      ensures user in table && table[user].checkpointId == threadId
      ensures forall u :: u != user ==> (u in table <==> u in old(table)) && (u in table ==> table[u] == old(table)[u])
      ensures graph(text, threadId).Err? ==>
                replies == [ErrorText(graph(text, threadId).error)] &&
                table[user].history == (if user in old(table) then old(table)[user].history else [])
      ensures graph(text, threadId).Ok? ==>
                var answer := ReplyOf(graph(text, threadId).value);
                Concat(replies) == answer && |replies| == ChunkCount(|answer|) &&
                (forall k :: 0 <= k < |replies| ==> |replies[k]| <= ChunkSize) &&
                (forall k :: 0 <= k < |replies| - 1 ==> |replies[k]| == ChunkSize) &&
                table[user].history ==
                  (if user in old(table) then old(table)[user].history else []) +
                  [Turn("user", text), Turn("assistant", answer)]
    {
      if user !in table {
        table := table[user := Conversation(freshId, [])];
      }
      var convInfo := table[user];
      threadId := convInfo.checkpointId;
      var result := graph(text, threadId);
      if result.Err? {
        replies := [ErrorText(result.error)];
        return;
      }
      var aiResponse := ExtractReply(result.value);
      replies := SplitReply(aiResponse);
      var history := convInfo.history + [Turn("user", text)] + [Turn("assistant", aiResponse)];
      table := table[user := convInfo.(history := history)];
    }
  }
}
