/**
 * The chat endpoint of the bot's web service (`jalRakshak-bot/app.py`): the
 * client's message history is flattened into a short "Role: text" transcript
 * for the retrieval-augmented generator, and a request that ends the
 * conversation is answered at once without calling the generator.
 */
module ChatServer {
  import opened Wrappers
  import opened Text

  /** One history entry; a missing "role" or "content" key is `None`. */
  datatype Message = Message(role: Option<string>, content: Option<string>)

  datatype ChatRequest = ChatRequest(query: string, conversationHistory: seq<Message>, isEnd: bool)

  datatype ChatResponse = ChatResponse(response: string, conversationId: Option<string>)

  /** What the endpoint does with a request: answer it at once, or hand it to `generate`. */
  datatype ChatStep =
    | Respond(reply: ChatResponse)
    | CallGenerate(query: string, currConvo: string, isEnd: bool)

  /** How many of the latest messages the transcript keeps. */
  const HistoryWindow: nat := 6

  /** Message text longer than this is cut. */
  const ContentLimit: nat := 200

  const Ellipsis: string := "..."

  const EndOfConversation: string := "Conversation ended. Thank you for using JalRakshak AI Assistant!"

  /** "User" for the role "user", "Assistant" for any other role or none. */
  function RoleName(m: Message): (r: string)
    ensures r == "User" <==> m.role == Some("user")
    ensures r == "User" || r == "Assistant"
  {
    if m.role == Some("user") then "User" else "Assistant"
  }

  /** A message's text, cut to its first 200 characters plus "..." when longer. */
  function Clip(content: string): (r: string)
    ensures |r| <= ContentLimit + |Ellipsis|
    ensures |content| <= ContentLimit ==> r == content
    ensures |content| > ContentLimit ==> r == content[..ContentLimit] + Ellipsis && content[..ContentLimit] <= r
  {
    if |content| > ContentLimit then content[..ContentLimit] + Ellipsis else content
  }

  /** The transcript line of one message. */
  function Line(m: Message): string
  {
    RoleName(m) + ": " + Clip(m.content.GetOr("")) + "\n"
  }

  /** The lines of `ms`, in order. */
  function Lines(ms: seq<Message>): string
  {
    if ms == [] then "" else Line(ms[0]) + Lines(ms[1..])
  }

  lemma {:induction false} LinesSnoc(ms: seq<Message>, m: Message)
    ensures Lines(ms + [m]) == Lines(ms) + Line(m)
  {
    if ms == [] {
      assert [m][1..] == [];
    } else {
      assert (ms + [m])[1..] == ms[1..] + [m];
      LinesSnoc(ms[1..], m);
    }
  }

  /** `conversation_history[-6:]`: the last six messages, or all of them when there are fewer. */
  function LastWindow(history: seq<Message>): (w: seq<Message>)
    ensures |w| == if |history| <= HistoryWindow then |history| else HistoryWindow
    ensures w == history[|history| - |w|..]
  {
    if |history| <= HistoryWindow then history else history[|history| - HistoryWindow..]
  }

  /**
   * The transcript `format_conversation_history` produces: empty for an empty
   * history, otherwise the lines of the last six messages with the surrounding
   * whitespace stripped.
   */
  function FormatHistory(history: seq<Message>): (r: string)
    ensures history == [] ==> r == ""
    ensures r == [] || (!IsSpace(r[0]) && !IsSpace(r[|r| - 1]))
  {
    if history == [] then "" else Trim(Lines(LastWindow(history)))
  }

  /** `format_conversation_history(conversation_history)`, accumulating the transcript line by line. */
  method FormatConversationHistory(history: seq<Message>) returns (convoText: string)
    ensures convoText == FormatHistory(history)
  {
    if |history| == 0 {
      return "";
    }
    var window := LastWindow(history);
    var text := "";
    var i := 0;
    while i < |window|
      invariant 0 <= i <= |window|
      invariant text == Lines(window[..i])
    {
      var msg := window[i];
      var role := if msg.role == Some("user") then "User" else "Assistant";
      var content := msg.content.GetOr("");
      if |content| > ContentLimit {
        content := content[..ContentLimit] + Ellipsis;
      }
      var line := role + ": " + content + "\n";
      assert text + line == Lines(window[..i + 1]) by {
        assert line == Line(msg);
        LinesSnoc(window[..i], msg);
        assert window[..i + 1] == window[..i] + [msg];
      }
      text := text + line;
      i := i + 1;
    }
    assert window[..i] == window;
    return Trim(text);
  }

  /** Messages before the last six play no part in the transcript. */
  lemma OnlyLastSixCount(earlier: seq<Message>, history: seq<Message>)
    requires |history| >= HistoryWindow
    ensures FormatHistory(earlier + history) == FormatHistory(history)
  {
    var all := earlier + history;
    assert all[|all| - HistoryWindow..] == history[|history| - HistoryWindow..];
    assert LastWindow(all) == LastWindow(history);
    assert all != [] && history != [];
  }

  /** A text whose first character is not whitespace keeps its start when stripped, up to its last non-space. */
  lemma {:induction false} TrimKeepsStart(s: string, n: nat)
    requires n < |s| && !IsSpace(s[0]) && !IsSpace(s[n])
    ensures n < |Trim(s)| && Trim(s)[..n + 1] == s[..n + 1]
  {
    var t := TrimStart(s);
    assert t == s;
    var r := TrimEnd(t);
  }

  /**
   * A non-empty history gives a non-empty transcript that opens with the role
   * of the oldest message in the window, followed by a colon.
   */
  lemma TranscriptOpensWithRole(history: seq<Message>)
    requires history != []
    ensures var role := RoleName(LastWindow(history)[0]);
      |role| < |FormatHistory(history)| && FormatHistory(history)[..|role| + 1] == role + ":"
  {
    var w := LastWindow(history);
    var s := Lines(w);
    var role := RoleName(w[0]);
    assert s == role + ": " + Clip(w[0].content.GetOr("")) + "\n" + Lines(w[1..]);
    assert s[0] == role[0] && s[|role|] == ':';
    TrimKeepsStart(s, |role|);
    assert s[..|role| + 1] == role + ":";
  }

  /** The `/chat` endpoint's decision for a request. */
  function Chat(request: ChatRequest): (step: ChatStep)
    ensures step.Respond? <==> request.isEnd
    ensures step.Respond? ==> step.reply == ChatResponse(EndOfConversation, None)
    ensures step.CallGenerate? ==>
      step.query == request.query && !step.isEnd
      && step.currConvo == FormatHistory(request.conversationHistory)
  {
    if request.isEnd then Respond(ChatResponse(EndOfConversation, None))
    else CallGenerate(request.query, FormatHistory(request.conversationHistory), request.isEnd)
  }
}
