/**
 * The prompt side of the bot's generator (`jalRakshak-bot/main.py`): the
 * retrieved knowledge-base passages become a bulleted context block, and
 * `generate` either says goodbye at once or fills the prompt template with the
 * context cut to 2000 characters, the transcript cut to 1000 (or a
 * placeholder when there is none) and the user's query.
 */
module RagGenerator {
  import opened Wrappers
  import opened Text

  /** A retrieved passage; only its `page_content` is read. */
  datatype Doc = Doc(pageContent: string)

  /** What `generate` does: reply at once, or send this prompt to the language model. */
  datatype GenerateStep = Reply(content: string) | Invoke(prompt: string)

  const NoKnowledge: string := "No relevant information found in the knowledge base."

  const Farewell: string :=
    "Thank you for using JalRakshak AI Assistant! Feel free to ask more questions about rainwater harvesting anytime."

  const NoConversation: string := "No previous conversation."

  const ContextLimit: nat := 2000
  const ConversationLimit: nat := 1000

  /** The template text before `{context}`. */
  const TemplateHead: string :=
    "\nYou are JalRakshak AI Assistant for rainwater harvesting and water conservation.\n\nCONTEXT:\n"

  /** The template text between `{context}` and `{currConvo}`. */
  const TemplateHistory: string := "\n\nCONVERSATION HISTORY:\n"

  /** The template text between `{currConvo}` and `{query}`. */
  const TemplateQuery: string := "\n\nUSER QUERY: "

  /** The template text after `{query}`. */
  const TemplateTail: string :=
    "\n\nRespond clearly and concisely using the context. If context is insufficient, say so politely and provide general guidance.\nKeep responses under 300 words.\n"

  /** The line a passage contributes: "- " and its text. */
  function Bullet(d: Doc): string
  {
    "- " + d.pageContent
  }

  function Bullets(docs: seq<Doc>): (bs: seq<string>)
    ensures |bs| == |docs|
    ensures forall i :: 0 <= i < |docs| ==> bs[i] == Bullet(docs[i])
  {
    seq(|docs|, i requires 0 <= i < |docs| => Bullet(docs[i]))
  }

  /** `format_docs(retrieved_docs)`; `None` is a `None` list. */
  function FormatDocs(retrievedDocs: Option<seq<Doc>>): (r: string)
    ensures retrievedDocs.None? || retrievedDocs.value == [] ==> r == NoKnowledge
  {
    if retrievedDocs.None? || retrievedDocs.value == [] then NoKnowledge
    else Join("\n", Bullets(retrievedDocs.value))
  }

  /** A single passage gives a single bullet. */
  lemma OneDoc(d: Doc)
    ensures FormatDocs(Some([d])) == "- " + d.pageContent
  {
  }

  /** One more passage adds a newline and its bullet at the end: the bullets keep the retrieval order. */
  lemma FormatDocsSnoc(docs: seq<Doc>, d: Doc)
    requires docs != []
    ensures FormatDocs(Some(docs + [d])) == FormatDocs(Some(docs)) + "\n" + Bullet(d)
  {
    var bs := Bullets(docs + [d]);
    assert bs[..|bs| - 1] == Bullets(docs);
  }

  /** `prompt.format(context=..., currConvo=..., query=...)`. */
  function FillTemplate(context: string, currConvo: string, query: string): string
  {
    TemplateHead + context + TemplateHistory + currConvo + TemplateQuery + query + TemplateTail
  }

  /** The conversation argument: the transcript cut to 1000 characters, or the placeholder when it is empty. */
  function ConversationArgument(currConvo: string): (r: string)
    ensures currConvo == [] ==> r == NoConversation
    ensures currConvo != [] ==> r <= currConvo && |r| == if |currConvo| <= ConversationLimit then |currConvo| else ConversationLimit
  {
    if currConvo != [] then Take(currConvo, ConversationLimit) else NoConversation
  }

  /**
   * `generate(query, currConvo, isEnd)` up to the language-model call, with
   * the passages the retriever returned given as `retrievedDocs`.
   */
  function Generate(query: string, currConvo: string, isEnd: bool, retrievedDocs: Option<seq<Doc>>): (step: GenerateStep)
    ensures step.Reply? <==> isEnd
    ensures step.Reply? ==> step.content == Farewell
    ensures step.Invoke? ==>
      step.prompt == FillTemplate(Take(FormatDocs(retrievedDocs), ContextLimit), ConversationArgument(currConvo), query)
  {
    if isEnd then Reply(Farewell)
    else
      var contextContent := FormatDocs(retrievedDocs);
      Invoke(FillTemplate(Take(contextContent, ContextLimit), ConversationArgument(currConvo), query))
  }

  /**
   * The prompt never carries more than 2000 characters of context or 1000 of
   * conversation: its length is the template's plus at most those, plus the
   * query.
   */
  lemma PromptBounded(query: string, currConvo: string, retrievedDocs: Option<seq<Doc>>)
    ensures var step := Generate(query, currConvo, false, retrievedDocs);
      step.Invoke?
      && |step.prompt| <= |TemplateHead| + ContextLimit + |TemplateHistory| + ConversationLimit
                          + |TemplateQuery| + |query| + |TemplateTail|
  {
    assert |NoConversation| <= ConversationLimit;
  }

  /** In a text glued from seven pieces, the second and the sixth can be read back at their offsets. */
  lemma SevenPieces(head: string, context: string, history: string, convo: string, queryHead: string,
                    query: string, tail: string)
    ensures var p := head + context + history + convo + queryHead + query + tail;
      var k := |head| + |context| + |history| + |convo| + |queryHead|;
      p[|head|..|head| + |context|] == context && p[k..k + |query|] == query
  {
    var front := head + context;
    var p := front + history + convo + queryHead + query + tail;
    assert p[|head|..|head| + |context|] == front[|head|..];
    var back := front + history + convo + queryHead;
    assert p == back + query + tail;
    assert p[|back|..|back| + |query|] == query;
  }

  /** The prompt begins with the context block's opening characters and contains the query. */
  lemma PromptCarriesContextAndQuery(query: string, currConvo: string, retrievedDocs: Option<seq<Doc>>)
    ensures var step := Generate(query, currConvo, false, retrievedDocs);
      var context := Take(FormatDocs(retrievedDocs), ContextLimit);
      step.Invoke?
      && step.prompt[|TemplateHead|..|TemplateHead| + |context|] == context
      && Contains(step.prompt, query)
  {
    var context := Take(FormatDocs(retrievedDocs), ContextLimit);
    var conversation := ConversationArgument(currConvo);
    var p := FillTemplate(context, conversation, query);
    SevenPieces(TemplateHead, context, TemplateHistory, conversation, TemplateQuery, query, TemplateTail);
    var k := |TemplateHead| + |context| + |TemplateHistory| + |conversation| + |TemplateQuery|;
    ContainsAt(p, query, k);
  }
}
