/**
 * The research service's reply and its reading by `callPerplexity`
 * (index.js:168-193), and the chat-completion body the summariser returns in
 * the same shape (index.js:405-406).
 */
module Research {
  import opened Wrappers
  import opened Strings
  import opened Http

  /*
   * The parts of a chat-completion JSON body the worker reads. `None` is a
   * missing (or null) property; the other falsy values of a string property
   * collapse into "" .
   */
  datatype Message = Message(content: Option<string>)
  datatype Choice = Choice(message: Option<Message>)
  datatype ChatBody = ChatBody(choices: Option<seq<Choice>>, citations: Option<seq<string>>)

  /** What one research phase yields: generated text and its source URLs. */
  datatype Findings = Findings(content: string, citations: seq<string>)

  /** `data.choices?.[0]?.message?.content || ''`. */
  function ContentOf(body: ChatBody): (r: string)
    ensures r != "" <==>
      && body.choices.Some? && |body.choices.value| > 0
      && body.choices.value[0].message.Some?
      && body.choices.value[0].message.value.content.Some?
      && body.choices.value[0].message.value.content.value != ""
    ensures r != "" ==> r == body.choices.value[0].message.value.content.value
  {
    match body.choices
    case None => ""
    case Some(choices) =>
      if choices == [] then ""
      else match choices[0].message
        case None => ""
        case Some(message) => message.content.GetOr("")
  }

  /** The result object of `callPerplexity` on a successful reply. */
  function Normalise(body: ChatBody): (r: Findings)
    ensures r.content == ContentOf(body)
    ensures r.citations == (if body.citations.Some? then body.citations.value else [])
  {
    Findings(ContentOf(body), body.citations.GetOr([]))
  }

  /** A reply carrying exactly `findings`, as the research service sends it. */
  function ReplyBody(findings: Findings): ChatBody {
    ChatBody(Some([Choice(Some(Message(Some(findings.content))))]), Some(findings.citations))
  }

  /** Reading a reply gives back the text and citations it carries. */
  lemma NormaliseReadsReply(findings: Findings)
    ensures Normalise(ReplyBody(findings)) == findings
  {
  }

  function ResearchError(status: nat, errorText: string): string {
    "Perplexity error " + NatToString(status) + ": " + errorText
  }

  /**
   * `callPerplexity`: a rejected call throws its own error, a non-ok status
   * throws an error naming the status, an ok reply is normalised.
   */
  function CallResearch(reply: Reply<ChatBody>): (r: Result<Findings>)
    ensures reply.Thrown? ==> r == Err(reply.message)
    ensures reply.Response? && !IsOk(reply.status) ==>
      r.Err? && OccursAt(r.message, "Perplexity error " + NatToString(reply.status) + ": ", 0)
    ensures reply.Response? && IsOk(reply.status) ==> r == Ok(Normalise(reply.body))
  {
    match reply
    case Thrown(message) => Err(message)
    case Response(status, errorText, body) =>
      if !IsOk(status) then
        Err(ResearchError(status, errorText))
      else
        Ok(Normalise(body))
  }

  /** The status code can be read back from a research error's message. */
  lemma ResearchErrorNamesStatus(status: nat, errorText: string)
    ensures var m := ResearchError(status, errorText);
      var digits := m[|"Perplexity error "|..|"Perplexity error "| + |NatToString(status)|];
      AllDigits(digits) && DigitsValue(digits) == status
  {
    var prefix := "Perplexity error ";
    var m := ResearchError(status, errorText);
    assert m == prefix + NatToString(status) + (": " + errorText);
    assert m[|prefix|..|prefix| + |NatToString(status)|] == NatToString(status);
    NatToStringRoundTrip(status);
  }
}
