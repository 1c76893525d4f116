/** The completion record handed back to callers: a message, a choice holding
    it, a usage block and the completion that wraps them, shaped after the
    hosted chat-completion object it imitates. */
module Records {
  import opened Wrappers
  import Decimal

  /** The only author role the record ever carries. */
  datatype Role = Assistant

  /** Why generation stopped; the consumer only ever reports `Stop`. */
  datatype FinishReason = Stop | Length | ToolCalls | ContentFilter | FunctionCall

  datatype Message = Message(content: Option<string>, role: Role)

  /** Token counts, kept as decimal text as the source stores them. */
  datatype Usage = Usage(promptTokens: string, completionTokens: string, totalTokens: string)

  datatype Choice = Choice(finishReason: FinishReason, index: int, message: Message)

  datatype ChatCompletion = ChatCompletion(
    id: string,
    choices: seq<Choice>,
    created: int,
    model: string,
    objectType: string,
    systemFingerprint: Option<string>,
    usage: Option<Usage>)

  const ObjectKind: string := "chat.completion"
  const Fingerprint: string := "system_fingerprint-stud"

  /** The schema every produced record follows, whatever ended the stream. */
  predicate HasFixedShape(r: ChatCompletion, model: string) {
    && |r.choices| == 1
    && r.choices[0].index == 0
    && r.choices[0].finishReason == Stop
    && r.choices[0].message.role == Assistant
    && r.choices[0].message.content.Some?
    && r.objectType == ObjectKind
    && r.model == model
    && r.systemFingerprint == Some(Fingerprint)
    && r.usage.Some?
  }

  /** The text of the single choice of a well-shaped record. */
  function ContentOf(r: ChatCompletion): string
    requires |r.choices| == 1 && r.choices[0].message.content.Some?
  {
    r.choices[0].message.content.value
  }

  /** Builds the record from the accumulated text and the two token costs;
      the identifier and timestamp come from the caller's clock. The usage
      strings read back as the costs and their sum. */
  function BuildCompletion(id: string, created: int, model: string, content: string,
                           inputCost: int, outputCost: int): (r: ChatCompletion)
    ensures HasFixedShape(r, model)
    ensures r.id == id && r.created == created
    ensures ContentOf(r) == content
    ensures Decimal.ParseInt(r.usage.value.promptTokens) == Some(inputCost)
    ensures Decimal.ParseInt(r.usage.value.completionTokens) == Some(outputCost)
    ensures Decimal.ParseInt(r.usage.value.totalTokens) == Some(inputCost + outputCost)
  {
    var totalCost := inputCost + outputCost;
    ChatCompletion(
      id := id,
      choices := [Choice(Stop, 0, Message(Some(content), Assistant))],
      created := created,
      model := model,
      objectType := ObjectKind,
      systemFingerprint := Some(Fingerprint),
      usage := Some(Usage(Decimal.IntToString(inputCost),
                          Decimal.IntToString(outputCost),
                          Decimal.IntToString(totalCost))))
  }
}
