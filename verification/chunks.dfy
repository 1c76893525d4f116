/** One decoded line of the server's streamed reply. JSON parsing itself is
    not modelled: a line is either unparsable or an object whose four keys of
    interest may each be missing, as a Python dictionary lookup would find. */
module Chunks {
  import opened Wrappers

  datatype Chunk =
    | Unparsable
    | Parsed(content: Option<string>, done: Option<bool>,
             promptEvalCount: Option<int>, evalCount: Option<int>)

  /** The keys the consumer looks up, in the order it looks them up. */
  datatype Key = MessageContent | Done | PromptEvalCount | EvalCount

  datatype Reason = InvalidJson | MissingKey(key: Key)

  /** Why the line at `index` aborted the request. */
  datatype DecodeError = DecodeError(index: nat, reason: Reason)

  /** The line parsed and carries both the text and the `done` flag. */
  predicate Readable(c: Chunk) {
    c.Parsed? && c.content.Some? && c.done.Some?
  }

  /** A readable line that marks the end of generation. */
  predicate IsFinal(c: Chunk) {
    Readable(c) && c.done.value
  }

  /** Both token counts are present. */
  predicate HasCounts(c: Chunk) {
    c.Parsed? && c.promptEvalCount.Some? && c.evalCount.Some?
  }

  /** The text a line carries; empty when it carries none. */
  function Text(c: Chunk): string {
    if c.Parsed? && c.content.Some? then c.content.value else ""
  }

  function Texts(chunks: seq<Chunk>): seq<string> {
    seq(|chunks|, k requires 0 <= k < |chunks| => Text(chunks[k]))
  }

  /** The first failing lookup on a line that is not readable. */
  function ReadError(c: Chunk): Reason
    requires !Readable(c)
  {
    if c.Unparsable? then InvalidJson
    else if c.content.None? then MissingKey(MessageContent)
    else MissingKey(Done)
  }

  /** The first failing count lookup on a parsed line. */
  function CountsError(c: Chunk): Reason
    requires c.Parsed? && !HasCounts(c)
  {
    if c.promptEvalCount.None? then MissingKey(PromptEvalCount) else MissingKey(EvalCount)
  }

  /** An intermediate line carrying `text`. */
  function Plain(text: string): Chunk {
    Parsed(Some(text), Some(false), None, None)
  }

  /** A terminal line carrying `text` and both counts. */
  function Final(text: string, promptEvalCount: int, evalCount: int): Chunk {
    Parsed(Some(text), Some(true), Some(promptEvalCount), Some(evalCount))
  }
}
