/** The streaming consumer: a left fold over the decoded lines that updates
    the repeat guard, stops at the first final line or when the guard trips,
    and otherwise accumulates the text of every line it keeps. */
module Stream {
  import opened Wrappers
  import opened Chunks
  import opened RepeatGuard

  /** What the loop carries from one line to the next. `closed` records
      whether the consumer closed the connection itself. */
  datatype State = State(guard: Guard, pieces: seq<string>, promptTokenCount: int,
                         responseTokenCount: int, closed: bool)

  const Start: State := State(Initial, [], 0, 0, false)

  /** How the loop ended: the input ran out, a final line arrived, or the
      repeat guard tripped. */
  datatype Ending = RanOut | FinalChunk | RepeatLoop

  /** The fold's result; `consumed` is the number of lines read. */
  datatype Outcome = Outcome(pieces: seq<string>, promptTokenCount: int,
                             responseTokenCount: int, closed: bool,
                             ending: Ending, consumed: nat)

  datatype Next = Continue(state: State) | Break(state: State, ending: Ending)

  /** `''.join` over the kept pieces. */
  function Join(pieces: seq<string>): string
    decreases |pieces|
  {
    if pieces == [] then "" else Join(pieces[..|pieces| - 1]) + pieces[|pieces| - 1]
  }

  lemma {:induction false} JoinAppend(a: seq<string>, b: seq<string>)
    ensures Join(a + b) == Join(a) + Join(b)
    decreases |b|
  {
    if b != [] {
      var n := |b|;
      var init := b[..n - 1];
      assert (a + b)[..|a + b| - 1] == a + init;
      assert (a + b)[|a + b| - 1] == b[n - 1];
      JoinAppend(a, init);
      assert Join(a + b) == Join(a) + Join(init) + b[n - 1];
    } else {
      assert a + b == a;
    }
  }

  /** One iteration of the loop on the line at `index`: look up the text and
      the flag, feed the guard, then stop on a final line (reading both counts,
      the second overwriting the first), stop when the guard trips, or keep
      the text. */
  function Step(st: State, c: Chunk, index: nat): (r: Result<Next, DecodeError>)
    ensures r.Failure? <==> !Readable(c) || (IsFinal(c) && !HasCounts(c))
    ensures r.Failure? ==> r.error.index == index
    ensures r.Success? ==> r.value.state.guard == Observe(st.guard, Text(c))
    ensures r.Success? ==> (r.value.Continue? <==> !IsFinal(c) && !Tripped(r.value.state.guard))
    ensures r.Success? && r.value.Continue? ==>
              r.value.state == st.(guard := r.value.state.guard, pieces := st.pieces + [Text(c)])
    ensures r.Success? && r.value.Break? ==>
              && r.value.state.pieces == st.pieces
              && r.value.state.closed
              && r.value.state.responseTokenCount == st.responseTokenCount
              && (r.value.ending == FinalChunk <==> IsFinal(c))
              && (r.value.ending == FinalChunk ==> r.value.state.promptTokenCount == c.evalCount.value)
              && (r.value.ending == RepeatLoop ==> r.value.state.promptTokenCount == st.promptTokenCount)
  {
    if !Readable(c) then Failure(DecodeError(index, ReadError(c)))
    else
      var text := c.content.value;
      var guard := Observe(st.guard, text);
      if c.done.value then
        if c.promptEvalCount.None? || c.evalCount.None? then
          Failure(DecodeError(index, CountsError(c)))
        else
          var first := st.(guard := guard, promptTokenCount := c.promptEvalCount.value);
          var second := first.(promptTokenCount := c.evalCount.value);
          Success(Break(second.(closed := true), FinalChunk))
      else if Tripped(guard) then
        Success(Break(st.(guard := guard, closed := true), RepeatLoop))
      else
        Success(Continue(st.(guard := guard, pieces := st.pieces + [text])))
  }

  function Finish(st: State, ending: Ending, consumed: nat): Outcome {
    Outcome(st.pieces, st.promptTokenCount, st.responseTokenCount, st.closed, ending, consumed)
  }

  /** The loop from line `i` on, in state `st`. */
  function Run(chunks: seq<Chunk>, i: nat, st: State): (r: Result<Outcome, DecodeError>)
    requires i <= |chunks|
    ensures r.Failure? ==> i <= r.error.index < |chunks|
    ensures r.Success? ==> i <= r.value.consumed <= |chunks|
    ensures r.Success? ==> r.value.responseTokenCount == st.responseTokenCount
    ensures r.Success? ==> st.pieces <= r.value.pieces
    ensures r.Success? ==> (|r.value.pieces| - |st.pieces| ==
              r.value.consumed - i - (if r.value.ending == RanOut then 0 else 1))
    ensures r.Success? && r.value.ending != RanOut ==> i < r.value.consumed
    ensures r.Success? ==> (r.value.ending == RanOut ==> r.value.consumed == |chunks|)
    ensures r.Success? ==> (r.value.closed <==> st.closed || r.value.ending != RanOut)
    ensures r.Success? && r.value.ending == RanOut ==> r.value.promptTokenCount == st.promptTokenCount
    ensures r.Success? && r.value.ending == RepeatLoop ==> r.value.promptTokenCount == st.promptTokenCount
    ensures r.Success? && r.value.ending == FinalChunk ==>
              && IsFinal(chunks[r.value.consumed - 1])
              && HasCounts(chunks[r.value.consumed - 1])
              && r.value.promptTokenCount == chunks[r.value.consumed - 1].evalCount.value
    decreases |chunks| - i
  {
    if i == |chunks| then Success(Finish(st, RanOut, i))
    else
      match Step(st, chunks[i], i)
      case Failure(e) => Failure(e)
      case Success(Break(st', ending)) => Success(Finish(st', ending, i + 1))
      case Success(Continue(st')) => Run(chunks, i + 1, st')
  }

  /** The whole loop over a stream of decoded lines. The connection is closed
      by the consumer exactly when it stopped early; the reported prompt count
      is the final line's `eval_count`, and the completion count stays 0. */
  function Consume(chunks: seq<Chunk>): (r: Result<Outcome, DecodeError>)
    ensures r.Failure? ==> r.error.index < |chunks|
    ensures r.Success? ==> r.value.consumed <= |chunks|
    ensures r.Success? && r.value.ending != RanOut ==> 0 < r.value.consumed
    ensures r.Success? ==> (r.value.closed <==> r.value.ending != RanOut)
    ensures r.Success? ==> r.value.responseTokenCount == 0
    ensures r.Success? && r.value.ending != FinalChunk ==> r.value.promptTokenCount == 0
    ensures r.Success? && r.value.ending == FinalChunk ==>
              && IsFinal(chunks[r.value.consumed - 1])
              && HasCounts(chunks[r.value.consumed - 1])
              && r.value.promptTokenCount == chunks[r.value.consumed - 1].evalCount.value
    ensures r.Success? ==> (|r.value.pieces| ==
              r.value.consumed - (if r.value.ending == RanOut then 0 else 1))
  {
    Run(chunks, 0, Start)
  }

  /** The loop as the source writes it, with a mutable guard, counters and
      piece list; it computes exactly the fold. */
  method ConsumeStream(chunks: seq<Chunk>) returns (r: Result<Outcome, DecodeError>)
    ensures r == Consume(chunks)
  {
    var repeatCounter: nat := 0;
    var repeatToken := "";
    var promptTokenCount := 0;
    var responseTokenCount := 0;
    var responseList: seq<string> := [];
    var i := 0;
    while i < |chunks|
      invariant i <= |chunks|
      invariant Run(chunks, i, State(Guard(repeatToken, repeatCounter), responseList,
                                     promptTokenCount, responseTokenCount, false))
                == Consume(chunks)
      decreases |chunks| - i
    {
      var c := chunks[i];
      if c.Unparsable? {
        return Failure(DecodeError(i, InvalidJson));
      }
      if c.content.None? {
        return Failure(DecodeError(i, MissingKey(MessageContent)));
      }
      if c.done.None? {
        return Failure(DecodeError(i, MissingKey(Done)));
      }
      var text := c.content.value;
      if text == repeatToken {
        repeatCounter := repeatCounter + 1;
      } else {
        repeatCounter := 0;
        repeatToken := text;
      }
      if c.done.value {
        if c.promptEvalCount.None? {
          return Failure(DecodeError(i, MissingKey(PromptEvalCount)));
        }
        promptTokenCount := c.promptEvalCount.value;
        if c.evalCount.None? {
          return Failure(DecodeError(i, MissingKey(EvalCount)));
        }
        promptTokenCount := c.evalCount.value;
        return Success(Outcome(responseList, promptTokenCount, responseTokenCount, true, FinalChunk, i + 1));
      } else if repeatCounter > Threshold {
        return Success(Outcome(responseList, promptTokenCount, responseTokenCount, true, RepeatLoop, i + 1));
      } else {
        responseList := responseList + [text];
      }
      i := i + 1;
    }
    return Success(Outcome(responseList, promptTokenCount, responseTokenCount, false, RanOut, i));
  }
}
