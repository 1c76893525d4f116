/** A declarative account of what the consumer returns, stated without the
    loop: the repeat counter of each line is read off the run of equal texts
    ending there, the stream ends at the first line that is unreadable, final
    or over the repeat threshold, and the result is determined by that line. */
module Reference {
  import opened Wrappers
  import opened Chunks
  import opened RepeatGuard
  import opened Stream

  /** The texts as the guard sees them: the initial empty token, then one
      text per line. */
  function GuardInput(chunks: seq<Chunk>): seq<string> {
    [""] + Texts(chunks)
  }

  /** The guard's counter just after line `i` has been read. */
  function RepeatCount(chunks: seq<Chunk>, i: nat): nat
    requires i < |chunks|
  {
    RunLength(GuardInput(chunks), i + 1) - 1
  }

  /** Line `i` stops the loop, if it is reached. */
  predicate Ends(chunks: seq<Chunk>, i: nat)
    requires i < |chunks|
  {
    !Readable(chunks[i]) || IsFinal(chunks[i]) || RepeatCount(chunks, i) > Threshold
  }

  predicate NoEndBefore(chunks: seq<Chunk>, n: nat)
    requires n <= |chunks|
  {
    forall k: nat :: k < n ==> !Ends(chunks, k)
  }

  predicate FirstEnd(chunks: seq<Chunk>, i: nat) {
    i < |chunks| && Ends(chunks, i) && NoEndBefore(chunks, i)
  }

  /** The result when line `i` is the first line that stops the loop. */
  function EndAt(chunks: seq<Chunk>, i: nat): Result<Outcome, DecodeError>
    requires i < |chunks|
  {
    var c := chunks[i];
    var kept := Texts(chunks)[..i];
    if !Readable(c) then Failure(DecodeError(i, ReadError(c)))
    else if IsFinal(c) then
      if !HasCounts(c) then Failure(DecodeError(i, CountsError(c)))
      else Success(Outcome(kept, c.evalCount.value, 0, true, FinalChunk, i + 1))
    else Success(Outcome(kept, 0, 0, true, RepeatLoop, i + 1))
  }

  /** What consuming `chunks` should give. */
  ghost function Specified(chunks: seq<Chunk>): Result<Outcome, DecodeError> {
    if exists i: nat :: FirstEnd(chunks, i) then
      var i: nat :| FirstEnd(chunks, i);
      EndAt(chunks, i)
    else
      Success(Outcome(Texts(chunks), 0, 0, false, RanOut, |chunks|))
  }

  /** The first stopping line is unique, so it alone decides the result. */
  lemma SpecifiedAtFirstEnd(chunks: seq<Chunk>, i: nat)
    requires FirstEnd(chunks, i)
    ensures Specified(chunks) == EndAt(chunks, i)
  {
  }

  /** With no stopping line at all, the whole input is kept. */
  lemma SpecifiedWithoutEnd(chunks: seq<Chunk>)
    requires NoEndBefore(chunks, |chunks|)
    ensures Specified(chunks) == Success(Outcome(Texts(chunks), 0, 0, false, RanOut, |chunks|))
  {
  }

  /** The loop state after `i` lines that did not stop it. */
  function StateAfter(chunks: seq<Chunk>, i: nat): State
    requires i <= |chunks|
  {
    State(GuardAt(GuardInput(chunks), i), Texts(chunks)[..i], 0, 0, false)
  }

  lemma {:induction false} RunFromPrefix(chunks: seq<Chunk>, i: nat)
    requires i <= |chunks|
    requires NoEndBefore(chunks, i)
    ensures Run(chunks, i, StateAfter(chunks, i)) == Specified(chunks)
    decreases |chunks| - i
  {
    var xs := GuardInput(chunks);
    if i == |chunks| {
      assert Texts(chunks)[..i] == Texts(chunks);
      SpecifiedWithoutEnd(chunks);
    } else {
      var c := chunks[i];
      ObserveExtendsRun(xs, i + 1);
      assert xs[i + 1] == Text(c);
      if Ends(chunks, i) {
        SpecifiedAtFirstEnd(chunks, i);
      } else {
        assert Texts(chunks)[..i] + [Text(c)] == Texts(chunks)[..i + 1];
        assert NoEndBefore(chunks, i + 1) by {
          forall k: nat | k < i + 1
            ensures !Ends(chunks, k)
          {
            if k < i {
              assert !Ends(chunks, k);
            }
          }
        }
        RunFromPrefix(chunks, i + 1);
      }
    }
  }

  /** The consumer computes exactly the declarative result. */
  lemma ConsumeMatchesReference(chunks: seq<Chunk>)
    ensures Consume(chunks) == Specified(chunks)
  {
    assert Texts(chunks)[..0] == [];
    assert StateAfter(chunks, 0) == Start;
    RunFromPrefix(chunks, 0);
  }
}
