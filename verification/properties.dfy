/** Properties of the streaming consumer, each derived from the declarative
    reference: where the loop stops, what it keeps, and what it never reads. */
module StreamProperties {
  import opened Wrappers
  import opened Chunks
  import opened RepeatGuard
  import opened Stream
  import opened Reference

  /** Either some line stops the loop, or none does. */
  lemma {:induction false} EndOrNone(chunks: seq<Chunk>, n: nat)
    requires n <= |chunks|
    requires NoEndBefore(chunks, n)
    ensures NoEndBefore(chunks, |chunks|) || exists i: nat :: FirstEnd(chunks, i)
    decreases |chunks| - n
  {
    if n < |chunks| {
      if Ends(chunks, n) {
        assert FirstEnd(chunks, n);
      } else {
        assert NoEndBefore(chunks, n + 1) by {
          forall k: nat | k < n + 1
            ensures !Ends(chunks, k)
          {
            if k < n {
              assert !Ends(chunks, k);
            }
          }
        }
        EndOrNone(chunks, n + 1);
      }
    }
  }

  /** The first final line ends the loop: its text and everything after it
      are left out, and its `eval_count` becomes the reported prompt count,
      whatever the repeat counter says at that line. */
  lemma FirstFinalChunkEndsStream(chunks: seq<Chunk>, i: nat)
    requires i < |chunks|
    requires IsFinal(chunks[i]) && HasCounts(chunks[i])
    requires NoEndBefore(chunks, i)
    ensures Consume(chunks) ==
              Success(Outcome(Texts(chunks)[..i], chunks[i].evalCount.value, 0, true, FinalChunk, i + 1))
  {
    ConsumeMatchesReference(chunks);
    SpecifiedAtFirstEnd(chunks, i);
  }

  /** A readable, non-final line whose repeat counter exceeds the threshold
      ends the loop through the guard, keeping only the lines before it. */
  lemma GuardStopsAboveThreshold(chunks: seq<Chunk>, i: nat)
    requires i < |chunks|
    requires Readable(chunks[i]) && !IsFinal(chunks[i])
    requires RepeatCount(chunks, i) > Threshold
    requires NoEndBefore(chunks, i)
    ensures Consume(chunks) == Success(Outcome(Texts(chunks)[..i], 0, 0, true, RepeatLoop, i + 1))
  {
    ConsumeMatchesReference(chunks);
    SpecifiedAtFirstEnd(chunks, i);
  }

  /** A stream in which no line stops the loop is kept whole, with zero
      counts, and the consumer does not close the connection itself. */
  lemma RanOutKeepsEverything(chunks: seq<Chunk>)
    requires NoEndBefore(chunks, |chunks|)
    ensures Consume(chunks) == Success(Outcome(Texts(chunks), 0, 0, false, RanOut, |chunks|))
  {
    ConsumeMatchesReference(chunks);
    SpecifiedWithoutEnd(chunks);
  }

  /** A line that cannot be decoded aborts the request when the loop reaches
      it, as does a final line without both counts; no outcome is produced. */
  lemma DecodeFailureAborts(chunks: seq<Chunk>, i: nat)
    requires i < |chunks| && NoEndBefore(chunks, i)
    requires !Readable(chunks[i]) || (IsFinal(chunks[i]) && !HasCounts(chunks[i]))
    ensures !Readable(chunks[i]) ==> Consume(chunks) == Failure(DecodeError(i, ReadError(chunks[i])))
    ensures Readable(chunks[i]) ==> Consume(chunks) == Failure(DecodeError(i, CountsError(chunks[i])))
  {
    ConsumeMatchesReference(chunks);
    SpecifiedAtFirstEnd(chunks, i);
  }

  /** The request fails exactly when the first stopping line is undecodable
      or is a final line missing a count, and the error names that line. */
  lemma FailsIffFirstEndIsBad(chunks: seq<Chunk>)
    ensures Consume(chunks).Failure? <==>
              exists i: nat :: FirstEnd(chunks, i) &&
                (!Readable(chunks[i]) || (IsFinal(chunks[i]) && !HasCounts(chunks[i])))
    ensures Consume(chunks).Failure? ==> FirstEnd(chunks, Consume(chunks).error.index)
  {
    ConsumeMatchesReference(chunks);
    EndOrNone(chunks, 0);
    if exists i: nat :: FirstEnd(chunks, i) {
      var i: nat :| FirstEnd(chunks, i);
      SpecifiedAtFirstEnd(chunks, i);
    } else {
      SpecifiedWithoutEnd(chunks);
    }
  }

  /** Every kept piece is, in order, the text of a line that was readable,
      not final, and had a repeat counter of at most the threshold. */
  lemma KeptPiecesAreQuietPrefix(chunks: seq<Chunk>)
    requires Consume(chunks).Success?
    ensures Consume(chunks).value.pieces == Texts(chunks)[..|Consume(chunks).value.pieces|]
    ensures forall k: nat :: k < |Consume(chunks).value.pieces| ==>
              Readable(chunks[k]) && !IsFinal(chunks[k]) && RepeatCount(chunks, k) <= Threshold
    ensures Consume(chunks).value.ending == RanOut ==> Consume(chunks).value.pieces == Texts(chunks)
  {
    ConsumeMatchesReference(chunks);
    EndOrNone(chunks, 0);
    if exists i: nat :: FirstEnd(chunks, i) {
      var i: nat :| FirstEnd(chunks, i);
      SpecifiedAtFirstEnd(chunks, i);
      assert |Consume(chunks).value.pieces| == i;
      forall k: nat | k < i
        ensures Readable(chunks[k]) && !IsFinal(chunks[k]) && RepeatCount(chunks, k) <= Threshold
      {
        assert !Ends(chunks, k);
      }
    } else {
      SpecifiedWithoutEnd(chunks);
      assert |Consume(chunks).value.pieces| == |chunks|;
      forall k: nat | k < |chunks|
        ensures Readable(chunks[k]) && !IsFinal(chunks[k]) && RepeatCount(chunks, k) <= Threshold
      {
        assert !Ends(chunks, k);
      }
      assert Texts(chunks)[..|chunks|] == Texts(chunks);
    }
  }

  /** The guard ends the loop exactly when the last line read is readable,
      not final, and has a repeat counter above the threshold. */
  lemma GuardEndingIff(chunks: seq<Chunk>)
    requires Consume(chunks).Success?
    ensures var o := Consume(chunks).value;
            o.ending == RepeatLoop <==>
              && 0 < o.consumed <= |chunks|
              && Readable(chunks[o.consumed - 1])
              && !IsFinal(chunks[o.consumed - 1])
              && RepeatCount(chunks, o.consumed - 1) > Threshold
  {
    ConsumeMatchesReference(chunks);
    EndOrNone(chunks, 0);
    if exists i: nat :: FirstEnd(chunks, i) {
      var i: nat :| FirstEnd(chunks, i);
      SpecifiedAtFirstEnd(chunks, i);
    } else {
      SpecifiedWithoutEnd(chunks);
      if 0 < |chunks| {
        assert !Ends(chunks, |chunks| - 1);
      }
    }
  }

  lemma {:induction false} RunIgnoresSuffix(chunks: seq<Chunk>, rest: seq<Chunk>, i: nat, st: State)
    requires i <= |chunks|
    requires Run(chunks, i, st).Failure? || Run(chunks, i, st).value.ending != RanOut
    ensures Run(chunks + rest, i, st) == Run(chunks, i, st)
    decreases |chunks| - i
  {
    assert (chunks + rest)[i] == chunks[i];
    match Step(st, chunks[i], i)
    case Failure(e) =>
    case Success(Break(st', ending)) =>
    case Success(Continue(st')) =>
      RunIgnoresSuffix(chunks, rest, i + 1, st');
  }

  /** Once the loop has stopped, nothing after the stopping line is ever
      looked at: appending more lines to the stream changes nothing. */
  lemma LaterChunksNeverRead(chunks: seq<Chunk>, rest: seq<Chunk>)
    requires Consume(chunks).Failure? || Consume(chunks).value.ending != RanOut
    ensures Consume(chunks + rest) == Consume(chunks)
  {
    RunIgnoresSuffix(chunks, rest, 0, Start);
  }

  /** Inside a run of lines with the same text `t`, started after a line with
      a different text (or, at the very start, with `t` different from the
      guard's initial empty token), the counter at the `k`-th line of the run
      is `k`. */
  lemma RepeatCountInRun(chunks: seq<Chunk>, s: nat, n: nat, t: string)
    requires s + n <= |chunks|
    requires GuardInput(chunks)[s] != t
    requires forall k :: s <= k < s + n ==> Text(chunks[k]) == t
    ensures forall k: nat :: s <= k < s + n ==> RepeatCount(chunks, k) == k - s
  {
  }

  /** Texts of six copies of `t` after a prefix. */
  lemma SixCopiesKept(chunks: seq<Chunk>, s: nat, t: string)
    requires s + 6 <= |chunks|
    requires forall k :: s <= k < s + 6 ==> Text(chunks[k]) == t
    ensures Texts(chunks)[..s + 6] == Texts(chunks)[..s] + [t, t, t, t, t, t]
  {
  }

  /** A run of seven identical intermediate lines, after a different text:
      the first six copies are kept, the seventh trips the guard, and the
      connection is closed. */
  lemma SixCopiesBeforeSeventh(chunks: seq<Chunk>, s: nat, t: string)
    requires s + 7 <= |chunks|
    requires NoEndBefore(chunks, s)
    requires GuardInput(chunks)[s] != t
    requires forall k :: s <= k < s + 7 ==> chunks[k] == Plain(t)
    ensures Consume(chunks) ==
              Success(Outcome(Texts(chunks)[..s] + [t, t, t, t, t, t], 0, 0, true, RepeatLoop, s + 7))
  {
    RepeatCountInRun(chunks, s, 7, t);
    assert NoEndBefore(chunks, s + 6) by {
      forall k: nat | k < s + 6
        ensures !Ends(chunks, k)
      {
        if k < s {
          assert !Ends(chunks, k);
        } else {
          assert chunks[k] == Plain(t);
        }
      }
    }
    GuardStopsAboveThreshold(chunks, s + 6);
    SixCopiesKept(chunks, s, t);
  }

  /** A final line that is itself the seventh copy in a run: the final-line
      test comes first, so the loop ends normally and reports the counts,
      although the counter is above the threshold. */
  lemma FinalChunkBeatsGuard(chunks: seq<Chunk>, s: nat, t: string, p: int, e: int)
    requires s + 7 <= |chunks|
    requires NoEndBefore(chunks, s)
    requires GuardInput(chunks)[s] != t
    requires forall k :: s <= k < s + 6 ==> chunks[k] == Plain(t)
    requires chunks[s + 6] == Final(t, p, e)
    ensures RepeatCount(chunks, s + 6) > Threshold
    ensures Consume(chunks) ==
              Success(Outcome(Texts(chunks)[..s] + [t, t, t, t, t, t], e, 0, true, FinalChunk, s + 7))
  {
    RepeatCountInRun(chunks, s, 7, t);
    assert NoEndBefore(chunks, s + 6) by {
      forall k: nat | k < s + 6
        ensures !Ends(chunks, k)
      {
        if k < s {
          assert !Ends(chunks, k);
        } else {
          assert chunks[k] == Plain(t);
        }
      }
    }
    FirstFinalChunkEndsStream(chunks, s + 6);
    SixCopiesKept(chunks, s, t);
  }

  /** Empty lines at the start of the stream repeat the guard's initial empty
      token, so the sixth one already trips it, after five are kept. */
  lemma LeadingEmptyChunks(chunks: seq<Chunk>)
    requires |chunks| >= 6
    requires forall k :: 0 <= k < 6 ==> chunks[k] == Plain("")
    ensures Consume(chunks) == Success(Outcome(["", "", "", "", ""], 0, 0, true, RepeatLoop, 6))
  {
    var xs := GuardInput(chunks);
    RunLengthFromStart(xs, 7);
    assert forall k: nat :: k < 6 ==> RepeatCount(chunks, k) == k + 1;
    assert NoEndBefore(chunks, 5) by {
      forall k: nat | k < 5
        ensures !Ends(chunks, k)
      {
        assert chunks[k] == Plain("");
      }
    }
    GuardStopsAboveThreshold(chunks, 5);
    assert Texts(chunks)[..5] == ["", "", "", "", ""];
  }
}
