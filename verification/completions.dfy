/** `Completions.create` minus the transport: consume the decoded stream and
    wrap the result in a completion record. The identifier and timestamp are
    taken from the caller, since the source derives them from the clock. */
module Completions {
  import opened Wrappers
  import opened Chunks
  import opened RepeatGuard
  import opened Stream
  import opened Reference
  import opened StreamProperties
  import opened Records
  import Decimal

  /** The record as the source builds it: the prompt cost is the final line's
      `eval_count` and the completion cost is never updated from 0. */
  function Create(chunks: seq<Chunk>, model: string, id: string, created: int)
    : (r: Result<ChatCompletion, DecodeError>)
    ensures r.Failure? <==> Consume(chunks).Failure?
    ensures r.Failure? ==> r.error == Consume(chunks).error
    ensures r.Success? ==> HasFixedShape(r.value, model) && r.value.id == id && r.value.created == created
    ensures r.Success? ==> ContentOf(r.value) == Join(Consume(chunks).value.pieces)
    ensures r.Success? ==> r.value.usage.value.completionTokens == "0"
  {
    match Consume(chunks)
    case Failure(e) => Failure(e)
    case Success(o) =>
      var inputCost := o.promptTokenCount;
      var outputCost := o.responseTokenCount;
      Success(BuildCompletion(id, created, model, Join(o.pieces), inputCost, outputCost))
  }

  /** The two costs the final line evidently should have produced: its
      `prompt_eval_count` and its `eval_count`; zero when no final line ended
      the stream. */
  function IntendedCosts(chunks: seq<Chunk>, o: Outcome): (costs: (int, int))
    requires o.ending == FinalChunk ==>
               0 < o.consumed <= |chunks| && HasCounts(chunks[o.consumed - 1])
    ensures o.ending != FinalChunk ==> costs == (0, 0)
  {
    if o.ending == FinalChunk then
      var c := chunks[o.consumed - 1];
      (c.promptEvalCount.value, c.evalCount.value)
    else (0, 0)
  }

  /** The record with the usage block corrected; everything else is the same
      as the source's record. */
  function CreateIntended(chunks: seq<Chunk>, model: string, id: string, created: int)
    : (r: Result<ChatCompletion, DecodeError>)
    ensures r.Success? <==> Create(chunks, model, id, created).Success?
    ensures r.Failure? ==> r == Create(chunks, model, id, created)
    ensures r.Success? ==>
              r.value == Create(chunks, model, id, created).value.(usage := r.value.usage)
  {
    match Consume(chunks)
    case Failure(e) => Failure(e)
    case Success(o) =>
      var (inputCost, outputCost) := IntendedCosts(chunks, o);
      Success(BuildCompletion(id, created, model, Join(o.pieces), inputCost, outputCost))
  }

  /** A stream ended by its first final line, with counts `p` and `e`, yields
      the text of the lines before it and usage `e`, `0`, `e`. */
  lemma UsageFromFinalChunk(chunks: seq<Chunk>, i: nat, model: string, id: string, created: int)
    requires i < |chunks|
    requires IsFinal(chunks[i]) && HasCounts(chunks[i])
    requires NoEndBefore(chunks, i)
    ensures var r := Create(chunks, model, id, created);
            && r.Success?
            && ContentOf(r.value) == Join(Texts(chunks)[..i])
            && r.value.usage == Some(Usage(Decimal.IntToString(chunks[i].evalCount.value), "0",
                                           Decimal.IntToString(chunks[i].evalCount.value)))
  {
    FirstFinalChunkEndsStream(chunks, i);
  }

  /** Without a final line, all three usage figures are `0`. */
  lemma UsageZeroWithoutFinalChunk(chunks: seq<Chunk>, model: string, id: string, created: int)
    requires forall k :: 0 <= k < |chunks| ==> !IsFinal(chunks[k])
    requires Create(chunks, model, id, created).Success?
    ensures Create(chunks, model, id, created).value.usage == Some(Usage("0", "0", "0"))
  {
  }

  /** The corrected record reports the final line's prompt count, its
      generated count, and their sum. */
  lemma IntendedUsageFromFinalChunk(chunks: seq<Chunk>, i: nat, model: string, id: string, created: int)
    requires i < |chunks|
    requires IsFinal(chunks[i]) && HasCounts(chunks[i])
    requires NoEndBefore(chunks, i)
    ensures var r := CreateIntended(chunks, model, id, created);
            var p := chunks[i].promptEvalCount.value;
            var e := chunks[i].evalCount.value;
            && r.Success?
            && Decimal.ParseInt(r.value.usage.value.promptTokens) == Some(p)
            && Decimal.ParseInt(r.value.usage.value.completionTokens) == Some(e)
            && Decimal.ParseInt(r.value.usage.value.totalTokens) == Some(p + e)
  {
    FirstFinalChunkEndsStream(chunks, i);
  }

  /** Two calls on the same lines differ only in identifier and timestamp. */
  lemma SameChunksSameRecord(chunks: seq<Chunk>, model: string,
                             id1: string, created1: int, id2: string, created2: int)
    ensures var r1 := Create(chunks, model, id1, created1);
            var r2 := Create(chunks, model, id2, created2);
            && r1.Success? == r2.Success?
            && (r1.Success? ==> r1.value.(id := id2, created := created2) == r2.value)
  {
  }

  /** No lines at all: an empty answer with zero usage. */
  lemma EmptyStreamGivesEmptyRecord(model: string, id: string, created: int)
    ensures var r := Create([], model, id, created);
            && r.Success?
            && ContentOf(r.value) == ""
            && r.value.usage == Some(Usage("0", "0", "0"))
  {
  }

  lemma SmallDecimals()
    ensures Decimal.IntToString(0) == "0" && Decimal.IntToString(2) == "2"
    ensures Decimal.IntToString(3) == "3" && Decimal.IntToString(5) == "5"
  {
  }

  lemma HelloStream()
    ensures Consume([Plain("Hel"), Plain("lo"), Final("", 3, 2)]) ==
              Success(Outcome(["Hel", "lo"], 2, 0, true, FinalChunk, 3))
  {
    var chunks := [Plain("Hel"), Plain("lo"), Final("", 3, 2)];
    assert GuardInput(chunks) == ["", "Hel", "lo", ""];
    assert NoEndBefore(chunks, 2) by {
      forall k: nat | k < 2
        ensures !Ends(chunks, k)
      {
        assert RepeatCount(chunks, k) == 0;
      }
    }
    FirstFinalChunkEndsStream(chunks, 2);
    assert Texts(chunks)[..2] == ["Hel", "lo"];
  }

  /** "Hel", "lo", then a final empty line with `prompt_eval_count` 3 and
      `eval_count` 2: the text is "Hello", but the usage reads 2, 0, 2
      where 3, 2, 5 was evidently meant. */
  lemma UsageDropsPromptCount(model: string, id: string, created: int)
    ensures var chunks := [Plain("Hel"), Plain("lo"), Final("", 3, 2)];
            var r := Create(chunks, model, id, created);
            var fixed := CreateIntended(chunks, model, id, created);
            && r.Success? && fixed.Success?
            && ContentOf(r.value) == "Hello"
            && r.value.usage == Some(Usage("2", "0", "2"))
            && fixed.value.usage == Some(Usage("3", "2", "5"))
  {
    HelloStream();
    SmallDecimals();
    assert Join(["Hel", "lo"]) == "Hello" by {
      assert ["Hel", "lo"][..1] == ["Hel"];
      assert ["Hel"][..0] == [];
    }
  }

  /** Seven "\n" lines with no final line: six newlines are kept before the
      guard trips, and the usage is all zero. */
  lemma NewlineLoopKeepsSix(model: string, id: string, created: int)
    ensures var chunks := seq(7, _ => Plain("\n"));
            var r := Create(chunks, model, id, created);
            && r.Success?
            && ContentOf(r.value) == "\n\n\n\n\n\n"
            && r.value.usage == Some(Usage("0", "0", "0"))
  {
    var chunks := seq(7, _ => Plain("\n"));
    SixCopiesBeforeSeventh(chunks, 0, "\n");
    var pieces := Texts(chunks)[..0] + ["\n", "\n", "\n", "\n", "\n", "\n"];
    assert pieces == ["\n", "\n", "\n", "\n", "\n", "\n"];
    JoinAppend(["\n", "\n", "\n"], ["\n", "\n", "\n"]);
    assert Join(["\n", "\n", "\n"]) == "\n\n\n" by {
      assert ["\n", "\n", "\n"][..2] == ["\n", "\n"];
      assert ["\n", "\n"][..1] == ["\n"];
      assert ["\n"][..0] == [];
    }
    assert ["\n", "\n", "\n"] + ["\n", "\n", "\n"] == pieces;
  }
}
