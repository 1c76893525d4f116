# LocalAI streaming consumer, modelled in Dafny

`LocalAI.Chat.Completions.create` in `camel/localai.py` imitates a hosted
chat-completion call by streaming a reply from a local Ollama server. Its
one piece of real logic is the loop that consumes the streamed lines:

- a **repeat guard** (last token, repeat counter) that stops a backend stuck
  on one token;
- **termination** at the first line whose `done` flag is set;
- **accumulation** of the text of every line the loop keeps;
- **usage extraction** from the terminal line, and construction of one
  fixed-shape completion record.

The model takes the stream as an already-decoded `seq<Chunk>`. It states the
loop as a left fold (`Stream.Consume`) and as the source's imperative loop
(`Stream.ConsumeStream`, proved equal to the fold). It also gives a
declarative reference (`Reference.Specified`): the repeat counter of line `i`
is read off the run of equal texts ending there, and the first line that is
unreadable, final or above the threshold decides the result. The two are
proved equal for every input.

Files and modules:

| file | module | contents |
|---|---|---|
| wrappers.dfy | `Wrappers` | `Option`, `Result` |
| decimal.dfy | `Decimal` | Python `str(int)` and its inverse |
| records.dfy | `Records` | the four record dataclasses and the record builder |
| chunks.dfy | `Chunks` | a decoded stream line and decode errors |
| guard.dfy | `RepeatGuard` | guard state, update, run-length characterisation |
| stream.dfy | `Stream` | the fold, one loop step, the imperative loop |
| reference.dfy | `Reference` | the declarative result and the equivalence proof |
| properties.dfy | `StreamProperties` | where the loop stops, what it keeps |
| completions.dfy | `Completions` | the record produced by `create`, usage, scenarios |

Behaviour follows the code as written:

- The guard starts as token `""` with counter 0, so leading empty lines
  count as repeats from the first line.
- The guard trips when the counter exceeds 5. That is the 7th identical
  non-empty line, after six copies have been kept.
- `done` is tested before the guard, so a final line that carries both
  counts always ends the loop normally. A final line missing
  `prompt_eval_count` or `eval_count` aborts the request instead.
- The reported usage is prompt = `eval_count`, completion = 0 and
  total = `eval_count`. The source overwrites the prompt count and never
  sets the completion count.

Two consequences of these rules: seven `"\n"` lines keep six newlines, not
an empty answer (`Completions.NewlineLoopKeepsSix`); and a final line with
`prompt_eval_count` 3 and `eval_count` 2 reports usage 2, 0, 2, not 3, 2, 5
(see Findings).

## Model

| member | source | states |
|---|---|---|
| Decimal.NatToString | camel/localai.py:200-202 | the decimal text of a count is non-empty and all digits, starts with `0` only when it is exactly `"0"` for zero, and reads back as the count |
| Decimal.IntToString | camel/localai.py:200-202 | `str(int)` reads back as the same integer, negatives with a leading minus |
| Records.BuildCompletion | camel/localai.py:179-204 | the record has one choice with index 0, role assistant and reason stop, object `chat.completion`, the configured model and the fixed fingerprint; its usage strings read back as the two costs and their sum |
| RepeatGuard.Observe | camel/localai.py:148-152 | the stored token becomes the new text, and the counter is positive exactly when the text repeats the stored token, in which case it goes up by one |
| RepeatGuard.RunLength | camel/localai.py:148-152 | the length of the maximal run of equal texts ending at a position: all texts inside are equal, and the one before differs |
| RepeatGuard.TrackCountsRun | camel/localai.py:136-152 | after any sequence of texts fed from the initial `("", 0)`, the counter is the final run's length minus one, the initial empty token counting as a member of the run |
| Stream.JoinAppend | camel/localai.py:166 | joining two lists of pieces is joining each and concatenating |
| Stream.Step | camel/localai.py:144-164 | one iteration fails exactly on an unparsable line, a line missing `message.content` or `done`, or a final line missing a count, and names the line; it feeds the guard; it continues exactly on a non-final line below the threshold, appending its text; on a stop it closes the stream, keeps the pieces, and on a final line sets the prompt count to `eval_count` |
| Stream.Run | camel/localai.py:143-164 | the loop from a line on: errors name a line read, the pieces only grow by one per kept line, running out means every line was read, the stream is closed exactly on an early stop, and a final-line stop reports that line's `eval_count` |
| Stream.Consume | camel/localai.py:136-166 | over a whole stream: closed exactly when the loop broke, completion count always 0, prompt count 0 unless a final line ended the loop and then its `eval_count`, one kept piece per line read except the stopping one |
| Stream.ConsumeStream | camel/localai.py:136-166 | the source's loop with mutable token, counter, counts and list computes exactly the fold |
| Reference.ConsumeMatchesReference | camel/localai.py:143-166 | the fold equals the declarative result, determined by the first line that is unreadable, final, or has counter above 5 |
| StreamProperties.FirstFinalChunkEndsStream | camel/localai.py:154-159 | the first final line ends the loop whatever its counter: only earlier texts are kept, the stream is closed, and the prompt count is its `eval_count` with completion 0 |
| StreamProperties.GuardStopsAboveThreshold | camel/localai.py:160-162 | a readable, non-final line with counter above 5 ends the loop; earlier texts are kept and both counts stay 0 |
| StreamProperties.RanOutKeepsEverything | camel/localai.py:143-166 | when no line stops the loop, every text is kept in order, counts are 0 and the consumer does not close the stream |
| StreamProperties.DecodeFailureAborts | camel/localai.py:144-157 | an unparsable line, a line missing `message.content` or `done`, or a final line missing a count aborts with an error naming the line and the first missing key, and no outcome |
| StreamProperties.FailsIffFirstEndIsBad | camel/localai.py:143-157 | the request fails exactly when the first stopping line is undecodable or lacks a count, and the error names that line |
| StreamProperties.KeptPiecesAreQuietPrefix | camel/localai.py:148-166 | the kept pieces are, in order, the texts of the first lines; each of those lines was readable, non-final, with counter at most 5; running out keeps all texts |
| StreamProperties.GuardEndingIff | camel/localai.py:148-162 | the loop ends through the guard exactly when the last line read is readable, non-final and has counter above 5 |
| StreamProperties.LaterChunksNeverRead | camel/localai.py:154-162 | once the loop has stopped or failed, appending further lines to the stream does not change the result |
| StreamProperties.RepeatCountInRun | camel/localai.py:148-152 | inside a run of lines with one text, begun after a different text, the counter at the k-th line of the run is k |
| StreamProperties.SixCopiesBeforeSeventh | camel/localai.py:148-164 | seven identical intermediate lines after a different text: six copies are kept, the seventh trips the guard and closes the stream |
| StreamProperties.FinalChunkBeatsGuard | camel/localai.py:154-162 | a final line that is the seventh copy of a run ends the loop as a final line, with its counts, even though its counter exceeds 5 |
| StreamProperties.LeadingEmptyChunks | camel/localai.py:136-164 | six leading empty lines: five empty pieces are kept and the sixth trips the guard, because the initial token is empty |
| Completions.Create | camel/localai.py:166-204 | a record is produced exactly when consumption succeeds; it has the fixed shape with the given id and timestamp, its content is the joined kept pieces, and its completion count is `"0"` |
| Completions.UsageFromFinalChunk | camel/localai.py:154-174 | a stream ended by its first final line with `eval_count` e gives content from the earlier lines and usage e, 0, e |
| Completions.UsageZeroWithoutFinalChunk | camel/localai.py:139-174 | with no final line in the stream, usage is `"0"`, `"0"`, `"0"` |
| Completions.SameChunksSameRecord | camel/localai.py:179-204 | two calls on the same lines give records that differ only in identifier and timestamp |
| Completions.EmptyStreamGivesEmptyRecord | camel/localai.py:132-174 | an empty stream gives empty content and zero usage |
| Completions.UsageDropsPromptCount | camel/localai.py:156-174 | lines "Hel", "lo", final with counts 3 and 2: content "Hello", usage 2, 0, 2 as written, against 3, 2, 5 from the corrected record |
| Completions.NewlineLoopKeepsSix | camel/localai.py:134-166 | seven `"\n"` lines without a final line give six newlines and zero usage |
| Completions.CreateIntended | camel/localai.py:156-174 | the corrected record fails when the source's record fails and otherwise equals it except for the usage block |
| Completions.IntendedUsageFromFinalChunk | camel/localai.py:156-174 | the corrected record reports `prompt_eval_count`, `eval_count` and their sum |

## Left out

- HTTP transport (`requests.post`, `raise_for_status`, `iter_lines`): network I/O. The model starts from the decoded lines.
- JSON parsing (`json.loads`): a foreign library. Its outcome is a `Chunk` that is `Unparsable` or has four optional keys with fixed types:
  - `done` is a boolean, whereas Python tests any JSON value for truth.
  - `message.content` is a string. In the source, a kept line whose content is JSON `null` makes `''.join` raise `TypeError` after the loop (camel/localai.py:166); the model cannot express that error.
  - Both counts are integers. A float count would print as `"2.0"` (camel/localai.py:200-202); the model only renders integers.
- Closing the connection when a lookup fails: the source raises before it reaches `response.close()`, and the model reports the error without tracking the connection.
- The `id` and `created` values: they come from `time.time()` and are parameters here. How they are derived and whether they collide is not modelled.
- The `print` calls: console output only.
- `WorkerManagerMetaclass` and `WorkerManager`: an unused singleton placeholder.
- The nested-class constructors and the default base URL and model name: configuration only. The model name is a parameter.
- The request body sent to the server (model and messages): it only reaches the transport.
- `Option` for message content: the record type allows `None`, but `create` always stores the joined text.

## Findings

| source | as written | input that shows it | evidently intended | confidence | as-written member | corrected member |
|---|---|---|---|---|---|---|
| camel/localai.py:156-157 | `prompt_token_count` is assigned `prompt_eval_count` and then overwritten with `eval_count`; `response_token_count` is never assigned after its 0 initialisation | lines "Hel", "lo", then a final line with `prompt_eval_count` 3 and `eval_count` 2: usage is 2, 0, 2 | prompt = `prompt_eval_count`, completion = `eval_count`, total = their sum, giving 3, 2, 5 | high; not executed | Completions.UsageDropsPromptCount | Completions.CreateIntended |

`Completions.Create` keeps the source's usage so that the rest of the model
describes the code as it runs. `Completions.CreateIntended` is the corrected
builder. It agrees with `Create` everywhere except the usage block, and
`Completions.IntendedUsageFromFinalChunk` proves its usage.
