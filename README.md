# TextStreamer: incremental detokenising streamer

This project models `TextStreamer` of transformers-php, the streamer a text
generation loop calls after every step to turn the growing list of output
token ids into text. On each `put` it decodes again only the tokens past a
*token checkpoint*. It rebuilds the text as the locked prefix up to a *text
checkpoint*, then a single space (left out while the token checkpoint is 0),
then the fresh decode. It hands the callback the part not delivered before,
or the whole text in FULL mode. Both checkpoints move to the end when the
fresh decode ends in `. , ! ? ; :`. `end` hands the text to the end callback
and resets the four fields.

Files:

- `wrappers.dfy`: `Option` and `Result`.
- `php.dfy`: `array_slice` and `mb_substr` as PHP 8 defines them. This covers
  negative and out-of-range positions, one character per element.
- `text_streamer.dfy`: the state, one pure step per call (`PutStep`,
  `Redecode`, `PromptEcho`, `Finish`), and the class `TextStreamer`. Its
  `Put` (with the re-decode part in `PutRecord`) and `End` make the
  source's assignments in place and are proved to leave the fields equal
  to those steps' results.
- `delivery.dfy`: a whole stream of `put` calls (`Run`). Under a
  prefix-stable decode, the fragments delivered add up to the final text,
  each character once. It also covers what a repeated `put` does.
- `example.dfy`: the four-call "Hello", ",", "world", "." stream, proved
  one `Redecode` at a time.

The tokenizer appears as the parameter `decode: seq<int> -> string`. This is
`decode(..., skipSpecialTokens: true)` treated as a deterministic function
the model does not look inside. The two callbacks are the logs `streamed`
and `ended`. They record each argument the callback would receive, and only
when that callback is registered. Four things come from the `Streamer` base
class, which is not part of this model: `skipPrompt`, `promptTokens`, the
initial `nextTokensArePrompt` and whether each callback is present. They are
constructor parameters, as is the stream mode.

Behaviour of the code worth knowing:

- An empty batch passes the size guard, which rejects only more than one
  record. Outside the prompt branch `put` then reads `$value[0]` as null,
  and `array_slice` raises a TypeError before anything changes
  (`MissingRecord`). In the prompt branch an empty batch succeeds.
- A repeated `put` with the same tokens leaves the state unchanged but calls
  the stream callback again, with `""` in PARTIAL mode and the whole text in
  FULL mode. It stays silent only when the previous call locked every token
  in (`RepeatedPut`).
- `end` leaves `nextTokensArePrompt` as it is: it does not raise the flag
  again, so the prompt branch does not run again unless the base class
  raises it.
- An empty prompt sets the token checkpoint to -1. The next `put` then
  re-decodes only the last token, after a space. The model keeps this case.
- Each character is delivered exactly once only when decoding more tokens
  never changes the text of fewer (a prefix-stable decode). A decode that
  rewrites or shortens delivered text makes `mb_substr` skip characters or
  return `""`, so fragments can be lost or repeated.

## Model

| member | source | states |
|---|---|---|
| `Php.ArraySlice` | src/Generation/Streamers/TextStreamer.php:36 | `array_slice(a, k)` is a suffix of `a`: `a[k..]` for `0 <= k <= |a|`, empty for `k >= |a|`, the last `-k` elements (or all) for `k < 0` |
| `Php.MbSubstr` | src/Generation/Streamers/TextStreamer.php:45-53 | `mb_substr` never lengthens; a start past the end gives `""`; `(s, p)` is `s[p..]`, `(s, 0, n)` is `s[..n]`, `(s, -1)` is the last character or `""` |
| `TextStreamers.Separator` | src/Generation/Streamers/TextStreamer.php:46 | the separator is empty exactly when the token checkpoint is 0, otherwise one character |
| `TextStreamers.EndsInPunctuation` | src/Generation/Streamers/TextStreamer.php:43-53 | `in_array(mb_substr(t, -1), marks)` holds iff `t` is non-empty and its last character is one of `. , ! ? ; :` |
| `TextStreamers.Inv` | src/Generation/Streamers/TextStreamer.php:15-19 | the class invariant (delivered length equals the text's length, text checkpoint inside the text, kept by lines 30-32, 51, 55 and 72-75); under it the locked prefix `mb_substr(text, 0, checkpoint)` is a prefix of the text of exactly `checkpoint` characters, never past what was delivered |
| `TextStreamers.Fresh` | src/Generation/Streamers/TextStreamer.php:15-19 | the initial fields satisfy the class invariant, with empty text and token checkpoint 0, and the prompt flag given |
| `TextStreamers.EchoesPrompt` | src/Generation/Streamers/TextStreamer.php:27 | the prompt branch is taken only while the prompt flag is up, and never when prompts are not skipped |
| `TextStreamers.PromptEcho` | src/Generation/Streamers/TextStreamer.php:27-33 | the prompt branch yields the decoded prompt as text, delivered length and text checkpoint equal to its length, token checkpoint `|promptTokens| - 1`, flag cleared; invariant holds |
| `TextStreamers.Unlocked` | src/Generation/Streamers/TextStreamer.php:36 | the re-decoded tokens are those from the token checkpoint on; non-empty only if the checkpoint lies before the end |
| `TextStreamers.Redecode` | src/Generation/Streamers/TextStreamer.php:36-63 | no unlocked token: no change, no callback; otherwise text = locked prefix + separator + fresh decode, invariant kept, checkpoints move to `(|ids|, |text|)` iff the decode ends in punctuation and never move back, callback fires iff registered, with the whole text (FULL) or exactly what lies past the old delivered length, or `""` if the text shrank (PARTIAL) |
| `TextStreamers.PutStep` | src/Generation/Streamers/TextStreamer.php:21-64 | more than one record fails with `UnsupportedBatchSize`; no record outside the prompt branch fails with `MissingRecord`; the prompt branch yields `PromptEcho` without a callback; a single record is re-decoded; every success keeps the invariant and, when prompts are skipped, leaves the prompt flag down |
| `TextStreamers.Finish` | src/Generation/Streamers/TextStreamer.php:66-76 | `end` resets the four fields to the initial state, keeps the prompt flag, and calls the end callback (iff registered) with the current text |
| `TextStreamers.TextStreamer.constructor` | src/Generation/Streamers/TextStreamer.php:15-19 | a new streamer holds its configuration, the initial fields, empty logs, and the invariant |
| `TextStreamers.TextStreamer.Put` | src/Generation/Streamers/TextStreamer.php:21-64 | on an error no field and no log changes; on success the fields equal `PutStep`'s next state and the stream log grows by exactly the callback argument; the end log is untouched; the invariant is kept |
| `TextStreamers.TextStreamer.PutRecord` | src/Generation/Streamers/TextStreamer.php:36-63 | the re-decode part of `put`, done in place: the fields become `Redecode`'s next state, the stream log grows by exactly its callback argument, the end log is untouched, the invariant is kept |
| `TextStreamers.TextStreamer.End` | src/Generation/Streamers/TextStreamer.php:66-76 | the fields equal `Finish`'s state, the end log grows by the final text if the callback is registered, the prompt flag and the stream log are untouched |
| `Delivery.Run` | src/Generation/Streamers/TextStreamer.php:21-64 | a sequence of one-record `put` calls keeps the invariant and logs nothing without a stream callback |
| `Delivery.UnlockedGrows` | src/Generation/Streamers/TextStreamer.php:36 | with a non-negative checkpoint, a longer token list has a longer unlocked part (prefix order) |
| `Delivery.RedecodeKeepsText` | src/Generation/Streamers/TextStreamer.php:45-47 | under a prefix-stable decode and a grown token list, a re-decode keeps the old text as a prefix of the rebuilt one |
| `Delivery.RedecodeExtends` | src/Generation/Streamers/TextStreamer.php:36-56 | under a prefix-stable decode and a grown token list, one `put` only appends to the text, by exactly the fragment delivered in PARTIAL mode, and leaves a state consistent with the new list |
| `Delivery.RunStepExtends` | src/Generation/Streamers/TextStreamer.php:36-62 | the first call of such a run appends its fragment and hands the rest of the run a consistent state |
| `Delivery.RunDeliversOnce` | src/Generation/Streamers/TextStreamer.php:45-62 | over any run of growing token lists, the final text is the starting text followed by every delivered fragment in order |
| `Delivery.StreamDeliversOnce` | src/Generation/Streamers/TextStreamer.php:21-76 | a new streamer fed a growing stream and then ended passes the end callback the echoed prompt (if skipped) followed by the concatenation of all fragments |
| `Delivery.RepeatedPut` | src/Generation/Streamers/TextStreamer.php:36-62 | a second `put` with the same tokens leaves the state as the first left it; it calls the callback iff registered and tokens remain unlocked, with `""` (PARTIAL) or the unchanged text (FULL) |
| `PunctuationExample.FirstCall` | src/Generation/Streamers/TextStreamer.php:36-62 | tokens `[1]` give "Hello", delivered, nothing locked |
| `PunctuationExample.SecondCall` | src/Generation/Streamers/TextStreamer.php:43-56 | tokens `[1, 2]` give "Hello,", only "," is delivered, checkpoints become `(2, 6)` |
| `PunctuationExample.ThirdCall` | src/Generation/Streamers/TextStreamer.php:45-49 | tokens `[1, 2, 3]` decode only token 3; text "Hello, world", " world" delivered |
| `PunctuationExample.FourthCall` | src/Generation/Streamers/TextStreamer.php:45-56 | tokens `[1, 2, 3, 4]` re-decode tokens 3 and 4; "." delivered, checkpoints become `(4, 13)` |

## Left out

- The tokenizer's decode algorithm and its special-token skipping: `PretrainedTokenizer` is not part of this model, so decode is a function parameter. Exceptions raised inside decode are not modelled.
- Calling the callbacks (`call_user_func`) and any printing: callbacks are replaced by the logs `streamed` and `ended`.
- Multibyte semantics of `mb_strlen`/`mb_substr`: a string is a sequence of characters and each character counts as one.
- The `Streamer` base class beyond the fields `put` and `end` read. Those fields are constructor parameters and are not changed afterwards, except `nextTokensArePrompt`.
- Batch records other than lists of token ids (for example a record without an `output_token_ids` key, or a non-countable `$value`).
- `Delivery.RunDeliversOnce`: proved only for a prefix-stable decode, in PARTIAL mode with a stream callback, because the code gives no such promise for a decode that rewrites earlier text.
- `Delivery.StreamDeliversOnce`: also requires a non-empty prompt when prompts are skipped, because an empty prompt puts the token checkpoint at -1, and `array_slice` with -1 does not grow with the token list.
