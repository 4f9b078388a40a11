/**
 * The incremental detokenising streamer of
 * src/Generation/Streamers/TextStreamer.php.
 *
 * The four protected fields and the inherited prompt flag
 * `nextTokensArePrompt` are gathered in `State`; one call of `put` or
 * `end` is first written as a pure step on a `State` (`PutStep`, `Finish`),
 * and the class `TextStreamer` then performs the same assignments in place,
 * proved to leave its fields equal to that step's result.
 */
module TextStreamers {
  import opened Wrappers
  import opened Php

  /** Whether the stream callback gets the fresh fragment or the whole text. */
  datatype StreamMode = Partial | Full

  /** The two ways `put` fails before touching anything. */
  datatype PutError =
    | UnsupportedBatchSize   // more than one record: the InvalidArgumentException
    | MissingRecord          // no record: `$value[0]` is null and array_slice raises a TypeError

  /**
   * What the streamer reads but never writes: the tokenizer's decode with
   * special tokens skipped (a deterministic function the model leaves
   * uninterpreted), the prompt settings and stream mode inherited from the
   * base class, and whether each callback is registered.
   */
  datatype Config = Config(
    decode: seq<int> -> string,
    skipPrompt: bool,
    promptTokens: seq<int>,
    streamMode: StreamMode,
    hasStreamCallback: bool,
    hasEndCallback: bool)

  /** The mutable fields: the text so far, what was delivered, and the two checkpoints. */
  datatype State = State(
    printedText: string,
    printedLength: int,
    tokenCheckpoint: int,
    textCheckpoint: int,
    nextTokensArePrompt: bool)

  /** The state after one call, and the argument of the callback it invoked, if any. */
  datatype Step = Step(next: State, callback: Option<string>)

  /** The marks after which the decoded text is locked in. */
  const Punctuation: set<string> := {".", ",", "!", "?", ";", ":"}

  /** The class invariant: the delivered length is the text's length and the text checkpoint lies inside it. */
  predicate Inv(s: State)
    // The locked prefix `put` takes with mb_substr is then a prefix of the
    // text of exactly `textCheckpoint` characters, within what was delivered.
    ensures Inv(s) ==>
      var locked := MbSubstr(s.printedText, 0, Some(s.textCheckpoint));
      locked <= s.printedText && |locked| == s.textCheckpoint <= s.printedLength
  {
    s.printedLength == |s.printedText| && 0 <= s.textCheckpoint <= |s.printedText|
  }

  /** The state of a new (or just ended) stream; the prompt flag is kept as it was. */
  function Fresh(nextTokensArePrompt: bool): (s: State)
    ensures Inv(s) && s.printedText == "" && s.tokenCheckpoint == 0
    ensures s.nextTokensArePrompt == nextTokensArePrompt
  {
    State("", 0, 0, 0, nextTokensArePrompt)
  }

  /** The separator put between the locked text and the fresh decode. */
  function Separator(tokenCheckpoint: int): (sep: string)
    ensures sep == "" <==> tokenCheckpoint == 0
    ensures |sep| <= 1
  {
    if tokenCheckpoint == 0 then "" else " "
  }

  /** `in_array(mb_substr(text, -1), marks)`: the text's last character is one of the six marks. */
  predicate EndsInPunctuation(text: string)
    ensures EndsInPunctuation(text) <==> text != "" && text[|text| - 1] in ".,!?;:"
  {
    MbSubstr(text, -1, None) in Punctuation
  }

  /**
   * The prompt branch: the decoded prompt becomes the baseline text,
   * counted as delivered and fully locked in; the token checkpoint is one
   * short of the prompt's length, and the flag is cleared so the branch runs
   * once.
   */
  function PromptEcho(c: Config): (n: State)
    ensures Inv(n) && n.textCheckpoint == |n.printedText|
    ensures n.printedText == c.decode(c.promptTokens)
    ensures n.tokenCheckpoint == |c.promptTokens| - 1
    ensures !n.nextTokensArePrompt
  {
    var text := c.decode(c.promptTokens);
    State(text, |text|, |c.promptTokens| - 1, |text|, false)
  }

  /** The tokens past the token checkpoint: those `put` decodes again. */
  function Unlocked(s: State, outputTokenIds: seq<int>): (tokens: seq<int>)
    ensures tokens != [] ==> s.tokenCheckpoint < |outputTokenIds|
    ensures 0 <= s.tokenCheckpoint <= |outputTokenIds| ==> tokens == outputTokenIds[s.tokenCheckpoint..]
  {
    ArraySlice(outputTokenIds, s.tokenCheckpoint)
  }

  /**
   * The non-prompt branch of `put` on one record's output tokens: re-decode
   * the unlocked tokens, rebuild the text from the locked prefix, deliver
   * what lies past the old delivered length, and lock everything in when the
   * fresh decode ends in punctuation.
   */
  function Redecode(c: Config, s: State, outputTokenIds: seq<int>): (r: Step)
    requires Inv(s)
    // No new token: a no-op, and no callback.
    ensures Unlocked(s, outputTokenIds) == [] ==> r == Step(s, None)
    ensures Unlocked(s, outputTokenIds) != [] ==>
      var decoded := c.decode(Unlocked(s, outputTokenIds));
      var text := r.next.printedText;
      // The locked prefix is kept verbatim; everything after it is the fresh decode.
      && text == s.printedText[..s.textCheckpoint] + Separator(s.tokenCheckpoint) + decoded
      && Inv(r.next)
      && r.next.nextTokensArePrompt == s.nextTokensArePrompt
      // The checkpoints move only on punctuation, and then to the end of tokens and text.
      && (if EndsInPunctuation(decoded)
          then r.next.tokenCheckpoint == |outputTokenIds| && r.next.textCheckpoint == |text|
          else r.next.tokenCheckpoint == s.tokenCheckpoint && r.next.textCheckpoint == s.textCheckpoint)
      // The checkpoints never move back.
      && s.tokenCheckpoint <= r.next.tokenCheckpoint
      && s.textCheckpoint <= r.next.textCheckpoint
      // The callback fires when registered: with the whole text, or with what
      // lies past the old delivered length (nothing when the text shrank).
      && (r.callback.Some? <==> c.hasStreamCallback)
      && (r.callback.Some? && c.streamMode == Full ==> r.callback.value == text)
      && (r.callback.Some? && c.streamMode == Partial ==>
            if s.printedLength <= |text|
            then text == text[..s.printedLength] + r.callback.value
            else r.callback.value == "")
  {
    var tokens := Unlocked(s, outputTokenIds);
    if tokens == [] then Step(s, None)
    else
      var decoded := c.decode(tokens);
      var text := MbSubstr(s.printedText, 0, Some(s.textCheckpoint)) + Separator(s.tokenCheckpoint) + decoded;
      var newText := MbSubstr(text, s.printedLength, None);
      var lock := EndsInPunctuation(decoded);
      var next := State(
        text, |text|,
        if lock then |outputTokenIds| else s.tokenCheckpoint,
        if lock then |text| else s.textCheckpoint,
        s.nextTokensArePrompt);
      Step(next, if c.hasStreamCallback then Some(if c.streamMode == Partial then newText else text) else None)
  }

  /** Whether `put` takes the prompt branch in state `s`. */
  predicate EchoesPrompt(c: Config, s: State)
    // Only while the prompt is still due, and never without skipping prompts.
    ensures EchoesPrompt(c, s) ==> s.nextTokensArePrompt
    ensures !c.skipPrompt ==> !EchoesPrompt(c, s)
  {
    c.skipPrompt && s.nextTokensArePrompt
  }

  /**
   * One call of `put`: a batch of more than one record is refused before
   * anything else; then the prompt branch (which does not read the batch);
   * then the record's tokens are re-decoded.
   */
  function PutStep(c: Config, s: State, batch: seq<seq<int>>): (r: Result<Step, PutError>)
    requires Inv(s)
    ensures r == Err(UnsupportedBatchSize) <==> |batch| > 1
    ensures r == Err(MissingRecord) <==> |batch| == 0 && !EchoesPrompt(c, s)
    ensures r.Ok? ==> Inv(r.value.next)
    // The prompt branch runs at most once: afterwards the flag is down.
    ensures r.Ok? && c.skipPrompt ==> !r.value.next.nextTokensArePrompt
    ensures r.Ok? && EchoesPrompt(c, s) ==> r.value == Step(PromptEcho(c), None)
    ensures |batch| == 1 && !EchoesPrompt(c, s) ==> r == Ok(Redecode(c, s, batch[0]))
  {
    if |batch| > 1 then Err(UnsupportedBatchSize)
    else if EchoesPrompt(c, s) then Ok(Step(PromptEcho(c), None))
    else if |batch| == 0 then Err(MissingRecord)
    else Ok(Redecode(c, s, batch[0]))
  }

  /** One call of `end`: hand the text to the end callback, if registered, and reset the four fields. */
  function Finish(c: Config, s: State): (r: Step)
    ensures r.next == Fresh(s.nextTokensArePrompt)
    ensures r.callback.Some? <==> c.hasEndCallback
    ensures r.callback.Some? ==> r.callback.value == s.printedText
  {
    Step(Fresh(s.nextTokensArePrompt), if c.hasEndCallback then Some(s.printedText) else None)
  }

  /** The callback arguments of one step, as a log entry. */
  function Logged(callback: Option<string>): seq<string>
  {
    if callback.Some? then [callback.value] else []
  }

  /**
   * The streamer object. The callbacks are replaced by the logs `streamed`
   * and `ended`, which record every argument they would have received.
   */
  class TextStreamer {
    const decode: seq<int> -> string
    const skipPrompt: bool
    const promptTokens: seq<int>
    const streamMode: StreamMode
    const hasStreamCallback: bool
    const hasEndCallback: bool

    var nextTokensArePrompt: bool
    var printedText: string
    var printedLength: int
    var lastDecodedCheckpointForToken: int
    var lastDecodedCheckpointForText: int

    ghost var streamed: seq<string>
    ghost var ended: seq<string>

    function Cfg(): Config
    {
      Config(decode, skipPrompt, promptTokens, streamMode, hasStreamCallback, hasEndCallback)
    }

    ghost function Fields(): State
      reads this
    {
      State(printedText, printedLength, lastDecodedCheckpointForToken, lastDecodedCheckpointForText, nextTokensArePrompt)
    }

    ghost predicate Valid()
      reads this
    {
      Inv(Fields())
    }

    constructor (decode: seq<int> -> string, skipPrompt: bool, promptTokens: seq<int>, nextTokensArePrompt: bool,
                 streamMode: StreamMode, hasStreamCallback: bool, hasEndCallback: bool)
      ensures Valid()
      ensures Cfg() == Config(decode, skipPrompt, promptTokens, streamMode, hasStreamCallback, hasEndCallback)
      ensures Fields() == Fresh(nextTokensArePrompt)
      ensures streamed == [] && ended == []
    {
      this.decode := decode;
      this.skipPrompt := skipPrompt;
      this.promptTokens := promptTokens;
      this.streamMode := streamMode;
      this.hasStreamCallback := hasStreamCallback;
      this.hasEndCallback := hasEndCallback;
      this.nextTokensArePrompt := nextTokensArePrompt;
      printedText := "";
      printedLength := 0;
      lastDecodedCheckpointForToken := 0;
      lastDecodedCheckpointForText := 0;
      streamed := [];
      ended := [];
    }

    /**
     * `put`: each record of `batch` stands for the full output token list
     * so far. On an error nothing changes and no callback fires; otherwise
     * the fields become the next state of `PutStep` and the stream log gets
     * the callback argument, if the callback fired.
     */
    method Put(batch: seq<seq<int>>) returns (error: Option<PutError>)
      requires Valid()
      modifies this
      ensures Valid()
      ensures var r := PutStep(Cfg(), old(Fields()), batch);
        && (error.Some? <==> r.Err?)
        && (r.Err? ==> error.value == r.error && Fields() == old(Fields()) && streamed == old(streamed))
        && (r.Ok? ==> Fields() == r.value.next && streamed == old(streamed) + Logged(r.value.callback))
      ensures ended == old(ended)
    {
      ghost var before := Fields();
      if |batch| > 1 {
        return Some(UnsupportedBatchSize);
      }

      if skipPrompt && nextTokensArePrompt {
        nextTokensArePrompt := false;
        printedText := decode(promptTokens);
        printedLength := |printedText|;
        lastDecodedCheckpointForToken := |promptTokens| - 1;
        lastDecodedCheckpointForText := |printedText|;
        return None;
      }

      if |batch| == 0 {
        return Some(MissingRecord);
      }
      assert PutStep(Cfg(), before, batch) == Ok(Redecode(Cfg(), before, batch[0]));
      PutRecord(batch[0]);
      return None;
    }

    /**
     * The non-prompt part of `put` on one record's output tokens: the
     * fields become `Redecode`'s next state and the stream log gets its
     * callback argument, if the callback fired.
     */
    method PutRecord(outputTokenIds: seq<int>)
      requires Valid()
      modifies this
      ensures Valid()
      ensures var step := Redecode(Cfg(), old(Fields()), outputTokenIds);
        Fields() == step.next && streamed == old(streamed) + Logged(step.callback)
      ensures ended == old(ended)
    {
      ghost var step := Redecode(Cfg(), Fields(), outputTokenIds);
      var tokensToDecode := ArraySlice(outputTokenIds, lastDecodedCheckpointForToken);
      assert tokensToDecode == Unlocked(Fields(), outputTokenIds);
      if tokensToDecode == [] {
        return;
      }

      var decodedText := decode(tokensToDecode);
      printedText := MbSubstr(printedText, 0, Some(lastDecodedCheckpointForText))
        + Separator(lastDecodedCheckpointForToken)
        + decodedText;
      assert printedText == step.next.printedText;
      var newText := MbSubstr(printedText, printedLength, None);
      printedLength := |printedText|;

      if EndsInPunctuation(decodedText) {
        lastDecodedCheckpointForToken := |outputTokenIds|;
        lastDecodedCheckpointForText := |printedText|;
      }
      assert Fields() == step.next;
      assert step.callback == if hasStreamCallback then Some(if streamMode == Partial then newText else printedText) else None;

      if hasStreamCallback {
        streamed := streamed + [if streamMode == Partial then newText else printedText];
      }
    }

    /**
     * `end`: the end log gets the current text, if the end callback is
     * registered, and the four fields are reset; the prompt flag and the
     * stream log are left alone.
     */
    method End()
      requires Valid()
      modifies this
      ensures Valid()
      ensures var r := Finish(Cfg(), old(Fields()));
        Fields() == r.next && ended == old(ended) + Logged(r.callback)
      ensures nextTokensArePrompt == old(nextTokensArePrompt) && streamed == old(streamed)
    {
      if hasEndCallback {
        ended := ended + [printedText];
      }
      printedText := "";
      printedLength := 0;
      lastDecodedCheckpointForToken := 0;
      lastDecodedCheckpointForText := 0;
    }
  }
}
