/**
 * What a whole stream of `put` calls delivers. A generation loop calls
 * `put` with a one-record batch holding the full output token list so far,
 * each list extending the one before. In PARTIAL mode the fragments handed
 * to the stream callback add up to the final text (minus the echoed prompt)
 * PROVIDED the tokenizer's decode is prefix-stable; the streamer makes no
 * such promise for a decode that rewrites earlier characters.
 */
module Delivery {
  import opened Wrappers
  import opened Php
  import opened TextStreamers

  /** Every list in `runs` extends the one before it, the first extending `last`. */
  predicate Grows(last: seq<int>, runs: seq<seq<int>>)
    decreases |runs|
  {
    runs == [] || (last <= runs[0] && Grows(runs[0], runs[1..]))
  }

  /** The fragments of a log, joined. */
  function Concat(log: seq<string>): (text: string)
    decreases |log|
  {
    if log == [] then "" else log[0] + Concat(log[1..])
  }

  /**
   * `put` called once per token list in `runs` (each as a one-record batch),
   * from state `s`: the final state, and every argument the stream callback
   * received, in order.
   */
  function Run(c: Config, s: State, runs: seq<seq<int>>): (r: (State, seq<string>))
    requires Inv(s)
    ensures Inv(r.0)
    ensures !c.hasStreamCallback ==> r.1 == []
    decreases |runs|
  {
    if runs == [] then (s, [])
    else
      var step := PutStep(c, s, [runs[0]]).value;
      var rest := Run(c, step.next, runs[1..]);
      (rest.0, Logged(step.callback) + rest.1)
  }

  /** The first call of a run, outside the prompt branch, re-decodes the first token list. */
  lemma RunFirst(c: Config, s: State, runs: seq<seq<int>>)
    requires Inv(s) && !EchoesPrompt(c, s) && runs != []
    ensures var step := Redecode(c, s, runs[0]);
      var rest := Run(c, step.next, runs[1..]);
      Run(c, s, runs) == (rest.0, Logged(step.callback) + rest.1)
  {
    var b := [runs[0]];
    assert |b| == 1 && b[0] == runs[0];
    assert PutStep(c, s, b) == Ok(Redecode(c, s, runs[0]));
  }

  /** Decoding more tokens only appends to the text. */
  ghost predicate PrefixStable(decode: seq<int> -> string)
  {
    forall a: seq<int>, b: seq<int> :: a <= b ==> decode(a) <= decode(b)
  }

  /**
   * `s` may follow a `put` whose record was `last`: the token checkpoint is
   * not negative, and either all of the text is locked in or the text is
   * the locked prefix, the separator and the decode of `last`'s unlocked
   * tokens.
   */
  ghost predicate Consistent(c: Config, s: State, last: seq<int>)
  {
    && Inv(s)
    && s.tokenCheckpoint >= 0
    && (|| s.textCheckpoint == |s.printedText|
        || s.printedText == s.printedText[..s.textCheckpoint] + Separator(s.tokenCheckpoint) + c.decode(Unlocked(s, last)))
  }

  /** With a non-negative checkpoint, a longer token list has a longer unlocked part. */
  lemma UnlockedGrows(s: State, last: seq<int>, ids: seq<int>)
    requires s.tokenCheckpoint >= 0 && last <= ids
    ensures Unlocked(s, last) <= Unlocked(s, ids)
  {
    if s.tokenCheckpoint < |last| {
      assert Unlocked(s, last) == last[s.tokenCheckpoint..];
      assert Unlocked(s, ids) == ids[s.tokenCheckpoint..];
      assert ids[..|last|] == last;
    }
  }

  /**
   * Under a prefix-stable decode and a grown token list, a re-decode keeps
   * the old text as a prefix of the new one.
   */
  lemma RedecodeKeepsText(c: Config, s: State, last: seq<int>, ids: seq<int>)
    requires PrefixStable(c.decode) && Consistent(c, s, last) && last <= ids
    requires Unlocked(s, ids) != []
    ensures s.printedText <= Redecode(c, s, ids).next.printedText
  {
    var old_, new_ := Unlocked(s, last), Unlocked(s, ids);
    UnlockedGrows(s, last, ids);
    var prefix := s.printedText[..s.textCheckpoint] + Separator(s.tokenCheckpoint);
    assert Redecode(c, s, ids).next.printedText == prefix + c.decode(new_);
    assert c.decode(old_) <= c.decode(new_);
    if s.textCheckpoint != |s.printedText| {
      assert s.printedText == prefix + c.decode(old_);
    }
  }

  /**
   * One re-decoding `put` under a prefix-stable decode and a grown token
   * list: the text only grows, by exactly the fragment delivered in PARTIAL
   * mode, and the new state is consistent with the new list.
   */
  lemma RedecodeExtends(c: Config, s: State, last: seq<int>, ids: seq<int>)
    requires PrefixStable(c.decode) && c.streamMode == Partial && c.hasStreamCallback
    requires Consistent(c, s, last) && last <= ids
    ensures var r := Redecode(c, s, ids);
      && Consistent(c, r.next, ids)
      && r.next.nextTokensArePrompt == s.nextTokensArePrompt
      && r.next.printedText == s.printedText + Concat(Logged(r.callback))
  {
    var r := Redecode(c, s, ids);
    var old_, new_ := Unlocked(s, last), Unlocked(s, ids);
    UnlockedGrows(s, last, ids);
    if new_ == [] {
      assert old_ == [];
      assert Concat(Logged(r.callback)) == "";
    } else {
      var prefix := s.printedText[..s.textCheckpoint] + Separator(s.tokenCheckpoint);
      var text := r.next.printedText;
      assert text == prefix + c.decode(new_);
      RedecodeKeepsText(c, s, last, ids);
      assert text[..|s.printedText|] == s.printedText;
      assert r.callback == Some(text[|s.printedText|..]);
      assert Concat(Logged(r.callback)) == r.callback.value + Concat([]);
      assert text == s.printedText + Concat(Logged(r.callback));
      if !EndsInPunctuation(c.decode(new_)) {
        assert r.next.tokenCheckpoint == s.tokenCheckpoint && r.next.textCheckpoint == s.textCheckpoint;
        assert text[..s.textCheckpoint] == s.printedText[..s.textCheckpoint];
        assert Unlocked(r.next, ids) == new_;
        assert text == text[..r.next.textCheckpoint] + Separator(r.next.tokenCheckpoint) + c.decode(Unlocked(r.next, ids));
      } else {
        assert r.next.textCheckpoint == |text|;
      }
      assert Consistent(c, r.next, ids);
    }
  }

  /** The first call of a run under the hypotheses of `RunDeliversOnce`, and what it hands on to the rest. */
  lemma RunStepExtends(c: Config, s: State, last: seq<int>, runs: seq<seq<int>>)
    requires PrefixStable(c.decode) && c.streamMode == Partial && c.hasStreamCallback
    requires !EchoesPrompt(c, s)
    requires Consistent(c, s, last) && Grows(last, runs) && runs != []
    ensures var step := Redecode(c, s, runs[0]);
      var rest := Run(c, step.next, runs[1..]);
      && !EchoesPrompt(c, step.next)
      && Consistent(c, step.next, runs[0]) && Grows(runs[0], runs[1..])
      && Run(c, s, runs).0 == rest.0
      && Concat(Run(c, s, runs).1) == Concat(Logged(step.callback)) + Concat(rest.1)
      && step.next.printedText == s.printedText + Concat(Logged(step.callback))
  {
    RunFirst(c, s, runs);
    var step := Redecode(c, s, runs[0]);
    RedecodeExtends(c, s, last, runs[0]);
    ConcatAppend(Logged(step.callback), Run(c, step.next, runs[1..]).1);
  }

  /**
   * The fragments delivered over a run of growing token lists complete the
   * text, each character once: the final text is the starting text followed
   * by every fragment in order (PARTIAL mode, prefix-stable decode, prompt
   * already echoed or not skipped).
   */
  lemma {:induction false} RunDeliversOnce(c: Config, s: State, last: seq<int>, runs: seq<seq<int>>)
    requires PrefixStable(c.decode) && c.streamMode == Partial && c.hasStreamCallback
    requires !EchoesPrompt(c, s)
    requires Consistent(c, s, last) && Grows(last, runs)
    ensures Run(c, s, runs).0.printedText == s.printedText + Concat(Run(c, s, runs).1)
    decreases |runs|
  {
    if runs != [] {
      RunStepExtends(c, s, last, runs);
      var step := Redecode(c, s, runs[0]);
      var rest := Run(c, step.next, runs[1..]);
      RunDeliversOnce(c, step.next, runs[0], runs[1..]);
      var fragment, later := Concat(Logged(step.callback)), Concat(rest.1);
      AppendAssociates(s.printedText, fragment, later);
    }
  }

  /**
   * Associativity of `+` on strings, stated apart only so that
   * `RunDeliversOnce` need not find it among its other facts, which keeps
   * that proof well inside its resource budget.
   */
  lemma AppendAssociates(a: string, b: string, c: string)
    ensures (a + b) + c == a + (b + c)
  {
  }

  lemma {:induction false} ConcatAppend(a: seq<string>, b: seq<string>)
    ensures Concat(a + b) == Concat(a) + Concat(b)
    decreases |a|
  {
    if a == [] {
      assert a + b == b;
    } else {
      assert (a + b)[0] == a[0];
      assert (a + b)[1..] == a[1..] + b;
      ConcatAppend(a[1..], b);
    }
  }

  /**
   * A whole stream from a new streamer, then `end`: the end callback gets
   * the echoed prompt (when the prompt is skipped) followed by every
   * fragment the stream callback received, each exactly once.
   */
  lemma StreamDeliversOnce(c: Config, nextTokensArePrompt: bool, runs: seq<seq<int>>)
    requires PrefixStable(c.decode) && c.streamMode == Partial && c.hasStreamCallback && c.hasEndCallback
    requires c.skipPrompt ==> |c.promptTokens| >= 1
    requires Grows([], runs)
    ensures var r := Run(c, Fresh(nextTokensArePrompt), runs);
      var echo := if c.skipPrompt && nextTokensArePrompt && runs != [] then c.decode(c.promptTokens) else "";
      Finish(c, r.0).callback == Some(echo + Concat(r.1))
  {
    var s := Fresh(nextTokensArePrompt);
    if runs != [] && EchoesPrompt(c, s) {
      var p := PromptEcho(c);
      assert PutStep(c, s, [runs[0]]) == Ok(Step(p, None));
      var tail := Run(c, p, runs[1..]);
      assert Run(c, s, runs) == (tail.0, [] + tail.1);
      assert [] + tail.1 == tail.1;
      assert Consistent(c, p, runs[0]);
      RunDeliversOnce(c, p, runs[0], runs[1..]);
      assert Finish(c, Run(c, s, runs).0).callback == Some(c.decode(c.promptTokens) + Concat(Run(c, s, runs).1));
    } else if runs != [] {
      assert Consistent(c, s, []);
      RunDeliversOnce(c, s, [], runs);
      var r := Run(c, s, runs);
      assert r.0.printedText == "" + Concat(r.1);
      assert "" + Concat(r.1) == Concat(r.1);
      assert Finish(c, r.0).callback == Some(Concat(r.1));
    } else {
      var r := Run(c, s, runs);
      assert r == (s, []);
      assert "" + Concat(r.1) == "";
    }
  }

  /**
   * Two `put` calls with the same token list: the second leaves the state
   * as the first left it. It is a no-op when the first call locked in every
   * token; otherwise it calls the stream callback again, with nothing new in
   * PARTIAL mode and the unchanged text in FULL mode.
   */
  lemma RepeatedPut(c: Config, s: State, ids: seq<int>)
    requires Inv(s) && !EchoesPrompt(c, s)
    ensures var first := Redecode(c, s, ids);
      var second := Redecode(c, first.next, ids);
      && second.next == first.next
      && (second.callback.Some? <==> c.hasStreamCallback && Unlocked(first.next, ids) != [])
      && (second.callback.Some? ==>
            second.callback.value == if c.streamMode == Partial then "" else first.next.printedText)
  {
    var f := Redecode(c, s, ids);
    if Unlocked(s, ids) != [] && !EndsInPunctuation(c.decode(Unlocked(s, ids))) {
      assert f.next.printedText[..s.textCheckpoint] == s.printedText[..s.textCheckpoint];
    }
  }
}
