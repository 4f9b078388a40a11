/**
 * A worked stream of four `put` calls over the fragments "Hello", ",",
 * "world" and ".", in PARTIAL mode with a stream callback: the comma locks
 * the first two tokens in, after which only the tokens past the checkpoint
 * are decoded, and the text goes on after a separating space.
 */
module PunctuationExample {
  import opened Wrappers
  import opened Php
  import opened TextStreamers

  /** A decode that knows four token lists: [1] is "Hello", [1, 2] "Hello,", [3] "world" and [3, 4] "world.". */
  function Words(tokens: seq<int>): string
  {
    if tokens == [1] then "Hello"
    else if tokens == [1, 2] then "Hello,"
    else if tokens == [3] then "world"
    else if tokens == [3, 4] then "world."
    else ""
  }

  const Example := Config(Words, false, [], Partial, true, false)

  lemma Endings()
    ensures !EndsInPunctuation("Hello") && EndsInPunctuation("Hello,")
    ensures !EndsInPunctuation("world") && EndsInPunctuation("world.")
  {
    assert "Hello"[4] == 'o' && "Hello,"[5] == ',';
    assert "world"[4] == 'd' && "world."[5] == '.';
  }

  /** First call, tokens [1]: "Hello" is delivered; no punctuation, so nothing is locked in. */
  lemma FirstCall()
    ensures Redecode(Example, Fresh(false), [1])
      == Step(State("Hello", 5, 0, 0, false), Some("Hello"))
  {
    Endings();
    assert Unlocked(Fresh(false), [1]) == [1];
    assert MbSubstr("", 0, Some(0)) == "";
    assert "" + "" + "Hello" == "Hello";
  }

  /** Second call, tokens [1, 2]: only "," is delivered, and the comma moves both checkpoints to the end. */
  lemma SecondCall()
    ensures Redecode(Example, State("Hello", 5, 0, 0, false), [1, 2])
      == Step(State("Hello,", 6, 2, 6, false), Some(","))
  {
    Endings();
    assert Unlocked(State("Hello", 5, 0, 0, false), [1, 2]) == [1, 2];
    assert MbSubstr("Hello", 0, Some(0)) == "";
    assert "" + "" + "Hello," == "Hello,";
    assert MbSubstr("Hello,", 5, None) == ",";
  }

  /** Third call, tokens [1, 2, 3]: only token 3 is decoded; the locked "Hello," is kept and a space separates it. */
  lemma ThirdCall()
    ensures Redecode(Example, State("Hello,", 6, 2, 6, false), [1, 2, 3])
      == Step(State("Hello, world", 12, 2, 6, false), Some(" world"))
  {
    Endings();
    assert Unlocked(State("Hello,", 6, 2, 6, false), [1, 2, 3]) == [3];
    assert MbSubstr("Hello,", 0, Some(6)) == "Hello,";
    assert "Hello," + " " + "world" == "Hello, world";
    assert MbSubstr("Hello, world", 6, None) == " world";
  }

  /** Fourth call, tokens [1, 2, 3, 4]: tokens 3 and 4 are decoded again, "." is delivered and everything is locked in. */
  lemma FourthCall()
    ensures Redecode(Example, State("Hello, world", 12, 2, 6, false), [1, 2, 3, 4])
      == Step(State("Hello, world.", 13, 4, 13, false), Some("."))
  {
    Endings();
    FourthCallText();
    assert Unlocked(State("Hello, world", 12, 2, 6, false), [1, 2, 3, 4]) == [3, 4];
  }

  /** The string steps of the fourth call: the locked prefix, the rebuilt text and the fragment past 12. */
  lemma FourthCallText()
    ensures MbSubstr("Hello, world", 0, Some(6)) == "Hello,"
    ensures "Hello," + " " + "world." == "Hello, world."
    ensures MbSubstr("Hello, world.", 12, None) == "."
  {
    assert "Hello, world"[..6] == "Hello,";
    assert "Hello, world."[12..] == ".";
  }
}
