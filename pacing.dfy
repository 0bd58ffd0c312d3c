/** The speaking-time arithmetic of watsonUtils.ts. */
module Pacing {

  /** `pausePerWord`: milliseconds needed to speak `n` words at `wordsPerMinute`. */
  function PausePerWord(n: int, wordsPerMinute: real): real
    requires wordsPerMinute != 0.0
  {
    (n as real) * ((60.0 / wordsPerMinute) * 1000.0)
  }

  /** Speaking the `n` words for the pause at `wordsPerMinute` takes the
      minutes `n / wordsPerMinute`. */
  lemma PausePerWordRate(n: int, wordsPerMinute: real)
    requires wordsPerMinute != 0.0
    ensures PausePerWord(n, wordsPerMinute) * wordsPerMinute == 60000.0 * n as real
  {
  }

  lemma PausePerWordExample()
    ensures PausePerWord(5, 150.0) == 2000.0
  {
  }

  /** The pause is linear in the word count. */
  lemma PausePerWordLinear(a: int, b: int, wordsPerMinute: real)
    requires wordsPerMinute != 0.0
    ensures PausePerWord(a + b, wordsPerMinute) == PausePerWord(a, wordsPerMinute) + PausePerWord(b, wordsPerMinute)
  {
  }

  /** At a positive rate, more words never mean a shorter pause. */
  lemma PausePerWordMonotone(a: int, b: int, wordsPerMinute: real)
    requires wordsPerMinute > 0.0 && a <= b
    ensures PausePerWord(a, wordsPerMinute) <= PausePerWord(b, wordsPerMinute)
  {
    var d := 60000.0 / wordsPerMinute;
    assert d > 0.0;
    assert PausePerWord(b, wordsPerMinute) - PausePerWord(a, wordsPerMinute) == (b - a) as real * d;
  }
}
