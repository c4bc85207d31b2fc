/** Runs of a step function over a stream of inputs. */
module Streams {

  /** The state after the whole input. */
  function Final<S, R, O>(step: (S, R) -> (S, O), start: S, input: seq<R>): S {
    if input == [] then start
    else step(Final(step, start, input[..|input| - 1]), input[|input| - 1]).0
  }

  /** What each input record emits. */
  function Outputs<S, R, O>(step: (S, R) -> (S, O), start: S, input: seq<R>): (outs: seq<O>)
    ensures |outs| == |input|
  {
    if input == [] then []
    else
      var init, last := input[..|input| - 1], input[|input| - 1];
      Outputs(step, start, init) + [step(Final(step, start, init), last).1]
  }

  lemma Snoc<S, R, O>(step: (S, R) -> (S, O), start: S, input: seq<R>, r: R)
    ensures Final(step, start, input + [r]) == step(Final(step, start, input), r).0
    ensures Outputs(step, start, input + [r])
         == Outputs(step, start, input) + [step(Final(step, start, input), r).1]
  {
    assert (input + [r])[..|input|] == input;
  }

  /** A run over `first + second` is the run over `second` from where `first` ended. */
  lemma {:induction false} Continues<S, R, O>(step: (S, R) -> (S, O), start: S, first: seq<R>, second: seq<R>)
    ensures Final(step, start, first + second) == Final(step, Final(step, start, first), second)
    ensures Outputs(step, start, first + second)
         == Outputs(step, start, first) + Outputs(step, Final(step, start, first), second)
  {
    if second == [] {
      assert first + second == first;
    } else {
      var init, last := second[..|second| - 1], second[|second| - 1];
      Continues(step, start, first, init);
      Snoc(step, start, first + init, last);
      Snoc(step, Final(step, start, first), init, last);
      assert second == init + [last];
      assert first + second == (first + init) + [last];
    }
  }
}
