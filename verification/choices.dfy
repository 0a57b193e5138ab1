/** The random source of the generator, made explicit.

    The generator draws every random number with `mt_rand(lo, hi)`. Here the
    numbers come from a finite stream of naturals that is read left to right;
    each draw takes the head of the stream and reduces it into `[lo, hi]`.
    A stream that has run out behaves as if it were followed by zeros: the
    draw answers `lo` and consumes nothing.
 */
module ChoiceStream {

  type Choices = seq<nat>

  /** The stream left after one draw. */
  function Tail(cs: Choices): (rest: Choices)
    ensures |cs| == 0 ==> rest == []
    ensures |cs| > 0 ==> cs == [cs[0]] + rest
  {
    if |cs| == 0 then [] else cs[1..]
  }

  /** `rest` is what remains of `cs` after dropping some of its first
      elements. */
  ghost predicate IsSuffix(rest: Choices, cs: Choices)
    decreases |cs|
  {
    rest == cs || (|cs| > 0 && IsSuffix(rest, cs[1..]))
  }

  /** One draw of `mt_rand(lo, hi)`: a value in the inclusive range and the
      stream that remains. */
  function Draw(lo: int, hi: int, cs: Choices): (r: (int, Choices))
    requires lo <= hi
    ensures lo <= r.0 <= hi
    ensures r.1 == Tail(cs)
    ensures IsSuffix(r.1, cs)
  {
    if |cs| == 0 then (lo, []) else (lo + cs[0] % (hi - lo + 1), cs[1..])
  }

  /** Every value of the range is reachable: the choice `v - lo` in front of
      any continuation draws `v` and leaves the continuation untouched. */
  lemma DrawReaches(lo: int, hi: int, v: int, rest: Choices)
    requires lo <= v <= hi
    ensures Draw(lo, hi, [v - lo] + rest) == (v, rest)
  {
    var cs := [v - lo] + rest;
    assert cs[1..] == rest;
  }

  /** A suffix is what is left after dropping exactly its length's
      difference from the front. */
  lemma {:induction false} SuffixDrops(rest: Choices, cs: Choices)
    requires IsSuffix(rest, cs)
    ensures |rest| <= |cs| && rest == cs[|cs| - |rest|..]
    decreases |cs|
  {
    if rest != cs {
      SuffixDrops(rest, cs[1..]);
    }
  }

  lemma {:induction false} SuffixTransitive(a: Choices, b: Choices, c: Choices)
    requires IsSuffix(a, b) && IsSuffix(b, c)
    ensures IsSuffix(a, c)
    decreases |c|
  {
    if b != c {
      SuffixTransitive(a, b, c[1..]);
    }
  }
}
