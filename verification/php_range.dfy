/** PHP's `range($start, $end)` on two one-character strings.

    The result lists every character code from `$start` to `$end`
    inclusive, one step at a time, ascending when `$start <= $end` and
    DESCENDING otherwise: `range('a', 'c')` is `['a', 'b', 'c']` and
    `range('a', 'Z')` is `['a', '`', '_', '^', ']', '\', '[', 'Z']`, because
    'a' is code 97 and 'Z' is code 90. PHP strings are byte strings and
    `range()` steps through single-byte codes, so both ends are bytes here.
 */
module PhpRange {

  /** A character that fits in one byte of a PHP string. */
  predicate IsByte(c: char) {
    c as int < 256
  }

  /** `c` lies between the two ends, in either order, by character code. */
  predicate Between(c: char, a: char, b: char) {
    if a <= b then a <= c <= b else b <= c <= a
  }

  /** The number of steps from `a` to `b`. */
  function Distance(a: char, b: char): nat {
    if a <= b then b as int - a as int else a as int - b as int
  }

  /** `range(first, last)` on one-byte characters. */
  function CharRange(first: char, last: char): (r: seq<char>)
    requires IsByte(first) && IsByte(last)
    ensures |r| == Distance(first, last) + 1
    ensures r[0] == first && r[|r| - 1] == last
    ensures forall i :: 0 <= i < |r| ==> Between(r[i], first, last) && IsByte(r[i])
    ensures forall c :: Between(c, first, last) ==> c in r
  {
    var r := if first <= last then
      seq(last as int - first as int + 1, i requires 0 <= i <= last as int - first as int => (first as int + i) as char)
    else
      seq(first as int - last as int + 1, i requires 0 <= i <= first as int - last as int => (first as int - i) as char);
    assert forall c :: Between(c, first, last) ==> r[Distance(first, c)] == c;
    r
  }

  /** The characters PHP's `range('a', 'Z')` lists, in PHP's order. */
  lemma DescendingLetters()
    ensures CharRange('a', 'Z') == ['a', '`', '_', '^', ']', '\\', '[', 'Z']
  {
  }

  /** A character lies in `range('a', 'Z')` exactly when its code is one of
      90..97. */
  lemma DescendingLettersCodes(c: char)
    ensures c in CharRange('a', 'Z') <==> 90 <= c as int <= 97
  {
    var r := CharRange('a', 'Z');
    if c in r {
      var i :| 0 <= i < |r| && r[i] == c;
      assert Between(r[i], 'a', 'Z');
    }
  }
}
