/** Facts about strings built by concatenation, used to show that the
    page's keys and markup can be taken apart again. */
module Text {

  /** Splitting at the first occurrence of a separator: if neither left part
      contains the separator, equal joins have equal parts. */
  lemma {:induction false} SplitAtSeparator(sep: char, a: string, b: string, a': string, b': string)
    requires sep !in a && sep !in a'
    requires a + [sep] + b == a' + [sep] + b'
    ensures a == a' && b == b'
  {
    var s := a + [sep] + b;
    // the separator of the shorter left part sits where the longer one has none
    var n := if |a| < |a'| then |a| else |a'|;
    assert s[n] == sep;
    assert |a| == |a'|;
    assert a == s[..|a|] == a';
    assert b == s[|a| + 1..] == b';
  }

  /** A fixed prefix and suffix can be cancelled. */
  lemma {:induction false} CancelFrame(p: string, x: string, x': string, q: string)
    requires p + x + q == p + x' + q
    ensures x == x'
  {
    var s := p + x + q;
    assert |x| == |x'|;
    assert x == s[|p|..|p| + |x|] == x';
  }

  /** A fixed prefix can be cancelled. */
  lemma {:induction false} CancelPrefix(p: string, x: string, x': string)
    requires p + x == p + x'
    ensures x == x'
  {
    var s := p + x;
    assert x == s[|p|..] == x';
  }
}
