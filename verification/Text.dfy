/** Splitting strings at a separator. */
module Text {
  ghost predicate Without(c: char, items: seq<string>) { forall x :: x in items ==> c !in x }

  /** If the left parts do not contain the separator, its first occurrence splits the text. */
  lemma SplitFirst(c: char, x: string, rest: string, y: string, more: string)
    requires c !in x && c !in y
    requires x + [c] + rest == y + [c] + more
    ensures x == y && rest == more
  {
    var s := x + [c] + rest;
    assert forall i :: 0 <= i < |x| ==> s[i] == x[i] && x[i] in x;
    assert forall i :: 0 <= i < |y| ==> s[i] == y[i] && y[i] in y;
    assert s[|x|] == c && s[|y|] == c;
    assert s[..|x|] == x && s[..|y|] == y;
    assert s[|x| + 1..] == rest && s[|y| + 1..] == more;
  }

  /** If the right parts do not contain the separator, its last occurrence splits the text. */
  lemma SplitLast(c: char, a: string, b: string, x: string, y: string)
    requires c !in b && c !in y
    requires a + [c] + b == x + [c] + y
    ensures a == x && b == y
  {
    var s := a + [c] + b;
    assert forall i :: |a| < i < |s| ==> s[i] == b[i - |a| - 1] && s[i] in b;
    assert forall i :: |x| < i < |s| ==> s[i] == y[i - |x| - 1] && s[i] in y;
    assert s[|a|] == c && s[|x|] == c;
    assert s[..|a|] == a && s[..|x|] == x;
    assert s[|a| + 1..] == b && s[|x| + 1..] == y;
  }
}
