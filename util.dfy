/** Path joining (util.cpp:5-14). */
module Util {
  /**
   * QDir::separator() on the platform the program targets: it opens files through the Win32
   * shell, so the native separator is the backslash.
   */
  const Separator: char := '\\'

  /** operator/(QString, QString) (util.cpp:5-14): left operand, one separator, right operand. */
  function Join(lhs: string, rhs: string): (r: string)
    ensures |r| == |lhs| + 1 + |rhs|
    ensures r[..|lhs|] == lhs && r[|lhs|] == Separator && r[|lhs| + 1..] == rhs
  {
    lhs + [Separator] + rhs
  }

  /**
   * Nothing is normalised: the separator is added even after an empty left operand, after a
   * trailing separator or before a leading one.
   */
  lemma JoinDoesNotNormalise(lhs: string, rhs: string)
    ensures Join("", rhs)[0] == Separator
    ensures |lhs| > 0 && lhs[|lhs| - 1] == Separator ==>
      Join(lhs, rhs)[|lhs| - 1] == Separator && Join(lhs, rhs)[|lhs|] == Separator
    ensures |rhs| > 0 && rhs[0] == Separator ==>
      Join(lhs, rhs)[|lhs|] == Separator && Join(lhs, rhs)[|lhs| + 1] == Separator
  {
  }

  /**
   * The partner of Join: when the left operand holds no separator, the joined path splits back
   * into its operands at its first separator.
   */
  lemma JoinSplitsAtFirstSeparator(a: string, b: string, c: string, d: string)
    requires Separator !in a && Separator !in c
    requires Join(a, b) == Join(c, d)
    ensures a == c && b == d
  {
  }
}
