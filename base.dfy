/**
 * Shared vocabulary: nullable values, results with an error side, the
 * `StringUtils.hasText` test used throughout the service, and the integer
 * matrices that graph codes carry.
 */
module Base {

  /** A Java reference that may be null. */
  datatype Option<+T> = None | Some(value: T)

  /** The outcome of an operation that throws in the source. */
  datatype Result<+R, +E> = Success(value: R) | Failure(error: E)

  /** A graph-code matrix, one sequence per row. */
  type Matrix = seq<seq<int>>

  /**
   * The characters `Character.isWhitespace` accepts in the ASCII range:
   * space, the tab/line/form-feed controls and the four separator controls.
   */
  predicate IsWhitespace(c: char)
  {
    c == ' ' || c == '\t' || c == '\n' || c == '\U{B}' || c == '\U{C}' || c == '\r'
    || c == '\U{1C}' || c == '\U{1D}' || c == '\U{1E}' || c == '\U{1F}'
  }

  /** True if some character of `s` is not whitespace. */
  function ContainsText(s: string): (b: bool)
    ensures b <==> exists i :: 0 <= i < |s| && !IsWhitespace(s[i])
  {
    if s == [] then false
    else if !IsWhitespace(s[0]) then true
    else
      var rest := ContainsText(s[1..]);
      assert forall i :: 1 <= i < |s| ==> s[i] == s[1..][i - 1];
      rest
  }

  /** `StringUtils.hasText`: not null, and not blank. */
  predicate HasText(s: Option<string>)
  {
    s.Some? && ContainsText(s.value)
  }

  /**
   * True if every row has exactly `n` entries; computed row by row, as the
   * early-return loops over `int[][]` rows in the source do.
   */
  function RowsHaveLength(rows: Matrix, n: nat): (b: bool)
    ensures b <==> forall i :: 0 <= i < |rows| ==> |rows[i]| == n
  {
    if rows == [] then true
    else if |rows[0]| != n then false
    else
      var rest := RowsHaveLength(rows[1..], n);
      assert forall i :: 1 <= i < |rows| ==> rows[i] == rows[1..][i - 1];
      rest
  }

  /** A square matrix whose side is `n`. */
  ghost predicate IsSquareOfSide(m: Matrix, n: nat)
  {
    |m| == n && forall i :: 0 <= i < |m| ==> |m[i]| == n
  }

  /**
   * `List.indexOf`: the first index holding `x`, or -1 when there is none.
   */
  function IndexOf<T(==)>(s: seq<T>, x: T): (k: int)
    ensures -1 <= k < |s|
    ensures k == -1 <==> x !in s
    ensures 0 <= k ==> s[k] == x && x !in s[..k]
  {
    if s == [] then -1
    else if s[0] == x then 0
    else
      var k := IndexOf(s[1..], x);
      assert s == [s[0]] + s[1..];
      if k == -1 then -1
      else
        assert s[..k + 1] == [s[0]] + s[1..][..k];
        k + 1
  }
}
