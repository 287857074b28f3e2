/**
 * Grading of one language-model response during an evaluation run. The
 * response text is parsed, then an ordered cascade of checks decides an
 * execution state: the first failing check names the state, and a
 * graph-code response that passes every check but does not reproduce the
 * expected matrix exactly is flagged with a warning.
 *
 * The similarity ratio of the source is a double `matching / (n * n)`; here
 * it is the pair of integers, and the two comparisons the source makes with
 * it (`> 0.85` and `< 1`) are stated with integer arithmetic.
 */
module Evaluation {
  import opened Base

  /** The possible verdicts (the `ExecutionState` enum of the source). */
  datatype ExecutionState =
    | Success | NonParsableJson | ExpectedError | ExpectedNoError | WrongKeywords
    | NonMatchingMatrix | NonExistentMatrixEntries | WrongMatrixEntry | WarningMatrix

  /** A value that may occur in a graph-code matrix; identity values belong on the diagonal. */
  datatype EncodingMapping = EncodingMapping(id: int, attribute: string, identityMapping: bool)

  /** The encodings the evaluation grades against (`Execution.getEncodings`). */
  const ENCODINGS: seq<EncodingMapping> := [
    EncodingMapping(1, "object", true),
    EncodingMapping(2, "context", true),
    EncodingMapping(3, "synonym", true),
    EncodingMapping(4, "activity", true),
    EncodingMapping(5, "attached", false),
    EncodingMapping(6, "under", false),
    EncodingMapping(7, "above", false),
    EncodingMapping(8, "perform", false),
    EncodingMapping(9, "target", false),
    EncodingMapping(10, "daughter", false),
    EncodingMapping(14, "characteristic", false)
  ]

  /** An evaluation query: the question and, when the model should succeed, the expected keywords and matrix. */
  datatype Query = Query(query: string, keywords: Option<seq<string>>, matrix: Option<Matrix>)

  /** One evaluation run: the query and whether the prompt is a keyword prompt (otherwise a graph-code prompt). */
  datatype Execution = Execution(nlq: Query, keywordPrompt: bool)

  /** `expectErrors`: the query lacks an expected keyword list or an expected matrix. */
  predicate ExpectErrors(ex: Execution)
  {
    ex.nlq.keywords.None? || ex.nlq.matrix.None?
  }

  /** The fields of a parsed response; every one may be null. */
  datatype Response = Response(
    dictionary: Option<seq<string>>,
    matrix: Option<Matrix>,
    description: Option<string>,
    error: Option<string>)

  /** What the JSON parser makes of the response text: a syntax error, a null document, or a response. */
  datatype JsonParse = SyntaxError | NullDocument | Document(response: Response)

  /** The end of `check`: a verdict, or an exception that escapes it. */
  datatype Outcome = Graded(state: ExecutionState) | Crashed

  /** `matrixSimilarity` as the fraction `num / den`. */
  datatype Ratio = Ratio(num: int, den: int)

  /** `similarity > 0.85`; false for `0 / 0`, as a NaN comparison is. */
  predicate Exceeds85(s: Ratio)
  {
    s.num * 20 > 17 * s.den
  }

  /** `similarity < 1`; false for `0 / 0`, as a NaN comparison is. */
  predicate BelowOne(s: Ratio)
  {
    s.num < s.den
  }

  /** `Character.toLowerCase` on the ASCII range. */
  function LowerChar(c: char): char
  {
    if 'A' <= c <= 'Z' then (c as int + 32) as char else c
  }

  /** No character of `s` is an ASCII capital. */
  predicate NoUpper(s: string)
  {
    forall i :: 0 <= i < |s| ==> !('A' <= s[i] <= 'Z')
  }

  /**
   * `String.toLowerCase` on the ASCII range: the result has no capital left,
   * and a text without capitals comes back unchanged.
   */
  function Lower(s: string): (t: string)
    ensures |t| == |s| && NoUpper(t)
    ensures NoUpper(s) ==> t == s
  {
    seq(|s|, i requires 0 <= i < |s| => LowerChar(s[i]))
  }

  /** Lower-casing twice is lower-casing once. */
  lemma LowerIdempotent(s: string)
    ensures Lower(Lower(s)) == Lower(s)
  {
  }

  /** `String.equalsIgnoreCase` on the ASCII range. */
  predicate EqualsIgnoreCase(a: string, b: string)
  {
    Lower(a) == Lower(b)
  }

  /** The position of a keyword equal to `key` up to case, or -1 (`IndexIgnoringCaseFinds` says which). */
  function IndexIgnoringCase(keywords: seq<string>, key: string): (k: int)
    ensures -1 <= k < |keywords|
  {
    if keywords == [] then -1
    else if EqualsIgnoreCase(keywords[0], key) then 0
    else
      var k := IndexIgnoringCase(keywords[1..], key);
      if k == -1 then -1 else k + 1
  }

  /** The lookup yields the first keyword equal to `key` up to case, and -1 exactly when there is none. */
  lemma {:induction false} IndexIgnoringCaseFinds(keywords: seq<string>, key: string)
    ensures var k := IndexIgnoringCase(keywords, key);
      && (k == -1 <==> forall j :: 0 <= j < |keywords| ==> !EqualsIgnoreCase(keywords[j], key))
      && (0 <= k ==> EqualsIgnoreCase(keywords[k], key) && forall j :: 0 <= j < k ==> !EqualsIgnoreCase(keywords[j], key))
    decreases |keywords|
  {
    if keywords != [] && !EqualsIgnoreCase(keywords[0], key) {
      IndexIgnoringCaseFinds(keywords[1..], key);
      assert forall j :: 1 <= j < |keywords| ==> keywords[j] == keywords[1..][j - 1];
    }
  }

  /**
   * The lookup of `getValueByKeywords` as written: the lower-cased key,
   * searched case-sensitively; -1 exactly when no keyword is that text.
   */
  function LookupAsWritten(keywords: seq<string>, key: string): (k: int)
    ensures -1 <= k < |keywords|
    ensures k == -1 <==> Lower(key) !in keywords
    ensures 0 <= k ==> keywords[k] == Lower(key)
  {
    IndexOf(keywords, Lower(key))
  }

  /**
   * As written, a dictionary that passes the keyword check can still miss
   * the lookup: the expected keyword "Maria" is found ignoring case, but its
   * lower-cased form is not in the list, so the expected matrix would be
   * read at row -1.
   */
  lemma AsWrittenLookupMisses()
    ensures var keywords := ["Maria", "play", "basketball"];
      && CheckKeywords(keywords, keywords)
      && LookupAsWritten(keywords, "Maria") == -1
      && IndexIgnoringCase(keywords, "Maria") == 0
  {
    var keywords := ["Maria", "play", "basketball"];
    IndexIgnoringCaseFinds(keywords, "Maria");
    var low := Lower("Maria");
    assert low[0] == 'm' && |low| == 5;
    assert low != keywords[0] && low != keywords[1] && low != keywords[2];
    assert low !in keywords;
    forall i | 0 <= i < |keywords| ensures IndexIgnoringCase(keywords, keywords[i]) >= 0 {
      IndexIgnoringCaseFinds(keywords, keywords[i]);
      assert EqualsIgnoreCase(keywords[i], keywords[i]);
    }
  }

  /**
   * When two keywords differ only in case, the two lookups can both succeed
   * and still disagree: the lower-cased key is the second keyword, while the
   * first keyword already equals the key ignoring case.
   */
  lemma LookupsDisagreeOnCaseTwins()
    ensures var keywords := ["Play", "play"];
      && LookupAsWritten(keywords, "PLAY") == 1
      && IndexIgnoringCase(keywords, "PLAY") == 0
  {
    var keywords := ["Play", "play"];
    var low := Lower("PLAY");
    assert low == "play";
    assert keywords[0] != low && keywords[1] == low;
    assert Lower(keywords[0]) == "play";
  }

  /** On a lower-case keyword list the case-insensitive lookup finds what the source's lookup finds. */
  lemma {:induction false} LookupsAgreeOnLowerCase(keywords: seq<string>, key: string)
    requires forall j :: 0 <= j < |keywords| ==> NoUpper(keywords[j])
    ensures IndexIgnoringCase(keywords, key) == LookupAsWritten(keywords, key)
    decreases |keywords|
  {
    if keywords != [] {
      assert Lower(keywords[0]) == keywords[0];
      if !EqualsIgnoreCase(keywords[0], key) {
        assert keywords[0] != Lower(key);
        LookupsAgreeOnLowerCase(keywords[1..], key);
      } else {
        assert keywords[0] == Lower(key);
      }
    }
  }

  /**
   * `checkErrors`: the error the query expects was reported, with the part
   * that should have failed empty. Without an error text the check passes
   * exactly when the query expects nothing to fail at this stage.
   */
  function CheckErrors(r: Response, ex: Execution): (ok: bool)
    ensures !HasText(r.error) ==> (ok <==> ex.nlq.keywords.Some? && (ex.nlq.matrix.Some? || ex.keywordPrompt))
    ensures ok && ex.nlq.keywords.None? ==> HasText(r.error) && (r.dictionary.None? || r.dictionary.value == [])
  {
    if ex.nlq.keywords.None? then
      HasText(r.error) && (r.dictionary.None? || r.dictionary.value == [])
    else if ex.nlq.matrix.None? && !ex.keywordPrompt then
      HasText(r.error) && (r.matrix.None? || r.matrix.value == [])
    else true
  }

  /** `checkFalseErrors`: no error is reported where the query expects success. */
  function CheckFalseErrors(r: Response, ex: Execution): (ok: bool)
    ensures !ExpectErrors(ex) ==> (ok <==> !HasText(r.error))
    ensures ex.keywordPrompt && ex.nlq.keywords.None? ==> ok
  {
    if ex.nlq.keywords.Some? && HasText(r.error) then false
    else ex.keywordPrompt || ex.nlq.matrix.None? || !HasText(r.error)
  }

  /** Every entry equals, ignoring case, some expected keyword (the loop of `checkKeywords`). */
  function AllMatched(entries: seq<string>, keywords: seq<string>): (ok: bool)
    ensures ok <==> forall i :: 0 <= i < |entries| ==> IndexIgnoringCase(keywords, entries[i]) >= 0
  {
    if entries == [] then true
    else if IndexIgnoringCase(keywords, entries[0]) == -1 then false
    else
      var rest := AllMatched(entries[1..], keywords);
      assert forall i :: 1 <= i < |entries| ==> entries[i] == entries[1..][i - 1];
      rest
  }

  /** An entry is found by the lookup exactly when some keyword equals it up to case. */
  lemma EntriesFound(entries: seq<string>, keywords: seq<string>)
    ensures forall i :: 0 <= i < |entries| ==>
      (IndexIgnoringCase(keywords, entries[i]) >= 0 <==>
       exists k :: 0 <= k < |keywords| && EqualsIgnoreCase(keywords[k], entries[i]))
  {
    forall i | 0 <= i < |entries| {
      IndexIgnoringCaseFinds(keywords, entries[i]);
    }
  }

  /**
   * `checkKeywords`: as many entries as expected keywords, and every entry
   * equal, ignoring case, to one of them.
   */
  function CheckKeywords(dictionary: seq<string>, keywords: seq<string>): (ok: bool)
    ensures ok <==>
      && |dictionary| == |keywords|
      && forall i :: 0 <= i < |dictionary| ==> exists k :: 0 <= k < |keywords| && EqualsIgnoreCase(keywords[k], dictionary[i])
  {
    if |dictionary| != |keywords| then false
    else
      var ok := AllMatched(dictionary, keywords);
      EntriesFound(dictionary, keywords);
      ok
  }

  /** `checkMatrixSize`: one row per dictionary entry, and the matrix square. */
  function CheckMatrixSize(dictionary: seq<string>, m: Matrix): (ok: bool)
    ensures ok <==> |dictionary| == |m| && IsSquareOfSide(m, |m|)
  {
    if |dictionary| != |m| then false
    else RowsHaveLength(m, |m|)
  }

  /** The ids of the identity mappings. */
  function IdentityIds(encodings: seq<EncodingMapping>): set<int>
  {
    set e | e in encodings && e.identityMapping :: e.id
  }

  /** The ids of the other mappings. */
  function RelationIds(encodings: seq<EncodingMapping>): set<int>
  {
    set e | e in encodings && !e.identityMapping :: e.id
  }

  /** The values on the diagonal. */
  function DiagonalValues(m: Matrix): set<int>
    requires IsSquareOfSide(m, |m|)
  {
    set i | 0 <= i < |m| :: m[i][i]
  }

  /** The values off the diagonal. */
  function OtherValues(m: Matrix): set<int>
    requires IsSquareOfSide(m, |m|)
  {
    set p | p in (set i, j | 0 <= i < |m| && 0 <= j < |m| && i != j :: (i, j)) :: m[p.0][p.1]
  }

  /** The entry `v` at a position on (`diagonal`) or off the diagonal is allowed. */
  predicate Allowed(v: int, diagonal: bool, encodings: seq<EncodingMapping>)
  {
    if diagonal then v in IdentityIds(encodings) else v == 0 || v in RelationIds(encodings)
  }

  /**
   * `checkMatrixValues`: the diagonal holds only identity ids, and every
   * other entry is 0 or the id of a non-identity mapping.
   */
  function CheckMatrixValues(m: Matrix, encodings: seq<EncodingMapping>): (ok: bool)
    requires IsSquareOfSide(m, |m|)
    ensures ok <==> forall i, j :: 0 <= i < |m| && 0 <= j < |m| ==> Allowed(m[i][j], i == j, encodings)
  {
    var diagonal := DiagonalValues(m);
    var others := OtherValues(m);
    var ok := (forall v :: v in diagonal ==> v in IdentityIds(encodings))
           && (forall v :: v in others ==> v == 0 || v in RelationIds(encodings));
    assert forall i, j :: 0 <= i < |m| && 0 <= j < |m| && i != j ==> m[i][j] in others by {
      forall i, j | 0 <= i < |m| && 0 <= j < |m| && i != j ensures m[i][j] in others {
        assert (i, j) in (set i, j | 0 <= i < |m| && 0 <= j < |m| && i != j :: (i, j));
      }
    }
    assert forall i :: 0 <= i < |m| ==> m[i][i] in diagonal;
    ok
  }

  /** Every position the matching loop looks up lies inside the expected matrix. */
  predicate Covered(dictionary: seq<string>, keywords: seq<string>, expected: Matrix)
  {
    forall i, j :: 0 <= i < |dictionary| && 0 <= j < |dictionary| ==>
      && 0 <= IndexIgnoringCase(keywords, dictionary[i]) < |expected|
      && 0 <= IndexIgnoringCase(keywords, dictionary[j]) < |expected[IndexIgnoringCase(keywords, dictionary[i])]|
  }

  /**
   * `getValueByKeywords`: the expected value for the pair of keywords, read
   * at the position of each keyword in the expected list (found ignoring case).
   */
  function GetValueByKeywords(keywords: seq<string>, expected: Matrix, keyword1: string, keyword2: string): (v: int)
    requires 0 <= IndexIgnoringCase(keywords, keyword1) < |expected|
    requires 0 <= IndexIgnoringCase(keywords, keyword2) < |expected[IndexIgnoringCase(keywords, keyword1)]|
  {
    expected[IndexIgnoringCase(keywords, keyword1)][IndexIgnoringCase(keywords, keyword2)]
  }

  /** A response matrix next to what the query expects, for the matching stage. */
  datatype Comparison = Comparison(matrix: Matrix, dictionary: seq<string>, keywords: seq<string>, expected: Matrix)

  /** The response matrix is square and has one row per dictionary entry. */
  ghost predicate Shaped(c: Comparison)
  {
    IsSquareOfSide(c.matrix, |c.matrix|) && |c.dictionary| == |c.matrix|
  }

  /** The matching stage may run: the comparison is shaped and every lookup hits. */
  ghost predicate Comparable(c: Comparison)
  {
    Shaped(c) && Covered(c.dictionary, c.keywords, c.expected)
  }

  /** The value the query expects at position (i, j); 0 where a lookup would miss. */
  ghost function ExpectedAt(c: Comparison, i: int, j: int): int
  {
    if 0 <= i < |c.dictionary| && 0 <= j < |c.dictionary|
       && 0 <= IndexIgnoringCase(c.keywords, c.dictionary[i]) < |c.expected|
       && 0 <= IndexIgnoringCase(c.keywords, c.dictionary[j]) < |c.expected[IndexIgnoringCase(c.keywords, c.dictionary[i])]|
    then GetValueByKeywords(c.keywords, c.expected, c.dictionary[i], c.dictionary[j])
    else 0
  }

  /** The entry at (i, j) is the expected one. */
  ghost predicate Agrees(c: Comparison, i: int, j: int)
    requires Shaped(c) && 0 <= i < |c.matrix| && 0 <= j < |c.matrix|
  {
    c.matrix[i][j] == ExpectedAt(c, i, j)
  }

  /** The entry at (i, j) and its expected value are both relations, and different ones. */
  ghost predicate Conflicts(c: Comparison, i: int, j: int)
    requires Shaped(c) && 0 <= i < |c.matrix| && 0 <= j < |c.matrix|
  {
    c.matrix[i][j] != ExpectedAt(c, i, j) && c.matrix[i][j] != 0 && ExpectedAt(c, i, j) != 0
  }

  /** Some entry conflicts with its expected value. */
  ghost predicate HasConflict(c: Comparison)
    requires Shaped(c)
  {
    exists i, j :: 0 <= i < |c.matrix| && 0 <= j < |c.matrix| && Conflicts(c, i, j)
  }

  /** How many of the first `j` entries of row `i` agree. */
  ghost function RowMatches(c: Comparison, i: int, j: int): nat
    requires Shaped(c) && 0 <= i < |c.matrix| && 0 <= j <= |c.matrix|
  {
    if j == 0 then 0 else RowMatches(c, i, j - 1) + if Agrees(c, i, j - 1) then 1 else 0
  }

  /** How many entries of the first `i` rows agree. */
  ghost function Matches(c: Comparison, i: int): nat
    requires Shaped(c) && 0 <= i <= |c.matrix|
  {
    if i == 0 then 0 else Matches(c, i - 1) + RowMatches(c, i - 1, |c.matrix|)
  }

  /** Some of the first `j` entries of row `i` conflicts. */
  ghost predicate RowConflicts(c: Comparison, i: int, j: int)
    requires Shaped(c) && 0 <= i < |c.matrix| && 0 <= j <= |c.matrix|
  {
    j > 0 && (RowConflicts(c, i, j - 1) || Conflicts(c, i, j - 1))
  }

  /** Some entry of the first `i` rows conflicts. */
  ghost predicate ConflictsBefore(c: Comparison, i: int)
    requires Shaped(c) && 0 <= i <= |c.matrix|
  {
    i > 0 && (ConflictsBefore(c, i - 1) || RowConflicts(c, i - 1, |c.matrix|))
  }

  /** A row conflicts exactly when one of its entries does. */
  lemma {:induction false} RowConflictsIff(c: Comparison, i: int, j: int)
    requires Shaped(c) && 0 <= i < |c.matrix| && 0 <= j <= |c.matrix|
    ensures RowConflicts(c, i, j) <==> exists b :: 0 <= b < j && Conflicts(c, i, b)
    decreases j
  {
    if j > 0 {
      RowConflictsIff(c, i, j - 1);
    }
  }

  /** The rows conflict exactly when one of their entries does. */
  lemma {:induction false} ConflictsBeforeIff(c: Comparison, i: int)
    requires Shaped(c) && 0 <= i <= |c.matrix|
    ensures ConflictsBefore(c, i) <==> exists a, b :: 0 <= a < i && 0 <= b < |c.matrix| && Conflicts(c, a, b)
    decreases i
  {
    if i > 0 {
      ConflictsBeforeIff(c, i - 1);
      RowConflictsIff(c, i - 1, |c.matrix|);
    }
  }

  /** Where every lookup hits, the expected value is the one `getValueByKeywords` reads. */
  lemma ExpectedAtHits(c: Comparison, i: int, j: int)
    requires Comparable(c) && 0 <= i < |c.matrix| && 0 <= j < |c.matrix|
    ensures ExpectedAt(c, i, j) == GetValueByKeywords(c.keywords, c.expected, c.dictionary[i], c.dictionary[j])
  {
  }

  /** `matrixSimilarity`: the share of agreeing entries. */
  ghost function Similarity(c: Comparison): Ratio
    requires Shaped(c)
  {
    Ratio(Matches(c, |c.matrix|), |c.matrix| * |c.matrix|)
  }

  /** A row agrees in at most as many entries as it has, and in all of them exactly when each agrees. */
  lemma {:induction false} RowMatchesBounded(c: Comparison, i: int, j: int)
    requires Shaped(c) && 0 <= i < |c.matrix| && 0 <= j <= |c.matrix|
    ensures RowMatches(c, i, j) <= j
    ensures RowMatches(c, i, j) == j <==> forall k :: 0 <= k < j ==> Agrees(c, i, k)
    decreases j
  {
    if j > 0 {
      RowMatchesBounded(c, i, j - 1);
    }
  }

  /** At most every entry agrees, and all of them exactly when each one does. */
  lemma {:induction false} MatchesBounded(c: Comparison, i: int)
    requires Shaped(c) && 0 <= i <= |c.matrix|
    ensures Matches(c, i) <= i * |c.matrix|
    ensures Matches(c, i) == i * |c.matrix| <==>
      forall a, b :: 0 <= a < i && 0 <= b < |c.matrix| ==> Agrees(c, a, b)
    decreases i
  {
    var n := |c.matrix|;
    if i > 0 {
      MatchesBounded(c, i - 1);
      RowMatchesBounded(c, i - 1, n);
      assert i * n == (i - 1) * n + n;
    }
  }

  /** A matrix that agrees everywhere has no conflicting entry. */
  lemma AgreementExcludesConflict(c: Comparison)
    requires Shaped(c)
    requires forall i, j :: 0 <= i < |c.matrix| && 0 <= j < |c.matrix| ==> Agrees(c, i, j)
    ensures !HasConflict(c)
  {
    forall i, j | 0 <= i < |c.matrix| && 0 <= j < |c.matrix| ensures !Conflicts(c, i, j) {
      assert Agrees(c, i, j);
    }
  }

  /**
   * The counter loops of `checkMatrixMatching`: how many entries equal their
   * expected value, and whether some entry conflicts with it.
   */
  method CountMatches(c: Comparison) returns (matching: nat, falseEntry: bool)
    requires Comparable(c)
    ensures matching == Matches(c, |c.matrix|)
    ensures falseEntry <==> HasConflict(c)
  {
    var n := |c.matrix|;
    matching, falseEntry := 0, false;
    var i := 0;
    while i < n
      invariant 0 <= i <= n
      invariant matching == Matches(c, i)
      invariant falseEntry == ConflictsBefore(c, i)
    {
      ghost var matched, conflicted := matching, falseEntry;
      var j := 0;
      while j < n
        invariant 0 <= j <= n
        invariant matching == matched + RowMatches(c, i, j)
        invariant falseEntry == (conflicted || RowConflicts(c, i, j))
      {
        var expectedValue := GetValueByKeywords(c.keywords, c.expected, c.dictionary[i], c.dictionary[j]);
        ExpectedAtHits(c, i, j);
        if c.matrix[i][j] == expectedValue {
          matching := matching + 1;
        } else if c.matrix[i][j] != 0 && expectedValue != 0 {
          falseEntry := true;
        }
        j := j + 1;
      }
      i := i + 1;
    }
    ConflictsBeforeIff(c, n);
  }

  /** The graph-code stage of the cascade: size, values, matching, then the similarity warning. */
  ghost function GradeMatrix(dictionary: seq<string>, m: Option<Matrix>, keywords: seq<string>, expected: Matrix): (o: Outcome)
    ensures o.Graded? ==> o.state in MatrixVerdicts
    ensures o == Graded(NonMatchingMatrix) <==> m.Some? && !CheckMatrixSize(dictionary, m.value)
  {
    if m.None? then Crashed
    else if !CheckMatrixSize(dictionary, m.value) then Graded(NonMatchingMatrix)
    else if !CheckMatrixValues(m.value, ENCODINGS) then Graded(NonExistentMatrixEntries)
    else if !Covered(dictionary, keywords, expected) then Crashed
    else
      var c := Comparison(m.value, dictionary, keywords, expected);
      if HasConflict(c) || !Exceeds85(Similarity(c)) then Graded(WrongMatrixEntry)
      else if BelowOne(Similarity(c)) then Graded(WarningMatrix)
      else Graded(ExecutionState.Success)
  }

  /** The verdicts the matrix stage can give. */
  const MatrixVerdicts: set<ExecutionState> :=
    {ExecutionState.Success, NonMatchingMatrix, NonExistentMatrixEntries, WrongMatrixEntry, WarningMatrix}

  /** The cascade of `check` on the response text `plain`. */
  ghost function Grade(plain: string, parse: string -> JsonParse, ex: Execution): (o: Outcome)
    ensures o == Graded(NonParsableJson) <==> parse(plain).SyntaxError?
    ensures o.Graded? && o.state in MatrixVerdicts - {ExecutionState.Success} ==>
      parse(plain).Document? && !ExpectErrors(ex) && !ex.keywordPrompt
  {
    match parse(plain)
    case SyntaxError => Graded(NonParsableJson)
    case NullDocument => Crashed
    case Document(r) =>
      if ExpectErrors(ex) then Graded(if CheckErrors(r, ex) then ExecutionState.Success else ExpectedError)
      else if !CheckFalseErrors(r, ex) then Graded(ExpectedNoError)
      else if r.dictionary.None? then Crashed
      else if !CheckKeywords(r.dictionary.value, ex.nlq.keywords.value) then Graded(WrongKeywords)
      else if ex.keywordPrompt then Graded(ExecutionState.Success)
      else GradeMatrix(r.dictionary.value, r.matrix, ex.nlq.keywords.value, ex.nlq.matrix.value)
  }

  /** The cascade reaches the matching stage of `checkMatrixMatching`. */
  ghost predicate ReachesMatching(r: Response, ex: Execution)
  {
    && !ExpectErrors(ex) && CheckFalseErrors(r, ex)
    && r.dictionary.Some? && CheckKeywords(r.dictionary.value, ex.nlq.keywords.value)
    && !ex.keywordPrompt && r.matrix.Some?
    && CheckMatrixSize(r.dictionary.value, r.matrix.value) && CheckMatrixValues(r.matrix.value, ENCODINGS)
    && Covered(r.dictionary.value, ex.nlq.keywords.value, ex.nlq.matrix.value)
  }

  /** The comparison the matching stage makes. */
  ghost function ComparisonOf(r: Response, ex: Execution): Comparison
    requires ReachesMatching(r, ex)
  {
    Comparison(r.matrix.value, r.dictionary.value, ex.nlq.keywords.value, ex.nlq.matrix.value)
  }

  /** When errors are expected, only the error check is consulted: the verdict is SUCCESS or EXPECTED_ERROR. */
  lemma ExpectedErrorsDecideAlone(plain: string, parse: string -> JsonParse, ex: Execution)
    requires ExpectErrors(ex) && parse(plain).Document?
    ensures Grade(plain, parse, ex) == Graded(ExecutionState.Success) <==> CheckErrors(parse(plain).response, ex)
    ensures Grade(plain, parse, ex) == Graded(ExpectedError) <==> !CheckErrors(parse(plain).response, ex)
  {
  }

  /** A keyword prompt is never given a matrix verdict. */
  lemma KeywordPromptSkipsMatrix(plain: string, parse: string -> JsonParse, ex: Execution)
    requires ex.keywordPrompt
    ensures Grade(plain, parse, ex).Graded? ==>
      Grade(plain, parse, ex).state in {ExecutionState.Success, NonParsableJson, ExpectedError, ExpectedNoError, WrongKeywords}
  {
  }

  /**
   * The graph-code stage ends in SUCCESS exactly when the matrix is present,
   * well formed, non-empty and equal to the expected matrix entry by entry.
   */
  lemma MatrixStageSuccessIff(dictionary: seq<string>, m: Option<Matrix>, keywords: seq<string>, expected: Matrix)
    ensures GradeMatrix(dictionary, m, keywords, expected) == Graded(ExecutionState.Success) <==>
      && m.Some? && CheckMatrixSize(dictionary, m.value) && CheckMatrixValues(m.value, ENCODINGS)
      && Covered(dictionary, keywords, expected) && |m.value| > 0
      && forall i, j :: 0 <= i < |m.value| && 0 <= j < |m.value| ==> Agrees(Comparison(m.value, dictionary, keywords, expected), i, j)
  {
    if m.Some? && CheckMatrixSize(dictionary, m.value) {
      var c := Comparison(m.value, dictionary, keywords, expected);
      var n := |c.matrix|;
      MatchesBounded(c, n);
      if forall i, j :: 0 <= i < n && 0 <= j < n ==> Agrees(c, i, j) {
        AgreementExcludesConflict(c);
        if n > 0 {
          assert Matches(c, n) * 20 > 17 * (n * n);
        }
      }
    }
  }

  /**
   * A graph-code response is graded SUCCESS exactly when it reports no error,
   * its keywords match, its matrix is well formed and non-empty, and every
   * entry is the expected one.
   */
  lemma GraphCodeSuccessIff(plain: string, parse: string -> JsonParse, ex: Execution)
    requires !ExpectErrors(ex) && !ex.keywordPrompt && parse(plain).Document?
    ensures var r := parse(plain).response;
      Grade(plain, parse, ex) == Graded(ExecutionState.Success) <==>
        && ReachesMatching(r, ex) && !HasText(r.error) && |r.matrix.value| > 0
        && forall i, j :: 0 <= i < |r.matrix.value| && 0 <= j < |r.matrix.value| ==> Agrees(ComparisonOf(r, ex), i, j)
  {
    var r := parse(plain).response;
    if r.dictionary.Some? && !HasText(r.error) && CheckKeywords(r.dictionary.value, ex.nlq.keywords.value) {
      var d, kws, em := r.dictionary.value, ex.nlq.keywords.value, ex.nlq.matrix.value;
      MatrixStageSuccessIff(d, r.matrix, kws, em);
      assert Grade(plain, parse, ex) == GradeMatrix(d, r.matrix, kws, em);
      if ReachesMatching(r, ex) {
        assert ComparisonOf(r, ex) == Comparison(r.matrix.value, d, kws, em);
      }
    } else {
      assert !ReachesMatching(r, ex);
    }
  }

  /**
   * WARNING_MATRIX marks a graph-code response with no conflicting entry and
   * more than 85% agreement that still differs from the expected matrix somewhere.
   */
  lemma WarningMeansNearMiss(plain: string, parse: string -> JsonParse, ex: Execution)
    requires parse(plain).Document? && Grade(plain, parse, ex) == Graded(WarningMatrix)
    ensures var r := parse(plain).response;
      && ReachesMatching(r, ex) && !HasConflict(ComparisonOf(r, ex))
      && Exceeds85(Similarity(ComparisonOf(r, ex)))
      && exists i, j :: 0 <= i < |r.matrix.value| && 0 <= j < |r.matrix.value| && !Agrees(ComparisonOf(r, ex), i, j)
  {
    var r := parse(plain).response;
    var c := ComparisonOf(r, ex);
    MatchesBounded(c, |c.matrix|);
  }

  /** The expected keywords and matrix of a query agree in size. */
  ghost predicate WellFormedQuery(q: Query)
  {
    q.keywords.Some? && q.matrix.Some? ==> IsSquareOfSide(q.matrix.value, |q.keywords.value|)
  }

  /**
   * For a well-formed query, a parsed response that carries the parts the
   * checks dereference is always graded: only a null document, dictionary
   * or matrix makes the cascade throw.
   */
  lemma GradedUnlessNull(plain: string, parse: string -> JsonParse, ex: Execution)
    requires WellFormedQuery(ex.nlq) && parse(plain).Document?
    requires parse(plain).response.dictionary.Some? && parse(plain).response.matrix.Some?
    ensures Grade(plain, parse, ex).Graded?
  {
    var r := parse(plain).response;
    if !ExpectErrors(ex) && CheckKeywords(r.dictionary.value, ex.nlq.keywords.value) {
      var d, kws, em := r.dictionary.value, ex.nlq.keywords.value, ex.nlq.matrix.value;
      EntriesFound(d, kws);
      assert Covered(d, kws, em);
    }
  }

  /** The checker of one response: the parsed fields, the similarity and the state `check` leaves. */
  class ResponseChecker {
    const execution: Execution
    const responsePlain: string
    /** The JSON parser (Gson) the response text goes through. */
    const parse: string -> JsonParse
    var state: ExecutionState
    var dictionary: Option<seq<string>>
    var matrix: Option<Matrix>
    var description: Option<string>
    var error: Option<string>
    var similarity: Ratio

    /** A checker for `response`, starting in state SUCCESS with nothing parsed. */
    constructor (response: string, execution: Execution, parse: string -> JsonParse)
      ensures this.execution == execution && responsePlain == response && this.parse == parse
      ensures state == ExecutionState.Success && similarity == Ratio(0, 1)
      ensures dictionary.None? && matrix.None? && description.None? && error.None?
    {
      this.execution := execution;
      responsePlain := response;
      this.parse := parse;
      state := ExecutionState.Success;
      similarity := Ratio(0, 1);
      dictionary, matrix, description, error := None, None, None, None;
    }

    /**
     * `check`: parses the response, copies its fields and runs the cascade;
     * the first failing check sets the state, and a passing cascade leaves it
     * as it was. `crashed` reports an exception escaping the cascade.
     */
    method Check() returns (crashed: bool)
      modifies this
      ensures crashed <==> Grade(responsePlain, parse, execution).Crashed?
      ensures !crashed && Grade(responsePlain, parse, execution).state != ExecutionState.Success ==>
        state == Grade(responsePlain, parse, execution).state
      ensures crashed || Grade(responsePlain, parse, execution).state == ExecutionState.Success ==> state == old(state)
      ensures parse(responsePlain).Document? ==>
        var r := parse(responsePlain).response;
        dictionary == r.dictionary && matrix == r.matrix && description == r.description && error == r.error
      ensures !parse(responsePlain).Document? ==>
        dictionary == old(dictionary) && matrix == old(matrix) && description == old(description) && error == old(error)
      ensures if parse(responsePlain).Document? && ReachesMatching(parse(responsePlain).response, execution)
              then similarity == Similarity(ComparisonOf(parse(responsePlain).response, execution))
              else similarity == old(similarity)
    {
      var parsed := parse(responsePlain);
      if parsed.SyntaxError? {
        state := NonParsableJson;
        return false;
      }
      if parsed.NullDocument? {
        return true;
      }
      var r := parsed.response;
      dictionary, matrix, description, error := r.dictionary, r.matrix, r.description, r.error;
      if ExpectErrors(execution) {
        if !CheckErrors(r, execution) {
          state := ExpectedError;
        }
      } else if !CheckFalseErrors(r, execution) {
        state := ExpectedNoError;
      } else if r.dictionary.None? {
        return true;
      } else if !CheckKeywords(r.dictionary.value, execution.nlq.keywords.value) {
        state := WrongKeywords;
      } else if !execution.keywordPrompt {
        if r.matrix.None? {
          return true;
        }
        var d, m := r.dictionary.value, r.matrix.value;
        if !CheckMatrixSize(d, m) {
          state := NonMatchingMatrix;
        } else if !CheckMatrixValues(m, ENCODINGS) {
          state := NonExistentMatrixEntries;
        } else {
          var keywords, expected := execution.nlq.keywords.value, execution.nlq.matrix.value;
          if !Covered(d, keywords, expected) {
            return true;
          }
          var ok := CheckMatrixMatching(Comparison(m, d, keywords, expected));
          if !ok {
            state := WrongMatrixEntry;
          } else if similarity.num < similarity.den {
            state := WarningMatrix;
          }
        }
      }
      return false;
    }

    /** `checkMatrixMatching`: stores the similarity; holds when no entry conflicts and over 85% agree. */
    method CheckMatrixMatching(c: Comparison) returns (ok: bool)
      requires Comparable(c)
      modifies this`similarity
      ensures similarity == Similarity(c)
      ensures ok <==> !HasConflict(c) && Exceeds85(Similarity(c))
    {
      var matching, falseEntry := CountMatches(c);
      similarity := Ratio(matching, |c.matrix| * |c.matrix|);
      ok := !falseEntry && similarity.num * 20 > 17 * similarity.den;
    }
  }
}
