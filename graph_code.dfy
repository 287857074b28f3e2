/**
 * The result entity of one natural-language query: a write-once record that
 * starts PENDING and moves exactly once to FINISHED or ERROR. A shared
 * NOT_AVAILABLE entity stands for unknown or expired transactions.
 */
module GraphCodes {
  import opened Base

  /** The entity states (the `State` enum of the source). */
  datatype State = Pending | Finished | Error | NotAvailable

  /** The language models a transaction can be bound to. */
  datatype ModelLiteral =
    | Qwen3_1_7B | Qwen3Coder | Qwen3_235BFree | Qwen2_5_72BInstruct
    | Qwen3_14B | QwenTurbo | Qwen3_235B

  /** The fixed message stored when a success payload is structurally invalid. */
  const ERROR_DEFAULT: string := "An error occurred while parsing the query. Please try again."

  /**
   * The structural check of a success payload: both parts present, the matrix
   * square, and its side equal to the dictionary length.
   */
  function VerifyDictionaryAndMatrix(dictionary: Option<seq<string>>, matrix: Option<Matrix>): (ok: bool)
    ensures ok <==> dictionary.Some? && matrix.Some? && IsSquareOfSide(matrix.value, |dictionary.value|)
  {
    if dictionary.None? || matrix.None? then false
    else if !RowsHaveLength(matrix.value, |matrix.value|) then false
    else |dictionary.value| == |matrix.value|
  }

  class GraphCode {
    var state: State
    const model: Option<ModelLiteral>
    var dictionary: Option<seq<string>>
    var matrix: Option<Matrix>
    var error: Option<string>
    var description: Option<string>
    const start: int

    /** What each state says about the other fields. */
    ghost predicate Valid()
      reads this
    {
      && (state == Pending ==>
            model.Some? && dictionary.None? && matrix.None? && error.None? && description.None?)
      && (state == NotAvailable ==>
            model.None? && dictionary.None? && matrix.None? && error.None? && description.None?)
      && (state == Finished ==>
            VerifyDictionaryAndMatrix(dictionary, matrix) && error.None?)
      && (state == Error ==> dictionary.None? && matrix.None? && error.Some?)
    }

    /** Only a pending entity may be updated (`checkStateUpdate`). */
    predicate CanUpdate()
      reads this
    {
      state == Pending
    }

    /** `getPendingGC`: a fresh pending entity for `model`, created at time `now`. */
    constructor PendingGC(model: ModelLiteral, now: int)
      ensures Valid()
      ensures state == Pending && this.model == Some(model) && start == now
      ensures dictionary.None? && matrix.None? && error.None? && description.None?
    {
      state := Pending;
      this.model := Some(model);
      start := now;
      dictionary, matrix, error, description := None, None, None, None;
    }

    /** The NOT_AVAILABLE sentinel: no model, no payload. */
    constructor NotAvailableGC(now: int)
      ensures Valid()
      ensures state == NotAvailable && model.None? && start == now
      ensures dictionary.None? && matrix.None? && error.None? && description.None?
    {
      state := NotAvailable;
      model := None;
      start := now;
      dictionary, matrix, error, description := None, None, None, None;
    }

    /**
     * `error(error, description)`: from PENDING, records the error; on any
     * other state it fails (ok == false) and changes nothing.
     */
    method MarkError(e: string, d: Option<string>) returns (ok: bool)
      requires Valid()
      modifies this
      ensures Valid()
      ensures ok <==> old(state) == Pending
      ensures ok ==> state == Error && error == Some(e) && description == d
      ensures dictionary == old(dictionary) && matrix == old(matrix)
      ensures !ok ==> state == old(state) && error == old(error) && description == old(description)
    {
      if !CanUpdate() {
        return false;
      }
      state := Error;
      error := Some(e);
      description := d;
      return true;
    }

    /**
     * `finished(dictionary, matrix, description)`: from PENDING, stores a valid
     * payload and becomes FINISHED, or becomes ERROR with ERROR_DEFAULT when the
     * payload fails the structural check; on any other state it fails and
     * changes nothing.
     */
    method MarkFinished(dict: Option<seq<string>>, m: Option<Matrix>, d: Option<string>) returns (ok: bool)
      requires Valid()
      modifies this
      ensures Valid()
      ensures ok <==> old(state) == Pending
      ensures ok && VerifyDictionaryAndMatrix(dict, m) ==>
        state == Finished && dictionary == dict && matrix == m && description == d && error.None?
      ensures ok && !VerifyDictionaryAndMatrix(dict, m) ==>
        state == Error && error == Some(ERROR_DEFAULT)
        && dictionary.None? && matrix.None? && description.None?
      ensures !ok ==>
        state == old(state) && dictionary == old(dictionary) && matrix == old(matrix)
        && error == old(error) && description == old(description)
    {
      if !CanUpdate() {
        return false;
      }
      if VerifyDictionaryAndMatrix(dict, m) {
        state := Finished;
        dictionary := dict;
        matrix := m;
        description := d;
      } else {
        state := Error;
        error := Some(ERROR_DEFAULT);
      }
      return true;
    }
  }

  /**
   * The write-once rule: after one successful update, neither mutator
   * succeeds again and no field moves.
   */
  method WriteOnce(g: GraphCode, e: string, dict: Option<seq<string>>, m: Option<Matrix>, d: Option<string>)
    returns (first: bool, again: bool, finishAgain: bool)
    requires g.Valid() && g.state == Pending
    modifies g
    ensures first && !again && !finishAgain
    ensures g.state == Error && g.error == Some(e) && g.description == d
  {
    first := g.MarkError(e, d);
    again := g.MarkError(e, d);
    finishAgain := g.MarkFinished(dict, m, d);
  }
}
