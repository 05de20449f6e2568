/**
 * The hint service: the first empty cell of a string board, with the
 * template solution's digit for it.
 */
module Hints {
  import opened Wrappers
  import opened PyText
  import opened Models

  /** A suggestion: which cell, which value, and the technique reported. */
  datatype Hint = Hint(cellIndex: nat, value: nat, technique: string)

  /** Indexing the solution past its end (Python's IndexError). */
  datatype HintError = SolutionIndexError

  /** Python's `s.index(c)`, with None where Python raises ValueError. */
  function FirstIndexOf(s: string, c: char): (r: Option<nat>)
    ensures r.None? <==> forall j :: 0 <= j < |s| ==> s[j] != c
    ensures r.Some? ==> r.value < |s| && s[r.value] == c
    ensures r.Some? ==> forall j :: 0 <= j < r.value ==> s[j] != c
  {
    if s == [] then None
    else if s[0] == c then Some(0)
    else
      match FirstIndexOf(s[1..], c)
      case None => None
      case Some(k) => Some(k + 1)
  }

  /**
   * `get_next_hint` on a session whose board is `board` and whose template's
   * solution is `solution`: no hint for a board that is not a string, for a
   * board without an empty cell, or when the solution's character there is
   * not a digit.
   */
  function NextHint(board: Json, solution: string): (r: Result<Option<Hint>, HintError>)
    ensures !(board.JScalar? && board.v.SStr?) ==> r == Success(None)
    ensures board.JScalar? && board.v.SStr? && '0' !in board.v.s ==> r == Success(None)
    ensures r.Failure? <==>
      && board.JScalar? && board.v.SStr?
      && exists i :: 0 <= i < |board.v.s| && board.v.s[i] == '0' && |solution| <= i
           && forall j :: 0 <= j < i ==> board.v.s[j] != '0'
    ensures r.Success? && r.value.Some? ==>
      var h := r.value.value;
      && board.JScalar? && board.v.SStr?
      && h.cellIndex < |board.v.s| && board.v.s[h.cellIndex] == '0'
      && (forall j :: 0 <= j < h.cellIndex ==> board.v.s[j] != '0')
      && h.cellIndex < |solution| && h.value < 10 && DigitChar(h.value) == solution[h.cellIndex]
      && h.technique == "single-candidate"
    ensures (r.Success? && r.value.None? && board.JScalar? && board.v.SStr? && '0' in board.v.s) ==>
      var i := FirstIndexOf(board.v.s, '0').value;
      i < |solution| && !IsDigit(solution[i])
  {
    match board
    case JScalar(SStr(s)) =>
      (match FirstIndexOf(s, '0')
       case None => Success(None)
       case Some(idx) =>
         if idx >= |solution| then Failure(SolutionIndexError)
         else
           match ParseDigitChar(solution[idx])
           case None => Success(None)
           case Some(d) => Success(Some(Hint(idx, d, "single-candidate"))))
    case _ => Success(None)
  }

  /**
   * On a board of a well-encoded template that still has an empty cell, the
   * hint always exists, names the first empty cell and gives the solution's
   * value there, which lies in 1..size.
   */
  lemma HintIsSolutionValue(t: PuzzleTemplate, board: string)
    requires WellEncoded(t) && |board| == |t.solution| && '0' in board
    ensures NextHint(JStr(board), t.solution).Success?
    ensures NextHint(JStr(board), t.solution).value.Some?
    ensures
      var h := NextHint(JStr(board), t.solution).value.value;
      && Some(h.cellIndex) == FirstIndexOf(board, '0')
      && h.value == DigitValue(t.solution[h.cellIndex])
      && 1 <= h.value <= t.size
  {
    var i := FirstIndexOf(board, '0').value;
    assert IsDigit(t.solution[i]);
  }

  /**
   * A session just started on givens "100" followed by 78 zeros, with an
   * all-ones solution, is hinted cell 1 with value 1.
   */
  lemma FirstEmptyCellScenario()
    ensures
      var givens := "100" + seq(78, i => '0');
      NextHint(JStr(givens), seq(81, i => '1')) == Success(Some(Hint(1, 1, "single-candidate")))
  {
    var givens := "100" + seq(78, i => '0');
    assert givens[0] == '1' && givens[1] == '0';
    assert FirstIndexOf(givens[1..], '0') == Some(0);
  }
}
