/**
 * Game sessions and move application: number moves write one cell, pencil
 * moves toggle a candidate in the cell's ascending candidate list, and no
 * move may touch a given cell.
 */
module Gameplay {
  import opened Wrappers
  import opened PyText
  import opened Models

  datatype MoveError =
    | OutOfRange              // cell index outside 0..size*size-1
    | InvalidValue            // value outside 0..size
    | GivensIndexError        // the template's givens are no longer than the index (IndexError)
    | GivenCellImmutable      // the cell is a given
    | UnsupportedBoardFormat  // board_state is none of the accepted shapes
    | BoardIndexError         // the normalised board is no longer than the index (IndexError)
    | UnknownMode             // mode is neither "number" nor "pencil"

  /** `_index_bounds_check`: the index must name one of the size*size cells. */
  function IndexBoundsCheck(index: int, size: nat): (r: Outcome<MoveError>)
    ensures r.Pass? <==> 0 <= index < size * size
    ensures r.Fail? ==> r.error == OutOfRange
  {
    var total := size * size;
    if index < 0 || index >= total then Fail(OutOfRange) else Pass
  }

  /** A board payload that normalises directly: a string or a list. */
  predicate Flat(j: Json) {
    (j.JScalar? && j.v.SStr?) || j.JList?
  }

  /** A string becomes its characters; a list becomes its elements' `str()`. */
  function NormalizeFlat(j: Json): (r: Result<seq<string>, MoveError>)
    ensures r.Success? <==> Flat(j)
    ensures r.Failure? ==> r.error == UnsupportedBoardFormat
    ensures j.JScalar? && j.v.SStr? ==> AllSingles(r.value) && Join(r.value) == j.v.s
    ensures j.JList? ==>
      |r.value| == |j.items| && forall i :: 0 <= i < |j.items| ==> r.value[i] == PyStr(j.items[i])
  {
    match j
    case JScalar(SStr(s)) => JoinChars(s); Success(Chars(s))
    case JList(xs) => Success(seq(|xs|, i requires 0 <= i < |xs| => PyStr(xs[i])))
    case _ => Failure(UnsupportedBoardFormat)
  }

  /**
   * Normalisation of `board_state`: a string or a list directly, or an
   * object whose "board" field is a string or a list; anything else fails.
   */
  function NormalizeBoard(board: Json): (r: Result<seq<string>, MoveError>)
    ensures r.Success? <==> Flat(board) || (board.JObject? && "board" in board.fields && Flat(board.fields["board"]))
    ensures r.Failure? ==> r.error == UnsupportedBoardFormat
    ensures !board.JObject? ==> r == NormalizeFlat(board)
    ensures board.JObject? && "board" in board.fields ==> r == NormalizeFlat(board.fields["board"])
  {
    match board
    case JObject(fields) =>
      if "board" in fields then NormalizeFlat(fields["board"]) else Failure(UnsupportedBoardFormat)
    case _ => NormalizeFlat(board)
  }

  /** What a number move writes: "0" to clear, otherwise `str(value)`. */
  function NumberCell(value: int): (c: string)
    ensures 0 <= value <= 9 ==> c == [DigitChar(value)]
  {
    if value == 0 then "0" else DecimalString(value)
  }

  /** Writing a one-digit value into the characters of a string board changes that character only. */
  lemma NumberMoveOnString(s: string, cellIndex: nat, value: int)
    requires cellIndex < |s| && 0 <= value <= 9
    ensures Join(Chars(s)[cellIndex := NumberCell(value)]) == s[cellIndex := DigitChar(value)]
  {
    var board := Chars(s)[cellIndex := NumberCell(value)];
    JoinSingles(board);
  }

  // ----- pencil marks -----

  function Elems(xs: seq<int>): set<int> {
    set x | x in xs
  }

  predicate StrictlyAscending(xs: seq<int>) {
    forall i, j :: 0 <= i < j < |xs| ==> xs[i] < xs[j]
  }

  predicate IsMinOf(m: int, s: set<int>) {
    m in s && forall x :: x in s ==> m <= x
  }

  lemma {:induction false} MinExists(s: set<int>)
    requires s != {}
    ensures exists m :: IsMinOf(m, s)
    decreases |s|
  {
    if forall z :: z !in s {
      assert false;
    }
    var y :| y in s;
    var rest := s - {y};
    if rest == {} {
      forall x | x in s ensures y <= x {
        assert x !in rest;
      }
      assert IsMinOf(y, s);
    } else {
      MinExists(rest);
      var m :| IsMinOf(m, rest);
      if y < m {
        forall x | x in s ensures y <= x {
          if x != y { assert x in rest; }
        }
        assert IsMinOf(y, s);
      } else {
        forall x | x in s ensures m <= x {
          if x != y { assert x in rest; }
        }
        assert IsMinOf(m, s);
      }
    }
  }

  function MinOf(s: set<int>): (m: int)
    requires s != {}
    ensures IsMinOf(m, s)
  {
    MinExists(s);
    var m :| IsMinOf(m, s); m
  }

  /** Putting an element below all of an ascending list in front keeps it ascending. */
  lemma ConsAscending(m: int, rest: seq<int>)
    requires StrictlyAscending(rest) && forall x :: x in Elems(rest) ==> m < x
    ensures StrictlyAscending([m] + rest) && Elems([m] + rest) == {m} + Elems(rest)
  {
    var r := [m] + rest;
    forall i, j | 0 <= i < j < |r| ensures r[i] < r[j] {
      assert r[j] == rest[j - 1] && rest[j - 1] in Elems(rest);
      if i > 0 {
        assert r[i] == rest[i - 1];
      }
    }
    assert Elems(r) == {m} + Elems(rest) by {
      forall x | x in Elems(r) ensures x in {m} + Elems(rest) {
        var k :| 0 <= k < |r| && r[k] == x;
        if k > 0 { assert rest[k - 1] == x; }
      }
      forall x | x in Elems(rest) ensures x in Elems(r) {
        var k :| 0 <= k < |rest| && rest[k] == x;
        assert r[k + 1] == x;
      }
    }
  }

  /** Python's `sorted(s)` of a set of ints: its elements, ascending, each once. */
  function SortedSeq(s: set<int>): (r: seq<int>)
    ensures StrictlyAscending(r) && Elems(r) == s && |r| == |s|
    decreases |s|
  {
    if s == {} then []
    else
      var m := MinOf(s);
      var rest := SortedSeq(s - {m});
      ConsAscending(m, rest);
      [m] + rest
  }

  /** The head of an ascending list is its least element, and the tail holds the rest. */
  lemma AscendingHead(a: seq<int>)
    requires StrictlyAscending(a) && a != []
    ensures forall x :: x in Elems(a) ==> a[0] <= x
    ensures Elems(a[1..]) == Elems(a) - {a[0]}
  {
    forall x | x in Elems(a) ensures a[0] <= x {
      assert x in a;
      var i :| 0 <= i < |a| && a[i] == x;
    }
    assert a == [a[0]] + a[1..];
    assert a[0] !in a[1..];
    assert Elems(a) == {a[0]} + Elems(a[1..]);
  }

  lemma ElemsEmpty(a: seq<int>)
    ensures Elems(a) == {} <==> a == []
  {
    if a != [] {
      assert a[0] in Elems(a);
    }
  }

  /** A set has one ascending duplicate-free listing. */
  lemma {:induction false} AscendingUnique(a: seq<int>, b: seq<int>)
    requires StrictlyAscending(a) && StrictlyAscending(b) && Elems(a) == Elems(b)
    ensures a == b
    decreases |a|
  {
    if a != [] && b != [] {
      AscendingHead(a);
      AscendingHead(b);
      assert a[0] in Elems(b) && b[0] in Elems(a);
      assert a[0] == b[0];
      AscendingUnique(a[1..], b[1..]);
      assert a == [a[0]] + a[1..] && b == [b[0]] + b[1..];
    } else {
      ElemsEmpty(a);
      ElemsEmpty(b);
    }
  }

  /** The candidates currently recorded for a cell key (none when the key is absent). */
  function Candidates(marks: map<string, seq<int>>, key: string): set<int> {
    if key in marks then Elems(marks[key]) else {}
  }

  /** The candidate set after a pencil move: 0 clears, any other value toggles. */
  function Toggled(current: set<int>, value: int): (r: set<int>)
    ensures value == 0 ==> r == {}
    ensures value != 0 ==> (value in r <==> value !in current)
    ensures value != 0 ==> forall x :: x != value ==> (x in r <==> x in current)
  {
    if value == 0 then {}
    else if value in current then current - {value}
    else current + {value}
  }

  /**
   * The pencil marks after a pencil move on `key`: the cell keeps its toggled
   * candidates as an ascending duplicate-free list, the key disappears when
   * none remain, and every other key is untouched.
   */
  function ToggleMarks(marks: map<string, seq<int>>, key: string, value: int)
    : (r: map<string, seq<int>>)
    ensures forall k :: k != key ==> (k in r <==> k in marks)
    ensures forall k :: k != key && k in r ==> r[k] == marks[k]
    ensures key in r <==> Toggled(Candidates(marks, key), value) != {}
    ensures key in r ==> StrictlyAscending(r[key]) && Elems(r[key]) == Toggled(Candidates(marks, key), value)
  {
    var current := Toggled(Candidates(marks, key), value);
    if current != {} then marks[key := SortedSeq(current)] else marks - {key}
  }

  /**
   * Two identical pencil moves cancel out, provided the cell's stored list is
   * absent or a non-empty ascending duplicate-free list (as pencil moves
   * leave it).
   */
  lemma {:induction false} ToggleTwice(marks: map<string, seq<int>>, key: string, value: int)
    requires value != 0
    requires key in marks ==> marks[key] != [] && StrictlyAscending(marks[key])
    ensures ToggleMarks(ToggleMarks(marks, key, value), key, value) == marks
  {
    var c0 := Candidates(marks, key);
    var back := SortedSeq(c0);
    if key in marks {
      ElemsEmpty(marks[key]);
      AscendingUnique(back, marks[key]);
      assert marks[key := back] == marks;
    }
    if Toggled(c0, value) != {} {
      ToggleTwiceKept(marks, key, value);
    } else {
      ToggleTwiceEmptied(marks, key, value);
    }
  }

  /**
   * Two identical non-zero pencil moves restore the cell's candidates,
   * whatever list was stored for it (empty, unsorted or with repeats).
   */
  lemma ToggleTwiceCandidates(marks: map<string, seq<int>>, key: string, value: int)
    requires value != 0
    ensures Candidates(ToggleMarks(ToggleMarks(marks, key, value), key, value), key) == Candidates(marks, key)
  {
    var once := ToggleMarks(marks, key, value);
    assert Candidates(once, key) == Toggled(Candidates(marks, key), value);
  }

  /** The case of `ToggleTwice` where the first move leaves candidates on the cell. */
  lemma ToggleTwiceKept(marks: map<string, seq<int>>, key: string, value: int)
    requires value != 0 && Toggled(Candidates(marks, key), value) != {}
    ensures ToggleMarks(ToggleMarks(marks, key, value), key, value) ==
      if Candidates(marks, key) == {} then marks - {key}
      else marks[key := SortedSeq(Candidates(marks, key))]
  {
    var c0 := Candidates(marks, key);
    var c1 := Toggled(c0, value);
    var there := SortedSeq(c1);
    var once := ToggleMarks(marks, key, value);
    assert once == marks[key := there];
    assert Candidates(once, key) == c1;
    assert Toggled(c1, value) == c0;
    if c0 != {} {
      MapUpdateTwice(marks, key, there, SortedSeq(c0));
    }
  }

  /** The case of `ToggleTwice` where the first move removes the cell's last candidate. */
  lemma ToggleTwiceEmptied(marks: map<string, seq<int>>, key: string, value: int)
    requires value != 0 && Toggled(Candidates(marks, key), value) == {}
    ensures ToggleMarks(ToggleMarks(marks, key, value), key, value) ==
      marks[key := SortedSeq(Candidates(marks, key))]
  {
    var c0 := Candidates(marks, key);
    var once := ToggleMarks(marks, key, value);
    assert once == marks - {key};
    assert Candidates(once, key) == {};
    assert Toggled({}, value) == c0;
    var back := SortedSeq(c0);
    assert once[key := back] == marks[key := back];
  }

  lemma MapUpdateTwice<K, V>(m: map<K, V>, k: K, a: V, b: V)
    ensures m[k := a][k := b] == m[k := b]
  {
  }

  /**
   * Pencil marks are keyed by `str(cell_index)`, so a pencil move on one cell
   * leaves every other cell's marks as they were.
   */
  lemma PencilMoveKeepsOtherCells(marks: map<string, seq<int>>, cell: int, other: int, value: int)
    requires cell != other
    ensures var updated := ToggleMarks(marks, DecimalString(cell), value);
      && (DecimalString(other) in updated <==> DecimalString(other) in marks)
      && (DecimalString(other) in marks ==> updated[DecimalString(other)] == marks[DecimalString(other)])
  {
    if DecimalString(cell) == DecimalString(other) {
      DecimalInjective(cell, other);
    }
  }

  /** A pencil mark then the same pencil mark on a cell without marks leaves no key. */
  lemma PencilScenario()
    ensures ToggleMarks(map[], "2", 3) == map["2" := [3]]
    ensures ToggleMarks(ToggleMarks(map[], "2", 3), "2", 3) == map[]
  {
    var once := ToggleMarks(map[], "2", 3);
    AscendingUnique(once["2"], [3]);
    ToggleTwice(map[], "2", 3);
  }

  /**
   * The pencil step of a move, on the marks dictionary: the cell's candidate
   * set is cleared by 0 and toggled by any other value, then stored back
   * sorted, or the key deleted when no candidate is left.
   */
  method TogglePencil(marks: map<string, seq<int>>, key: string, value: int)
    returns (updated: map<string, seq<int>>)
    ensures updated == ToggleMarks(marks, key, value)
  {
    updated := marks;
    var current := if key in marks then Elems(marks[key]) else {};
    if value == 0 {
      current := {};
    } else if value in current {
      current := current - {value};
    } else {
      current := current + {value};
    }
    assert current == Toggled(Candidates(marks, key), value);
    if current != {} {
      updated := updated[key := SortedSeq(current)];
      assert updated == ToggleMarks(marks, key, value);
    } else if key in updated {
      updated := updated - {key};
      assert updated == ToggleMarks(marks, key, value);
    } else {
      assert updated == updated - {key};
    }
  }

  // ----- sessions -----

  /**
   * The conditions under which a move succeeds, in the order they are
   * checked: index, value, the givens, the board's format, the mode, and for
   * a number move that the board has the cell.
   */
  predicate MoveAccepted(puzzle: PuzzleTemplate, board: Json, cellIndex: int, value: int, mode: string) {
    && 0 <= cellIndex < puzzle.size * puzzle.size
    && 0 <= value <= puzzle.size
    && cellIndex < |puzzle.givens|
    && puzzle.givens[cellIndex] == '0'
    && NormalizeBoard(board).Success?
    && (mode == "number" || mode == "pencil")
    && (mode == "number" ==> cellIndex < |NormalizeBoard(board).value|)
  }

  /** One player's play-through of a template. */
  class GameSession {
    const userId: Option<int>
    const puzzle: PuzzleTemplate
    var boardState: Json
    var pencilMarks: map<string, seq<int>>
    var mistakesCount: nat
    var timeSeconds: nat
    var status: Status
    var completedAt: Option<int>

    /** `start_game`: the board starts as the givens, with no marks and zero counters. */
    constructor Start(userId: Option<int>, puzzle: PuzzleTemplate)
      ensures this.userId == userId && this.puzzle == puzzle
      ensures boardState == JStr(puzzle.givens) && pencilMarks == map[]
      ensures mistakesCount == 0 && timeSeconds == 0
      ensures status == InProgress && completedAt == None
    {
      this.userId := userId;
      this.puzzle := puzzle;
      boardState := JStr(puzzle.givens);
      pencilMarks := map[];
      mistakesCount := 0;
      timeSeconds := 0;
      status := InProgress;
      completedAt := None;
    }

    /**
     * The board is a string of one character per given that agrees with
     * every given cell. A fresh session satisfies it, and moves keep it.
     */
    predicate GivensKept()
      reads this
    {
      && boardState.JScalar? && boardState.v.SStr?
      && |boardState.v.s| == |puzzle.givens|
      && forall i :: 0 <= i < |puzzle.givens| && puzzle.givens[i] != '0' ==>
           boardState.v.s[i] == puzzle.givens[i]
    }

    /** `apply_move`. */
    method ApplyMove(cellIndex: int, value: int, mode: string) returns (r: Outcome<MoveError>)
      modifies this
      ensures status == old(status) && completedAt == old(completedAt)
      ensures mistakesCount == old(mistakesCount) && timeSeconds == old(timeSeconds)
      // the checks and their errors
      ensures r.Pass? <==> MoveAccepted(puzzle, old(boardState), cellIndex, value, mode)
      ensures !(0 <= cellIndex < puzzle.size * puzzle.size) ==> r == Fail(OutOfRange)
      ensures 0 <= cellIndex < puzzle.size * puzzle.size && !(0 <= value <= puzzle.size) ==>
        r == Fail(InvalidValue)
      ensures (0 <= cellIndex < puzzle.size * puzzle.size && 0 <= value <= puzzle.size
               && cellIndex < |puzzle.givens| && puzzle.givens[cellIndex] != '0') ==>
        r == Fail(GivenCellImmutable)
      ensures 0 <= cellIndex < |puzzle.givens| && puzzle.givens[cellIndex] != '0' ==> r.Fail?
      ensures (0 <= cellIndex < puzzle.size * puzzle.size && 0 <= value <= puzzle.size
               && cellIndex >= |puzzle.givens|) ==>
        r == Fail(GivensIndexError)
      ensures (0 <= cellIndex < puzzle.size * puzzle.size && 0 <= value <= puzzle.size
               && cellIndex < |puzzle.givens| && puzzle.givens[cellIndex] == '0'
               && NormalizeBoard(old(boardState)).Failure?) ==>
        r == Fail(UnsupportedBoardFormat)
      ensures (0 <= cellIndex < puzzle.size * puzzle.size && 0 <= value <= puzzle.size
               && cellIndex < |puzzle.givens| && puzzle.givens[cellIndex] == '0'
               && NormalizeBoard(old(boardState)).Success? && mode == "number"
               && cellIndex >= |NormalizeBoard(old(boardState)).value|) ==>
        r == Fail(BoardIndexError)
      ensures (0 <= cellIndex < puzzle.size * puzzle.size && 0 <= value <= puzzle.size
               && cellIndex < |puzzle.givens| && puzzle.givens[cellIndex] == '0'
               && NormalizeBoard(old(boardState)).Success? && mode != "number" && mode != "pencil") ==>
        r == Fail(UnknownMode)
      // a failed move changes nothing
      ensures r.Fail? ==> boardState == old(boardState) && pencilMarks == old(pencilMarks)
      // number mode: one cell of the board, marks untouched
      ensures r.Pass? && mode == "number" ==>
        && pencilMarks == old(pencilMarks)
        && boardState == JStr(Join(NormalizeBoard(old(boardState)).value[cellIndex := NumberCell(value)]))
      ensures (r.Pass? && mode == "number" && old(boardState).JScalar? && old(boardState).v.SStr?
               && value <= 9) ==>
        boardState == JStr(old(boardState).v.s[cellIndex := DigitChar(value)])
      // pencil mode: the cell's candidates toggle, the board's cells are kept
      ensures r.Pass? && mode == "pencil" ==>
        && pencilMarks == ToggleMarks(old(pencilMarks), DecimalString(cellIndex), value)
        && boardState == JStr(Join(NormalizeBoard(old(boardState)).value))
      ensures r.Pass? && mode == "pencil" && old(boardState).JScalar? && old(boardState).v.SStr? ==>
        boardState == old(boardState)
      // given cells stay as they were
      ensures old(GivensKept()) && puzzle.size <= 9 ==> GivensKept()
    {
      var size := puzzle.size;
      var bounds := IndexBoundsCheck(cellIndex, size);
      if bounds.Fail? {
        return bounds;
      }
      if !(0 <= value <= size) {
        return Fail(InvalidValue);
      }
      if cellIndex >= |puzzle.givens| {
        return Fail(GivensIndexError);
      }
      if puzzle.givens[cellIndex] != '0' {
        return Fail(GivenCellImmutable);
      }
      var normalized := NormalizeBoard(boardState);
      if normalized.Failure? {
        return Fail(normalized.error);
      }
      var board := normalized.value;
      if mode == "number" {
        if cellIndex >= |board| {
          return Fail(BoardIndexError);
        }
        board := board[cellIndex := if value == 0 then "0" else DecimalString(value)];
        if boardState.JScalar? && boardState.v.SStr? && value <= 9 {
          NumberMoveOnString(boardState.v.s, cellIndex, value);
        }
      } else if mode == "pencil" {
        pencilMarks := TogglePencil(pencilMarks, DecimalString(cellIndex), value);
      } else {
        return Fail(UnknownMode);
      }
      boardState := JStr(Join(board));
      r := Pass;
    }

    /** `validate_board`: solved exactly when the board is a string matching the solution character for character. */
    function IsSolved(): (r: bool)
      reads this
      ensures r <==>
        && boardState.JScalar? && boardState.v.SStr?
        && |boardState.v.s| == |puzzle.solution|
        && forall i :: 0 <= i < |puzzle.solution| ==> boardState.v.s[i] == puzzle.solution[i]
    {
      boardState.JScalar? && boardState.v.SStr? && boardState.v.s == puzzle.solution
    }

    /** `complete_game`: marks the session completed at `now`, whether or not it is solved. */
    method Complete(now: int)
      modifies this
      ensures status == Completed && completedAt == Some(now)
      ensures boardState == old(boardState) && pencilMarks == old(pencilMarks)
      ensures mistakesCount == old(mistakesCount) && timeSeconds == old(timeSeconds)
    {
      status := Completed;
      completedAt := Some(now);
    }
  }

  datatype StartError = TemplateDoesNotExist

  /** `start_game`: looks the template up by id and opens a session on it. */
  method StartGame(store: TemplateStore, userId: Option<int>, templateId: int)
    returns (r: Result<GameSession, StartError>)
    ensures r.Failure? <==> store.Get(templateId).None?
    ensures r.Success? ==>
      && fresh(r.value)
      && r.value.puzzle == store.rows[templateId - 1] && r.value.userId == userId
      && r.value.boardState == JStr(r.value.puzzle.givens) && r.value.pencilMarks == map[]
      && r.value.mistakesCount == 0 && r.value.timeSeconds == 0
      && r.value.status == InProgress && r.value.GivensKept()
  {
    var t := store.Get(templateId);
    if t.None? {
      return Failure(TemplateDoesNotExist);
    }
    var game := new GameSession.Start(userId, t.value);
    r := Success(game);
  }
}
