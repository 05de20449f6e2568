/**
 * The stored entities: puzzle templates, game sessions' JSON payloads and
 * daily challenges, with the enumerations and encodings their fields use.
 */
module Models {
  import opened Wrappers
  import opened PyText

  /** The four difficulty labels a template may carry. */
  datatype Difficulty = Easy | Medium | Hard | Expert

  function LabelName(d: Difficulty): string {
    match d
    case Easy => "easy"
    case Medium => "medium"
    case Hard => "hard"
    case Expert => "expert"
  }

  /** The label a stored label string denotes, if it is one of the four choices. */
  function ParseLabel(s: string): (r: Option<Difficulty>)
    ensures r.Some? ==> LabelName(r.value) == s
    ensures r.None? <==> (s != "easy" && s != "medium" && s != "hard" && s != "expert")
  {
    if s == "easy" then Some(Easy)
    else if s == "medium" then Some(Medium)
    else if s == "hard" then Some(Hard)
    else if s == "expert" then Some(Expert)
    else None
  }

  lemma LabelRoundTrip(d: Difficulty)
    ensures ParseLabel(LabelName(d)) == Some(d)
  {
  }

  /** Position of a label in the order easy < medium < hard < expert. */
  function Rank(d: Difficulty): nat {
    match d
    case Easy => 0
    case Medium => 1
    case Hard => 2
    case Expert => 3
  }

  /** Life-cycle of a game session; a new session is in progress. */
  datatype Status = InProgress | Completed | Abandoned

  /**
   * A reusable puzzle. `givens` and `solution` are row-major strings; the
   * creation time is not modelled.
   */
  datatype PuzzleTemplate = PuzzleTemplate(
    size: nat, boxH: nat, boxW: nat,
    givens: string, solution: string,
    metric: real, difficulty: Difficulty, source: string)

  /**
   * The documented encoding of a template: both grids hold size*size cells,
   * the solution holds the digits 1..size, and every given is '0' (empty) or
   * the solution's digit at that cell.
   */
  predicate WellEncoded(t: PuzzleTemplate) {
    && |t.givens| == t.size * t.size
    && |t.solution| == t.size * t.size
    && (forall i :: 0 <= i < |t.solution| ==>
          IsDigit(t.solution[i]) && 1 <= DigitValue(t.solution[i]) <= t.size)
    && (forall i :: 0 <= i < |t.givens| ==> t.givens[i] == '0' || t.givens[i] == t.solution[i])
  }

  /** One featured puzzle per calendar date; dates are day numbers. */
  datatype DailyChallenge = DailyChallenge(date: int, puzzleId: nat)

  /** A JSON scalar as stored in a JSON column (floats are not modelled). */
  datatype Scalar = SNull | SBool(b: bool) | SInt(i: int) | SStr(s: string)

  /** Python's `str(v)` of a JSON scalar. */
  function PyStr(v: Scalar): string {
    match v
    case SNull => "None"
    case SBool(b) => if b then "True" else "False"
    case SInt(i) => DecimalString(i)
    case SStr(s) => s
  }

  /**
   * The value of a session's `board_state` JSON column: a scalar (usually a
   * string), a list of scalars, or an object.
   */
  datatype Json = JScalar(v: Scalar) | JList(items: seq<Scalar>) | JObject(fields: map<string, Json>)

  function JStr(s: string): Json {
    JScalar(SStr(s))
  }

  /** The template table; a template's id is its position plus one. */
  class TemplateStore {
    var rows: seq<PuzzleTemplate>

    constructor ()
      ensures rows == []
    {
      rows := [];
    }

    function Get(id: int): (r: Option<PuzzleTemplate>)
      reads this
      ensures r.Some? <==> 1 <= id <= |rows|
      ensures r.Some? ==> r.value == rows[id - 1]
    {
      if 1 <= id <= |rows| then Some(rows[id - 1]) else None
    }

    /** Ids of the templates of the given size whose label is `difficulty`. */
    function Matching(size: int, difficulty: string): (ids: set<nat>)
      reads this
      ensures forall id :: id in ids ==> 1 <= id <= |rows|
      ensures forall i :: 0 <= i < |rows| ==>
        (i + 1 in ids <==> rows[i].size == size && LabelName(rows[i].difficulty) == difficulty)
    {
      set i | 0 <= i < |rows| && rows[i].size == size
              && LabelName(rows[i].difficulty) == difficulty :: i + 1
    }

    method Create(t: PuzzleTemplate) returns (id: nat)
      modifies this
      ensures rows == old(rows) + [t]
      ensures id == |rows| && Get(id) == Some(t)
    {
      rows := rows + [t];
      id := |rows|;
    }
  }

  /** The daily-challenge table: the unique date column maps to a template id. */
  class DailyTable {
    var byDate: map<int, nat>

    constructor ()
      ensures byDate == map[]
    {
      byDate := map[];
    }

    method Create(date: int, puzzleId: nat)
      requires date !in byDate
      modifies this
      ensures byDate == old(byDate)[date := puzzleId]
    {
      byDate := byDate[date := puzzleId];
    }
  }
}
