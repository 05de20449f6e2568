/**
 * The engine interface (generate / solve / has-unique-solution /
 * rate-difficulty) and its one implementation, the Dokusan placeholder.
 *
 * The interface is a closed datatype with one variant per engine, and each
 * operation dispatches on it; the interface's own promises are the
 * predicates GenerateContract and the relation between HasUniqueSolution and
 * Solve.
 */
module Engines {
  import opened Wrappers
  import opened PyText

  /** Grid geometry: side length and sub-box height and width. Immutable. */
  datatype GridSpec = GridSpec(size: nat, boxH: nat, boxW: nat) {
    function Cells(): nat {
      size * size
    }
  }

  /** The engines there are. */
  datatype Engine = Dokusan

  /** What `generate` returns: givens, solution and the difficulty metric. */
  datatype Generated = Generated(givens: string, solution: string, metric: real)

  datatype EngineError = UnsupportedSize | ZeroDivision

  /**
   * The pseudo-random draws of one generation: `zeroDraw(i)` holds when the
   * i-th `random()` of the generator, seeded with the caller's seed, is below
   * 0.6. A fixed seed fixes the function, hence the output.
   */
  type Draws = nat -> bool

  /**
   * What the interface promises of `generate`: both grids hold size*size
   * cells and every given is '0' (empty) or the solution's character.
   */
  predicate GenerateContract(spec: GridSpec, g: Generated) {
    && |g.givens| == spec.Cells()
    && |g.solution| == spec.Cells()
    && forall i :: 0 <= i < |g.givens| ==> g.givens[i] == '0' || g.givens[i] == g.solution[i]
  }

  /** `[str((i % size) + 1) for i in range(size * size)]` */
  function CyclicCells(size: nat): (r: seq<string>)
    ensures |r| == size * size
    ensures size > 0 ==> forall i :: 0 <= i < |r| ==> r[i] == DecimalString(i % size + 1)
  {
    if size == 0 then []
    else seq(size * size, i requires 0 <= i < size * size => DecimalString(i % size + 1))
  }

  /** The placeholder "solution": the values 1..size repeated cell after cell. */
  function CyclicSolution(size: nat): string {
    Join(CyclicCells(size))
  }

  /** The cyclic solution has at least one character per cell, whatever the size. */
  lemma CyclicSolutionLength(size: nat)
    ensures |CyclicSolution(size)| >= size * size
  {
    JoinLengthAtLeast(CyclicCells(size));
  }

  /**
   * For sizes up to 9 every value is one digit, so the cyclic solution has
   * exactly size*size characters and character i is the digit (i % size) + 1.
   */
  lemma CyclicSolutionAt(size: nat)
    requires 1 <= size <= 9
    ensures |CyclicSolution(size)| == size * size
    ensures forall i :: 0 <= i < size * size ==>
      CyclicSolution(size)[i] == DigitChar(i % size + 1) && 1 <= i % size + 1 <= size
  {
    var cells := CyclicCells(size);
    assert AllSingles(cells) by {
      forall i | 0 <= i < |cells| ensures |cells[i]| == 1 {
        assert cells[i] == [DigitChar(i % size + 1)];
      }
    }
    JoinSingles(cells);
    forall i | 0 <= i < size * size
      ensures CyclicSolution(size)[i] == DigitChar(i % size + 1)
    {
      assert cells[i] == [DigitChar(i % size + 1)];
    }
  }

  /** Whether the engine can handle the geometry; Dokusan looks at the size only. */
  function Supports(e: Engine, spec: GridSpec): bool {
    match e
    case Dokusan => spec.size == 4 || spec.size == 6 || spec.size == 9
  }

  /** Dokusan supports exactly the sizes 4, 6 and 9, whatever the box shape. */
  lemma SupportsExactly(e: Engine, spec: GridSpec)
    ensures Supports(e, spec) <==> spec.size in {4, 6, 9}
    ensures forall h, w :: Supports(e, GridSpec(spec.size, h, w)) == Supports(e, spec)
  {
  }

  /**
   * The placeholder generator: the cyclic solution, and givens obtained by
   * zeroing cell i (of the first size*size) whenever the i-th draw says so.
   */
  method RandGrid(spec: GridSpec, zeroDraw: Draws) returns (givens: string, solution: string)
    ensures solution == CyclicSolution(spec.size)
    ensures |givens| == |solution|
    ensures forall i :: 0 <= i < |givens| ==>
      givens[i] == (if i < spec.Cells() && zeroDraw(i) then '0' else solution[i])
  {
    var n := spec.size * spec.size;
    solution := CyclicSolution(spec.size);
    CyclicSolutionLength(spec.size);
    var cells := solution;
    for i := 0 to n
      invariant |cells| == |solution|
      invariant forall j :: 0 <= j < |cells| ==>
        cells[j] == (if j < i && zeroDraw(j) then '0' else solution[j])
    {
      if zeroDraw(i) {
        cells := cells[i := '0'];
      }
    }
    givens := cells;
  }

  /** The number of cells of `grid` that are not '0'. */
  function CountFilled(grid: string): (r: nat)
    ensures r <= |grid|
    ensures r == |grid| <==> forall i :: 0 <= i < |grid| ==> grid[i] != '0'
  {
    if grid == [] then 0
    else (if grid[0] != '0' then 1 else 0) + CountFilled(grid[1..])
  }

  /** Zeroing more cells never increases the count of filled cells. */
  lemma {:induction false} CountFilledMonotone(g1: string, g2: string)
    requires |g1| == |g2|
    requires forall i :: 0 <= i < |g1| ==> g1[i] == '0' ==> g2[i] == '0'
    ensures CountFilled(g2) <= CountFilled(g1)
  {
    if g1 != [] {
      CountFilledMonotone(g1[1..], g2[1..]);
    }
  }

  /**
   * The empties/total ratio; Python raises ZeroDivisionError when the size
   * is 0. On a grid of size*size cells the metric lies in [0, 1] and is 0
   * exactly when no cell is empty.
   */
  function RateDifficulty(e: Engine, spec: GridSpec, grid: string): (r: Result<real, EngineError>)
    ensures r.Failure? <==> spec.size == 0
    ensures r.Success? ==>
      r.value * spec.Cells() as real == (spec.Cells() - CountFilled(grid)) as real
    ensures r.Success? && |grid| == spec.Cells() ==>
      0.0 <= r.value <= 1.0 && (r.value == 0.0 <==> CountFilled(grid) == |grid|)
  {
    match e
    case Dokusan =>
      var total := spec.size * spec.size;
      var filled := CountFilled(grid);
      var empties := total - filled;
      if total == 0 then Failure(ZeroDivision)
      else
        RatioFacts(empties as real, total as real);
        Success(empties as real / total as real)
  }

  /** Facts about a ratio of reals with a positive denominator. */
  lemma RatioFacts(a: real, b: real)
    requires b > 0.0
    ensures (a / b) * b == a
    ensures 0.0 <= a <= b ==> 0.0 <= a / b <= 1.0
    ensures a / b == 0.0 <==> a == 0.0
  {
  }

  lemma RatioMonotone(a1: real, a2: real, b: real)
    requires b > 0.0 && a1 <= a2
    ensures a1 / b <= a2 / b
  {
  }

  /** Fewer givens never give a lower metric. */
  lemma RateMonotone(e: Engine, spec: GridSpec, g1: string, g2: string)
    requires spec.size > 0
    requires |g1| == |g2|
    requires forall i :: 0 <= i < |g1| ==> g1[i] == '0' ==> g2[i] == '0'
    ensures RateDifficulty(e, spec, g1).value <= RateDifficulty(e, spec, g2).value
  {
    CountFilledMonotone(g1, g2);
    var n := spec.Cells();
    assert n > 0;
    RatioMonotone((n - CountFilled(g1)) as real, (n - CountFilled(g2)) as real, n as real);
  }

  /**
   * Generation: refuses unsupported sizes; otherwise the cyclic solution,
   * givens zeroed where the draws say so, and the metric of those givens.
   * The difficulty request is ignored by the placeholder.
   */
  method Generate(e: Engine, spec: GridSpec, difficulty: string, zeroDraw: Draws)
    returns (r: Result<Generated, EngineError>)
    ensures r.Failure? <==> !Supports(e, spec)
    ensures r.Failure? ==> r.error == UnsupportedSize
    ensures r.Success? ==> GenerateContract(spec, r.value)
    ensures r.Success? ==> r.value.solution == CyclicSolution(spec.size)
    ensures r.Success? ==> forall i :: 0 <= i < |r.value.givens| ==>
      r.value.givens[i] == (if zeroDraw(i) then '0' else r.value.solution[i])
    ensures r.Success? ==> RateDifficulty(e, spec, r.value.givens) == Success(r.value.metric)
    ensures r.Success? ==> 0.0 <= r.value.metric <= 1.0
  {
    match e
    case Dokusan =>
      if !(spec.size == 4 || spec.size == 6 || spec.size == 9) {
        return Failure(UnsupportedSize);
      }
      var givens, solution := RandGrid(spec, zeroDraw);
      CyclicSolutionAt(spec.size);
      var metric := RateDifficulty(e, spec, givens);
      r := Success(Generated(givens, solution, metric.value));
  }

  /** The same draws (the same seed) give the same givens, solution and metric. */
  method GenerateTwice(e: Engine, spec: GridSpec, difficulty: string, zeroDraw: Draws)
    returns (first: Result<Generated, EngineError>, second: Result<Generated, EngineError>)
    ensures first == second
  {
    first := Generate(e, spec, difficulty, zeroDraw);
    second := Generate(e, spec, difficulty, zeroDraw);
    if first.Success? {
      var g1, g2 := first.value, second.value;
      assert |g1.givens| == |g2.givens|;
      assert forall i :: 0 <= i < |g1.givens| ==> g1.givens[i] == g2.givens[i];
      assert g1.givens == g2.givens;
    }
  }

  /**
   * The placeholder solver: no answer when the grid does not have size*size
   * cells, otherwise the cyclic solution, which for sizes up to 9 is a grid
   * of the same length holding values 1..size.
   */
  function Solve(e: Engine, spec: GridSpec, grid: string): (r: Option<string>)
    ensures r.None? <==> |grid| != spec.Cells()
    ensures r.Some? ==> r.value == CyclicSolution(spec.size)
    ensures r.Some? && 1 <= spec.size <= 9 ==>
      |r.value| == |grid| &&
      forall i :: 0 <= i < |r.value| ==> IsDigit(r.value[i]) && 1 <= DigitValue(r.value[i]) <= spec.size
  {
    match e
    case Dokusan =>
      if |grid| != spec.size * spec.size then None
      else
        if 1 <= spec.size <= 9 then CyclicSolutionAt(spec.size); Some(CyclicSolution(spec.size))
        else Some(CyclicSolution(spec.size))
  }

  /**
   * The placeholder uniqueness check: a grid counts as uniquely solvable
   * exactly when the solver returns a solution for it, that is when it has
   * size*size cells.
   */
  function HasUniqueSolution(e: Engine, spec: GridSpec, grid: string): (r: bool)
    ensures r <==> Solve(e, spec, grid).Some?
    ensures r <==> |grid| == spec.Cells()
  {
    match e
    case Dokusan => |grid| == spec.size * spec.size
  }
}
