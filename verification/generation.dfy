/**
 * The generation pipeline: select an engine, generate, refuse grids that
 * are not uniquely solvable, derive the label from the metric, and insert
 * the template; nothing is inserted when any step fails.
 */
module Generation {
  import opened Wrappers
  import opened PyText
  import opened Models
  import opened Engines
  import opened Factory

  /** The fixed difficulty thresholds; each boundary belongs to the lower label. */
  function MapMetricToLabel(metric: real): (d: Difficulty)
    ensures d == Easy <==> metric <= 0.25
    ensures d == Medium <==> 0.25 < metric <= 0.5
    ensures d == Hard <==> 0.5 < metric <= 0.75
    ensures d == Expert <==> 0.75 < metric
  {
    if metric <= 0.25 then Easy
    else if metric <= 0.5 then Medium
    else if metric <= 0.75 then Hard
    else Expert
  }

  /** A higher metric never gives an easier label. */
  lemma LabelMonotone(m1: real, m2: real)
    requires m1 <= m2
    ensures Rank(MapMetricToLabel(m1)) <= Rank(MapMetricToLabel(m2))
  {
  }

  datatype GenError =
    | SelectionFailed(cause: FactoryError)
    | EngineFailed(reason: EngineError)
    | NotUniquelySolvable

  /** Python's `source or "engine"`: a missing or empty source becomes "engine". */
  function SourceTag(source: Option<string>): (tag: string)
    ensures source.None? || source.value == "" ==> tag == "engine"
    ensures source.Some? && source.value != "" ==> tag == source.value
  {
    match source
    case None => "engine"
    case Some(s) => if s == "" then "engine" else s
  }

  /**
   * `generate_template`. The engine is always selected with no explicit
   * source (the `source` argument only becomes the provenance tag); `env` is
   * the configured default engine name and `zeroDraw` the generator's draws.
   */
  method GenerateTemplate(store: TemplateStore, size: nat, boxH: nat, boxW: nat,
                          difficulty: string, source: Option<string>,
                          env: Option<string>, zeroDraw: Draws)
    returns (r: Result<PuzzleTemplate, GenError>)
    modifies store
    // all or nothing: a failure inserts nothing, a success exactly one row
    ensures r.Failure? ==> store.rows == old(store.rows)
    ensures r.Success? ==> store.rows == old(store.rows) + [r.value]
    // it fails exactly when engine selection (without a source) fails
    ensures r.Success? <==> GetEngineFor(GridSpec(size, boxH, boxW), None, env).Success?
    ensures r.Failure? ==> r.error == SelectionFailed(GetEngineFor(GridSpec(size, boxH, boxW), None, env).error)
    // the stored template
    ensures r.Success? ==>
      var t := r.value;
      && t.size == size && t.boxH == boxH && t.boxW == boxW
      && t.difficulty == MapMetricToLabel(t.metric)
      && t.source == SourceTag(source)
      && HasUniqueSolution(Dokusan, GridSpec(size, boxH, boxW), t.givens)
      && RateDifficulty(Dokusan, GridSpec(size, boxH, boxW), t.givens) == Success(t.metric)
      && t.solution == CyclicSolution(size)
      && (forall i :: 0 <= i < |t.givens| ==> t.givens[i] == (if zeroDraw(i) then '0' else t.solution[i]))
      && WellEncoded(t)
  {
    var spec := GridSpec(size, boxH, boxW);
    var engine := GetEngineFor(spec, None, env);
    if engine.Failure? {
      return Failure(SelectionFailed(engine.error));
    }
    var generated := Generate(engine.value, spec, difficulty, zeroDraw);
    var g;
    match generated {
      case Failure(err) => return Failure(EngineFailed(err));
      case Success(v) => g := v;
    }
    if !HasUniqueSolution(engine.value, spec, g.givens) {
      return Failure(NotUniquelySolvable);
    }
    var difficultyLabel := MapMetricToLabel(g.metric);
    var t := PuzzleTemplate(size, boxH, boxW, g.givens, g.solution, g.metric, difficultyLabel, SourceTag(source));
    CyclicSolutionAt(size);
    var _ := store.Create(t);
    r := Success(t);
  }
}
