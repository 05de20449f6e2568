/**
 * The periodic maintenance jobs: topping up the template table and
 * creating the coming days' challenges.
 */
module Tasks {
  import opened Wrappers
  import opened PyText
  import opened Models
  import opened Engines
  import opened Factory
  import opened Generation
  import opened Daily

  /** How many templates a refill creates: whatever brings `existing` up to `minCount`. */
  function Shortfall(existing: int, minCount: int): (n: nat)
    ensures existing + n >= minCount
    ensures n > 0 ==> existing + n == minCount
  {
    if existing < minCount then minCount - existing else 0
  }

  /**
   * A template the refill job generated: the requested size with 3x3 boxes,
   * tagged "engine" (no source is passed), and otherwise as the generation
   * pipeline stores it: labelled by its metric, well encoded, with the
   * cyclic solution and the givens the draws dictate.
   */
  predicate Refilled(t: PuzzleTemplate, size: nat, zeroDraw: Draws) {
    && t.size == size && t.boxH == 3 && t.boxW == 3
    && t.source == "engine"
    && t.difficulty == MapMetricToLabel(t.metric)
    && RateDifficulty(Dokusan, GridSpec(size, 3, 3), t.givens) == Success(t.metric)
    && WellEncoded(t)
    && t.solution == CyclicSolution(size)
    && (forall i :: 0 <= i < |t.givens| ==> t.givens[i] == (if zeroDraw(i) then '0' else t.solution[i]))
  }

  /**
   * The label of a refilled template follows its metric, not the requested
   * difficulty: when no draw empties a cell the template is labelled easy,
   * whatever label the refill was counting.
   */
  lemma RefillLabelIgnoresRequest(t: PuzzleTemplate, size: nat, zeroDraw: Draws)
    requires size > 0 && Refilled(t, size, zeroDraw)
    requires forall i :: 0 <= i < |t.givens| ==> !zeroDraw(i)
    ensures t.metric == 0.0 && t.difficulty == Easy
  {
    forall i | 0 <= i < |t.givens| ensures t.givens[i] != '0' {
      assert t.givens[i] == t.solution[i];
      assert IsDigit(t.solution[i]) && 1 <= DigitValue(t.solution[i]);
    }
  }

  /** One more refilled template, generated from the next draws, extends the list of refilled ones. */
  lemma RefilledAppend(made: seq<PuzzleTemplate>, t: PuzzleTemplate, size: nat, draws: nat -> Draws)
    requires forall j :: 0 <= j < |made| ==> Refilled(made[j], size, draws(j))
    requires Refilled(t, size, draws(|made|))
    ensures forall j :: 0 <= j < |made + [t]| ==> Refilled((made + [t])[j], size, draws(j))
  {
    forall j | 0 <= j < |made + [t]| ensures Refilled((made + [t])[j], size, draws(j)) {
      if j < |made| { assert (made + [t])[j] == made[j]; }
    }
  }

  /** The rows after the refill: the old rows, then the refilled templates in order. */
  lemma RefilledRows(start: seq<PuzzleTemplate>, made: seq<PuzzleTemplate>, size: nat, draws: nat -> Draws)
    requires forall j :: 0 <= j < |made| ==> Refilled(made[j], size, draws(j))
    ensures (start + made)[..|start|] == start
    ensures forall k :: |start| <= k < |start + made| ==> Refilled((start + made)[k], size, draws(k - |start|))
  {
    forall k | |start| <= k < |start + made| ensures Refilled((start + made)[k], size, draws(k - |start|)) {
      assert (start + made)[k] == made[k - |start|];
    }
  }

  /**
   * `refill_puzzle_queue`: generates templates (always with 3x3 boxes)
   * until the count of templates of the requested size and label, taken
   * once before the loop, plus the number generated reaches `minCount`.
   * `draws(k)` are the generator's draws for the k-th template.
   */
  method RefillPuzzleQueue(store: TemplateStore, size: nat, difficulty: string, minCount: int,
                           env: Option<string>, draws: nat -> Draws)
    returns (r: Result<nat, GenError>)
    modifies store
    ensures r.Success? <==>
      Shortfall(|old(store.Matching(size, difficulty))|, minCount) == 0
      || GetEngineFor(GridSpec(size, 3, 3), None, env).Success?
    ensures r.Failure? ==> store.rows == old(store.rows)
    ensures r.Success? ==> r.value == Shortfall(|old(store.Matching(size, difficulty))|, minCount)
    ensures r.Success? ==> |old(store.Matching(size, difficulty))| + r.value >= minCount
    ensures r.Success? ==>
      && |store.rows| == |old(store.rows)| + r.value
      && store.rows[..|old(store.rows)|] == old(store.rows)
    ensures r.Success? ==> forall k :: |old(store.rows)| <= k < |store.rows| ==>
      Refilled(store.rows[k], size, draws(k - |old(store.rows)|))
  {
    var existing := |store.Matching(size, difficulty)|;
    ghost var start := store.rows;
    ghost var made: seq<PuzzleTemplate> := [];
    ghost var selectable := GetEngineFor(GridSpec(size, 3, 3), None, env).Success?;
    var created: nat := 0;
    while existing + created < minCount
      invariant created <= Shortfall(existing, minCount)
      invariant |made| == created && store.rows == start + made
      invariant created > 0 ==> selectable
      invariant forall j :: 0 <= j < |made| ==> Refilled(made[j], size, draws(j))
      decreases minCount - existing - created
    {
      var result := GenerateTemplate(store, size, 3, 3, difficulty, None, env, draws(created));
      if result.Failure? {
        return Failure(result.error);
      }
      RefilledAppend(made, result.value, size, draws);
      made := made + [result.value];
      created := created + 1;
    }
    RefilledRows(start, made, size, draws);
    r := Success(created);
  }

  /** The number of dates today, today+1, ..., today+n-1 without a challenge in `byDate`. */
  function CountMissing(byDate: map<int, nat>, today: int, n: int): nat
    decreases n
  {
    if n <= 0 then 0
    else CountMissing(byDate, today, n - 1) + (if today + n - 1 in byDate then 0 else 1)
  }

  /** When every date of the range has a challenge, none is missing. */
  lemma {:induction false} CountMissingNone(byDate: map<int, nat>, today: int, n: int)
    requires forall d :: today <= d < today + n ==> d in byDate
    ensures CountMissing(byDate, today, n) == 0
    decreases n
  {
    if n > 0 {
      CountMissingNone(byDate, today, n - 1);
    }
  }

  /** A date of the range without a challenge is counted. */
  lemma {:induction false} CountMissingSome(byDate: map<int, nat>, today: int, i: int, n: int)
    requires 0 <= i < n && today + i !in byDate
    ensures CountMissing(byDate, today, n) >= 1
    decreases n
  {
    if i < n - 1 {
      CountMissingSome(byDate, today, i, n - 1);
    }
  }

  /**
   * `precreate_daily_challenges`: asks for the challenge of each of the
   * `daysAhead` dates starting at `today` and counts those newly created.
   */
  method PrecreateDailyChallenges(daily: DailyTable, store: TemplateStore, today: int, daysAhead: int,
                                  size: int, difficulty: string)
    returns (r: Result<nat, DailyError>)
    modifies daily
    ensures r.Failure? <==> CountMissing(old(daily.byDate), today, daysAhead) > 0 && store.Matching(size, difficulty) == {}
    ensures r.Success? ==> r.value == CountMissing(old(daily.byDate), today, daysAhead)
    ensures r.Success? ==> forall d :: today <= d < today + daysAhead ==> d in daily.byDate
    ensures forall d :: d in old(daily.byDate) ==> d in daily.byDate && daily.byDate[d] == old(daily.byDate)[d]
    ensures forall d :: d in daily.byDate && d !in old(daily.byDate) ==>
      today <= d < today + daysAhead && daily.byDate[d] in store.Matching(size, difficulty)
  {
    ghost var start := daily.byDate;
    var created: nat := 0;
    var i := 0;
    while i < daysAhead
      invariant 0 <= i <= (if daysAhead >= 0 then daysAhead else 0)
      invariant created == CountMissing(start, today, i)
      invariant forall d :: today <= d < today + i ==> d in daily.byDate
      invariant forall d :: d in start ==> d in daily.byDate && daily.byDate[d] == start[d]
      invariant forall d :: d in daily.byDate && d !in start ==>
        today <= d < today + i && daily.byDate[d] in store.Matching(size, difficulty)
      invariant store.Matching(size, difficulty) == {} ==> daily.byDate == start
    {
      var res := CreateDailyChallenge(daily, store, today + i, size, difficulty);
      if res.Failure? {
        CountMissingSome(start, today, i, daysAhead);
        return Failure(res.error);
      }
      if res.value.created {
        created := created + 1;
      }
      i := i + 1;
    }
    if store.Matching(size, difficulty) == {} {
      CountMissingNone(start, today, daysAhead);
    }
    r := Success(created);
  }

  /** Running the job twice for the same dates: the second run creates nothing. */
  method PrecreateTwice(daily: DailyTable, store: TemplateStore, today: int, daysAhead: int,
                        size: int, difficulty: string)
    returns (first: Result<nat, DailyError>, second: Result<nat, DailyError>)
    modifies daily
    ensures first.Success? ==> second == Success(0)
  {
    first := PrecreateDailyChallenges(daily, store, today, daysAhead, size, difficulty);
    if first.Success? {
      CountMissingNone(daily.byDate, today, daysAhead);
    }
    second := PrecreateDailyChallenges(daily, store, today, daysAhead, size, difficulty);
  }
}
