/**
 * The daily challenge: at most one featured template per date, created on
 * first request from the templates of the requested size and label.
 */
module Daily {
  import opened Wrappers
  import opened Models

  datatype DailyResult = DailyResult(challenge: DailyChallenge, created: bool)

  /** No template has the requested size and label (a ValueError). */
  datatype DailyError = NoTemplateAvailable

  /**
   * `create_daily_challenge`. An existing challenge for the date is returned
   * as it is; otherwise an arbitrary matching template becomes the date's
   * challenge (the random database ordering is a nondeterministic choice).
   */
  method CreateDailyChallenge(table: DailyTable, store: TemplateStore, date: int, size: int, difficulty: string)
    returns (r: Result<DailyResult, DailyError>)
    modifies table
    ensures date in old(table.byDate) ==>
      && r == Success(DailyResult(DailyChallenge(date, old(table.byDate)[date]), false))
      && table.byDate == old(table.byDate)
    ensures date !in old(table.byDate) ==> (r.Failure? <==> store.Matching(size, difficulty) == {})
    ensures r.Failure? ==> table.byDate == old(table.byDate) && date !in table.byDate
    ensures date !in old(table.byDate) && r.Success? ==>
      && r.value.created
      && r.value.challenge.puzzleId in store.Matching(size, difficulty)
      && table.byDate == old(table.byDate)[date := r.value.challenge.puzzleId]
    ensures r.Success? ==> date in table.byDate && r.value.challenge == DailyChallenge(date, table.byDate[date])
  {
    if date in table.byDate {
      return Success(DailyResult(DailyChallenge(date, table.byDate[date]), false));
    }
    var candidates := store.Matching(size, difficulty);
    if candidates == {} {
      return Failure(NoTemplateAvailable);
    }
    var id :| id in candidates;
    table.Create(date, id);
    r := Success(DailyResult(DailyChallenge(date, id), true));
  }

  /**
   * Two requests for the same date: if the first succeeds, the second
   * reports no creation and returns the same challenge.
   */
  method CreateDailyTwice(table: DailyTable, store: TemplateStore, date: int, size: int, difficulty: string)
    returns (first: Result<DailyResult, DailyError>, second: Result<DailyResult, DailyError>)
    modifies table
    ensures first.Success? ==> second.Success? && !second.value.created
    ensures first.Success? ==> second.value.challenge == first.value.challenge
    ensures first.Failure? ==> second.Failure? && table.byDate == old(table.byDate)
  {
    first := CreateDailyChallenge(table, store, date, size, difficulty);
    second := CreateDailyChallenge(table, store, date, size, difficulty);
  }
}
