/**
 * The time-budget rule okvis hands to the least-squares solver as an iteration callback:
 * after each iteration it predicts that the next one will take as long as the last, and asks
 * the solver to stop once that prediction exceeds the budget, but never before a minimum
 * number of iterations.
 */
module CeresCallback {

  /** The fields of the solver's per-iteration summary that the callback reads. */
  datatype IterationSummary = IterationSummary(iteration: int, iterationTimeInSeconds: real, cumulativeTimeInSeconds: real)

  /** The solver's callback verdicts. */
  datatype CallbackReturnType = SolverAbort | SolverTerminateSuccessfully | SolverContinue

  /** The time the solver will have used after one more iteration as long as the last. */
  function PredictedTime(summary: IterationSummary): real {
    summary.cumulativeTimeInSeconds + summary.iterationTimeInSeconds
  }

  /** The verdict for a summary, given the time limit and the minimum number of iterations. */
  function Decision(timeLimit: real, iterationMinimum: int, summary: IterationSummary): (r: CallbackReturnType)
    ensures r != SolverAbort
    ensures r == SolverTerminateSuccessfully
            <==> summary.iteration >= iterationMinimum && PredictedTime(summary) > timeLimit
    ensures r == SolverContinue
            <==> summary.iteration < iterationMinimum || PredictedTime(summary) <= timeLimit
  {
    if summary.iteration >= iterationMinimum
       && summary.cumulativeTimeInSeconds + summary.iterationTimeInSeconds > timeLimit
    then SolverTerminateSuccessfully
    else SolverContinue
  }

  /** Before the minimum number of iterations the solver always continues, whatever the times. */
  lemma BelowMinimumContinues(timeLimit: real, iterationMinimum: int, summary: IterationSummary)
    requires summary.iteration < iterationMinimum
    ensures Decision(timeLimit, iterationMinimum, summary) == SolverContinue
  {
  }

  /** Within the budget the solver always continues. */
  lemma WithinBudgetContinues(timeLimit: real, iterationMinimum: int, summary: IterationSummary)
    requires PredictedTime(summary) <= timeLimit
    ensures Decision(timeLimit, iterationMinimum, summary) == SolverContinue
  {
  }

  /** Raising the time limit never turns a continue verdict into a terminate verdict. */
  lemma RaisingTimeLimitKeepsContinue(timeLimit: real, timeLimit': real, iterationMinimum: int, summary: IterationSummary)
    requires timeLimit <= timeLimit'
    ensures Decision(timeLimit, iterationMinimum, summary) == SolverContinue
            ==> Decision(timeLimit', iterationMinimum, summary) == SolverContinue
  {
  }

  /** Raising the minimum number of iterations never turns a continue verdict into a terminate verdict. */
  lemma RaisingMinimumKeepsContinue(timeLimit: real, iterationMinimum: int, iterationMinimum': int, summary: IterationSummary)
    requires iterationMinimum <= iterationMinimum'
    ensures Decision(timeLimit, iterationMinimum, summary) == SolverContinue
            ==> Decision(timeLimit, iterationMinimum', summary) == SolverContinue
  {
  }

  /** Once the solver is told to stop, any later summary that has used more time is told the same. */
  lemma TerminationPersists(timeLimit: real, iterationMinimum: int, summary: IterationSummary, later: IterationSummary)
    requires later.iteration >= summary.iteration && PredictedTime(later) >= PredictedTime(summary)
    ensures Decision(timeLimit, iterationMinimum, summary) == SolverTerminateSuccessfully
            ==> Decision(timeLimit, iterationMinimum, later) == SolverTerminateSuccessfully
  {
  }

  /** The callback object: a time limit and a minimum number of iterations, both settable. */
  class CeresIterationCallback {
    var timeLimit: real
    var iterationMinimum: int

    constructor (timeLimit: real, iterationMinimum: int)
      ensures this.timeLimit == timeLimit && this.iterationMinimum == iterationMinimum
    {
      this.timeLimit := timeLimit;
      this.iterationMinimum := iterationMinimum;
    }

    /** operator(): the verdict for a summary under the current settings. */
    function Call(summary: IterationSummary): (r: CallbackReturnType)
      reads this
      ensures r == SolverTerminateSuccessfully
              <==> summary.iteration >= iterationMinimum && PredictedTime(summary) > timeLimit
      ensures r == SolverContinue
              <==> summary.iteration < iterationMinimum || PredictedTime(summary) <= timeLimit
    {
      Decision(timeLimit, iterationMinimum, summary)
    }

    /** setTimeLimit: replaces the time limit only. */
    method SetTimeLimit(timeLimit: real)
      modifies this
      ensures this.timeLimit == timeLimit && iterationMinimum == old(iterationMinimum)
    {
      this.timeLimit := timeLimit;
    }

    /** setMinimumIterations: replaces the minimum number of iterations only. */
    method SetMinimumIterations(iterationMinimum: int)
      modifies this
      ensures this.iterationMinimum == iterationMinimum && timeLimit == old(timeLimit)
    {
      this.iterationMinimum := iterationMinimum;
    }
  }
}
