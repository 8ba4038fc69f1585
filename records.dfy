/**
 * The stored entities the core reads and writes (the generated row types of the hosted database),
 * and the backend itself: the object-storage bucket of pitch files and the two tables.
 */
module Records {

  import opened Common

  /** The `app_role` enumeration. */
  datatype AppRole = Founder | Investor

  /** Values the client writes into `pitch_analyses.analysis_status`. */
  const PROCESSING: string := "processing"
  const COMPLETED: string := "completed"

  /** The score and insight columns of `pitch_analyses`, all nullable. */
  datatype Report = Report(
    marketSize: Option<int>,
    teamStrength: Option<int>,
    productViability: Option<int>,
    financialHealth: Option<int>,
    competitiveAdvantage: Option<int>,
    overall: Option<int>,
    keyStrengths: Option<seq<string>>,
    keyConcerns: Option<seq<string>>,
    marketInsights: Option<string>,
    teamAnalysis: Option<string>,
    financialSummary: Option<string>,
    riskFactors: Option<seq<string>>,
    recommendation: Option<string>)

  /** A freshly inserted row: every score and insight column is null. */
  const NO_REPORT: Report :=
    Report(None, None, None, None, None, None, None, None, None, None, None, None, None)

  /** A `pitch_analyses` row (creation and update timestamps other than `uploaded_at` are left out). */
  datatype PitchAnalysis = PitchAnalysis(
    id: string,
    startupId: string,
    fileName: string,
    filePath: string,
    title: Option<string>,
    pitchDescription: Option<string>,
    category: Option<string>,
    requiredAmount: Option<string>,
    status: string,
    uploadedAt: int,
    report: Report)

  /** Only a completed row is meant to carry scores or insights, across the whole table. */
  predicate ScoresOnlyWhenCompleted(table: map<string, PitchAnalysis>) {
    forall id :: id in table && table[id].status != COMPLETED ==> table[id].report == NO_REPORT
  }

  /** The conflict target of `investment_decisions`: one row per analysis and investor. */
  datatype DecisionKey = DecisionKey(pitchAnalysisId: string, investorId: string)

  /** An `investment_decisions` row, less its key, id and timestamps. The granted amount is kept as the
      text the investor typed; its conversion to a number is not part of this model. */
  datatype InvestmentDecision = InvestmentDecision(
    status: string,
    feedback: Option<string>,
    grantedAmount: Option<string>)

  /** Text colour classes used by the score displays of both the analytics page and the review dialog. */
  datatype TextColor = MutedForeground | Green500 | Yellow500 | Red500

  /** The hosted backend as the client sees it: stored file paths and the two tables it writes. */
  class Backend {
    var storage: set<string>
    var analyses: map<string, PitchAnalysis>
    var decisions: map<DecisionKey, InvestmentDecision>

    constructor ()
      ensures storage == {} && analyses == map[] && decisions == map[]
    {
      storage := {};
      analyses := map[];
      decisions := map[];
    }
  }
}
