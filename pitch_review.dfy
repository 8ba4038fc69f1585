/**
 * The investor's review dialog: the decision payload, the write keyed on analysis and investor,
 * the save handler's outcomes, and how the dialog colours scores and recommendation badges.
 */
module PitchReview {

  import opened Common
  import opened Records
  import Analytics

  // ---------------------------------------------------------------------------------------------
  // The decision and its payload
  // ---------------------------------------------------------------------------------------------

  /** The three choices of the decision selector. */
  datatype DecisionStatus = Pending | Accepted | Rejected

  /** The value each choice stores in `investment_decisions.status`. */
  function StatusText(s: DecisionStatus): string {
    match s
    case Pending => "pending"
    case Accepted => "accepted"
    case Rejected => "rejected"
  }

  /** Reads a stored status back; any other text is not one of the selector's choices. */
  function ParseStatus(t: string): Option<DecisionStatus> {
    if t == "pending" then Some(Pending)
    else if t == "accepted" then Some(Accepted)
    else if t == "rejected" then Some(Rejected)
    else None
  }

  /** The stored texts name the choices one to one. */
  lemma StatusRoundTrip(s: DecisionStatus, t: string)
    ensures ParseStatus(StatusText(s)) == Some(s)
    ensures ParseStatus(t).Some? ==> StatusText(ParseStatus(t).value) == t
    ensures ParseStatus(t).None? <==> t !in {"pending", "accepted", "rejected"}
  {
  }

  /** The object sent to the table: the key columns, status and feedback always, the granted amount
      only when one was typed. */
  datatype DecisionPayload = DecisionPayload(
    pitchAnalysisId: string,
    investorId: string,
    status: string,
    feedback: string,
    grantedAmount: Option<string>)

  /** `decisionData`, built from the dialog's inputs for the given analysis and investor. */
  function BuildPayload(analysisId: string, investorId: string, status: DecisionStatus, feedback: string,
                        amountInput: string): (p: DecisionPayload)
    ensures p.pitchAnalysisId == analysisId && p.investorId == investorId
    ensures ParseStatus(p.status) == Some(status) && p.feedback == feedback
    ensures p.grantedAmount.Some? <==> amountInput != ""
    ensures p.grantedAmount.Some? ==> p.grantedAmount.value == amountInput
  {
    DecisionPayload(analysisId, investorId, StatusText(status), feedback,
      if amountInput != "" then Some(amountInput) else None)
  }

  function KeyOf(p: DecisionPayload): DecisionKey {
    DecisionKey(p.pitchAnalysisId, p.investorId)
  }

  /** The upsert on `(pitch_analysis_id, investor_id)`: the pair now has exactly one decision holding
      the payload's status and feedback, and the payload's amount or, when it leaves the amount out,
      the amount the pair had before (none for a new pair); every other pair is untouched and no
      other pair appears. */
  function Upsert(table: map<DecisionKey, InvestmentDecision>, p: DecisionPayload): (r: map<DecisionKey, InvestmentDecision>)
    ensures r.Keys == table.Keys + {KeyOf(p)}
    ensures r[KeyOf(p)].status == p.status && r[KeyOf(p)].feedback == Some(p.feedback)
    ensures p.grantedAmount.Some? ==> r[KeyOf(p)].grantedAmount == p.grantedAmount
    ensures p.grantedAmount.None? && KeyOf(p) !in table ==> r[KeyOf(p)].grantedAmount == None
    ensures p.grantedAmount.None? && KeyOf(p) in table ==> r[KeyOf(p)].grantedAmount == table[KeyOf(p)].grantedAmount
    ensures forall k :: k in table && k != KeyOf(p) ==> r[k] == table[k]
  {
    var key := KeyOf(p);
    var amount := if p.grantedAmount.Some? then p.grantedAmount
                  else if key in table then table[key].grantedAmount
                  else None;
    table[key := InvestmentDecision(p.status, Some(p.feedback), amount)]
  }

  /** Saving twice for the same pair leaves one decision with the second write's status and feedback,
      and the second amount when it carries one; the first write leaves no other trace. */
  lemma SecondWriteWins(table: map<DecisionKey, InvestmentDecision>, p1: DecisionPayload, p2: DecisionPayload)
    requires KeyOf(p1) == KeyOf(p2)
    ensures var r := Upsert(Upsert(table, p1), p2);
      && |r.Keys| == |Upsert(table, p2).Keys|
      && r[KeyOf(p2)].status == p2.status && r[KeyOf(p2)].feedback == Some(p2.feedback)
      && (p2.grantedAmount.Some? ==> r == Upsert(table, p2))
      && (p2.grantedAmount.None? ==> r[KeyOf(p2)].grantedAmount == Upsert(table, p1)[KeyOf(p1)].grantedAmount)
  {
    assert Upsert(Upsert(table, p1), p2).Keys == Upsert(table, p2).Keys;
  }

  /** Saving the same decision again changes nothing. */
  lemma UpsertIdempotent(table: map<DecisionKey, InvestmentDecision>, p: DecisionPayload)
    ensures Upsert(Upsert(table, p), p) == Upsert(table, p)
  {
  }

  /** Writes for different pairs do not interfere: their order does not matter. */
  lemma UpsertsOnDistinctPairsCommute(table: map<DecisionKey, InvestmentDecision>, p: DecisionPayload, q: DecisionPayload)
    requires KeyOf(p) != KeyOf(q)
    ensures Upsert(Upsert(table, p), q) == Upsert(Upsert(table, q), p)
  {
  }

  // ---------------------------------------------------------------------------------------------
  // Displaying scores and the recommendation
  // ---------------------------------------------------------------------------------------------

  /** This dialog's `getScoreColor`: green from 75, yellow from 50, red below; there is no muted colour. */
  function ReviewScoreColor(score: int): (c: TextColor)
    ensures c != MutedForeground
    ensures c == Green500 <==> score >= 75
    ensures c == Red500 <==> score < 50
  {
    if score >= 75 then Green500
    else if score >= 50 then Yellow500
    else Red500
  }

  /** The colour a score cell gets: the score is passed as `score || 0`. */
  function ReviewDisplayColor(score: Option<int>): (c: TextColor)
    ensures score.None? ==> c == Red500
  {
    ReviewScoreColor(if score.Some? then score.value else 0)
  }

  /** The dialog and the analytics page colour a present non-zero score alike; a missing or zero
      score, which both show as "N/A", is red here and muted there. */
  lemma ReviewColorVersusAnalytics(score: Option<int>)
    ensures score.Some? && score.value != 0 ==> ReviewDisplayColor(score) == Analytics.ScoreColor(score)
    ensures score.None? || score.value == 0 ==>
      && ReviewDisplayColor(score) == Red500
      && Analytics.ScoreColor(score) == MutedForeground
      && Analytics.ScoreLabel(score) == Analytics.NotAvailable
  {
  }

  /** The recommendation badge's class, when the recommendation is non-empty and so a badge is shown. */
  function ReviewBadgeClass(recommendation: Option<string>): (cls: Option<string>)
    ensures cls.None? <==> recommendation.None? || recommendation.value == ""
    ensures cls.Some? && cls.value != "" ==> recommendation.value in {"Strong Buy", "Buy", "Pass"}
  {
    if recommendation.None? || recommendation.value == "" then None
    else if recommendation.value == "Strong Buy" then Some("bg-green-500")
    else if recommendation.value == "Buy" then Some("bg-green-400")
    else if recommendation.value == "Pass" then Some("bg-red-500")
    else Some("")
  }

  /** The dialog and the analytics page give every recommendation the same badge class, except
      "Pass", which is red here and left to the destructive variant there. */
  lemma BadgeClassVersusAnalytics(recommendation: Option<string>)
    requires recommendation.Some? && recommendation.value != ""
    ensures recommendation.value != "Pass" ==>
      ReviewBadgeClass(recommendation) == Analytics.RecommendationBadge(recommendation).value.style.className
    ensures recommendation.value == "Pass" ==>
      && ReviewBadgeClass(recommendation) == Some("bg-red-500")
      && Analytics.RecommendationBadge(recommendation).value.style == Analytics.PASS_STYLE
  {
  }

  // ---------------------------------------------------------------------------------------------
  // The dialog
  // ---------------------------------------------------------------------------------------------

  const FAILURE_PREFIX: string := "Failed to save decision: "
  const NOT_AUTHENTICATED: string := "Not authenticated"

  /** The review dialog's state: the decision inputs, the saving flag and whether it is open. */
  class ReviewModal {
    var status: DecisionStatus
    var grantedAmount: string
    var feedback: string
    var submitting: bool
    var open: bool

    constructor (open: bool)
      ensures status == Pending && grantedAmount == "" && feedback == "" && !submitting
      ensures this.open == open
    {
      status := Pending;
      grantedAmount := "";
      feedback := "";
      submitting := false;
      this.open := open;
    }

    /** `handleSubmit` for the shown analysis (if any), the signed-in user (if any) and the outcome
        of the upsert (an error message, if it fails). Returns whether `onDecisionMade` ran and the
        failure message shown, if any. */
    method HandleSubmit(analysisId: Option<string>, user: Option<string>, upsertError: Option<string>, db: Backend)
      returns (decisionMade: bool, failure: Option<string>)
      modifies this, db
      ensures analysisId.None? ==> unchanged(this, db) && !decisionMade && failure.None?
      ensures unchanged(db`storage, db`analyses)
      ensures status == old(status) && grantedAmount == old(grantedAmount) && feedback == old(feedback)
      ensures analysisId.Some? ==> !submitting
      ensures decisionMade <==> analysisId.Some? && user.Some? && upsertError.None?
      ensures decisionMade ==> failure.None? && !open
      ensures decisionMade ==> db.decisions == Upsert(old(db.decisions),
        BuildPayload(analysisId.value, user.value, old(status), old(feedback), old(grantedAmount)))
      ensures analysisId.Some? && user.None? ==>
        failure == Some(FAILURE_PREFIX + NOT_AUTHENTICATED) && db.decisions == old(db.decisions) && open == old(open)
      ensures analysisId.Some? && user.Some? && upsertError.Some? ==>
        failure == Some(FAILURE_PREFIX + upsertError.value) && db.decisions == old(db.decisions) && open == old(open)
    {
      if analysisId.None? {
        return false, None;
      }
      submitting := true;
      if user.None? {
        failure := Some(FAILURE_PREFIX + NOT_AUTHENTICATED);
        decisionMade := false;
      } else {
        var payload := BuildPayload(analysisId.value, user.value, status, feedback, grantedAmount);
        if upsertError.Some? {
          failure := Some(FAILURE_PREFIX + upsertError.value);
          decisionMade := false;
        } else {
          db.decisions := Upsert(db.decisions, payload);
          decisionMade := true;
          failure := None;
          open := false;
        }
      }
      submitting := false;
    }
  }
}
