/**
 * routes/risk.js: the questionnaire's risk score, its band, the upsert of the
 * user's row in `risk_profiles`, and the results page derivation.
 */
module Risk {
  import opened Wrappers
  import opened Helpers
  import opened Query
  import opened Store

  /** The age the handlers assume when the user gave no date of birth. */
  const DefaultAge: int := 30

  /** The six answers added up, the horizon counting one point per five years. */
  function RawScore(q: Questionnaire): real {
    q.investmentHorizon as real / 5.0 + q.riskComfort as real + q.marketVolatility as real
    + q.investmentKnowledge as real + q.lossReaction as real + q.investmentGoal as real
  }

  /** The stored risk score: the raw sum rescaled to 1..10, clamped and rounded. */
  function RiskScore(q: Questionnaire): (score: int)
    ensures 1 <= score <= 10
  {
    Round(Min(10.0, Max(1.0, RawScore(q) / 6.0 * 10.0)))
  }

  /**
   * The score computation of the questionnaire handler: `riskScore` starts at
   * 0, each answer is added in turn, then the sum is rescaled, clamped and rounded.
   */
  method ComputeRiskScore(q: Questionnaire) returns (riskScore: int)
    ensures riskScore == RiskScore(q)
    ensures 1 <= riskScore <= 10
  {
    var sum: real := 0.0;
    sum := sum + q.investmentHorizon as real / 5.0;
    sum := sum + q.riskComfort as real;
    sum := sum + q.marketVolatility as real;
    sum := sum + q.investmentKnowledge as real;
    sum := sum + q.lossReaction as real;
    sum := sum + q.investmentGoal as real;
    riskScore := Round(Min(10.0, Max(1.0, sum / 6.0 * 10.0)));
  }

  /** Every answer of `q` is at most the same answer of `r` (the money fields may differ). */
  predicate AnswersAtMost(q: Questionnaire, r: Questionnaire) {
    q.investmentHorizon <= r.investmentHorizon && q.riskComfort <= r.riskComfort
    && q.marketVolatility <= r.marketVolatility && q.investmentKnowledge <= r.investmentKnowledge
    && q.lossReaction <= r.lossReaction && q.investmentGoal <= r.investmentGoal
  }

  /** Raising any answers never lowers the score (so it is monotone in each answer alone). */
  lemma RiskScoreMonotone(q: Questionnaire, r: Questionnaire)
    requires AnswersAtMost(q, r)
    ensures RiskScore(q) <= RiskScore(r)
  {
    assert RawScore(q) <= RawScore(r);
    RoundMonotone(Min(10.0, Max(1.0, RawScore(q) / 6.0 * 10.0)), Min(10.0, Max(1.0, RawScore(r) / 6.0 * 10.0)));
  }

  /** The `investment_horizon` stored: years to retirement when the birth date is known, else the answer. */
  function StoredHorizon(q: Questionnaire, dateOfBirth: Option<Date>, today: Date): (years: int)
    ensures dateOfBirth.None? ==> years == q.investmentHorizon
    ensures dateOfBirth.Some? ==>
              var age := CalculateAge(dateOfBirth.value, today);
              years == if age < DefaultRetirementAge then DefaultRetirementAge - age else 0
  {
    match dateOfBirth
    case Some(d) => CalculateYearsToRetirement(d, today, DefaultRetirementAge)
    case None => q.investmentHorizon
  }

  /** The row the questionnaire handler writes for `userId`. */
  function SubmittedProfile(userId: Id, q: Questionnaire, dateOfBirth: Option<Date>, today: Date): (p: RiskProfile)
    ensures p.userId == userId
    ensures p.riskScore == RiskScore(q) && 1 <= p.riskScore <= 10
    ensures p.riskCategory == GetRiskCategory(p.riskScore).Name()
    ensures FormulaFor(p.riskCategory) == GetRiskCategory(p.riskScore)
  {
    var score := RiskScore(q);
    RiskProfile(userId, score, GetRiskCategory(score).Name(), StoredHorizon(q, dateOfBirth, today),
                q.monthlyIncome, q.currentSavings, q.retirementGoal, q)
  }

  /** `UPDATE risk_profiles SET ... WHERE user_id = $8`: every row of the user becomes `p`. */
  function UpdateProfiles(rows: seq<RiskProfile>, userId: Id, p: RiskProfile): (r: seq<RiskProfile>)
    requires p.userId == userId
    ensures |r| == |rows|
    ensures forall i :: 0 <= i < |rows| && rows[i].userId == userId ==> r[i] == p
    ensures forall i :: 0 <= i < |rows| && rows[i].userId != userId ==> r[i] == rows[i]
  {
    if rows == [] then []
    else [if rows[0].userId == userId then p else rows[0]] + UpdateProfiles(rows[1..], userId, p)
  }

  /** The update leaves the other users' rows as they were, in order. */
  lemma {:induction false} UpdateKeepsOthers(rows: seq<RiskProfile>, userId: Id, p: RiskProfile)
    requires p.userId == userId
    ensures Where(UpdateProfiles(rows, userId, p), ProfileOfOtherUser(userId))
         == Where(rows, ProfileOfOtherUser(userId))
  {
    if rows != [] {
      UpdateKeepsOthers(rows[1..], userId, p);
      assert UpdateProfiles(rows, userId, p)[1..] == UpdateProfiles(rows[1..], userId, p);
    }
  }

  /** On a table holding exactly one row of the user, the update leaves exactly `p` for that user. */
  lemma {:induction false} UpdateOverwritesTheRow(rows: seq<RiskProfile>, userId: Id, p: RiskProfile)
    requires p.userId == userId
    requires |Where(rows, ProfileOfUser(userId))| == 1
    ensures Where(UpdateProfiles(rows, userId, p), ProfileOfUser(userId)) == [p]
  {
    var r := UpdateProfiles(rows, userId, p);
    assert r[1..] == UpdateProfiles(rows[1..], userId, p);
    if rows[0].userId == userId {
      UpdateKeepsNoneOfUser(rows[1..], userId, p);
    } else {
      UpdateOverwritesTheRow(rows[1..], userId, p);
    }
  }

  /** Without a row of the user, the update finds none to change. */
  lemma {:induction false} UpdateKeepsNoneOfUser(rows: seq<RiskProfile>, userId: Id, p: RiskProfile)
    requires p.userId == userId
    requires Where(rows, ProfileOfUser(userId)) == []
    ensures Where(UpdateProfiles(rows, userId, p), ProfileOfUser(userId)) == []
  {
    if rows != [] {
      assert UpdateProfiles(rows, userId, p)[1..] == UpdateProfiles(rows[1..], userId, p);
      UpdateKeepsNoneOfUser(rows[1..], userId, p);
    }
  }

  /** With at most one profile per user, a user's filtered rows number at most one. */
  lemma {:induction false} AtMostOneRowOfUser(rows: seq<RiskProfile>, userId: Id)
    requires OneProfilePerUser(rows)
    ensures |Where(rows, ProfileOfUser(userId))| <= 1
  {
    if rows != [] {
      AtMostOneRowOfUser(rows[1..], userId);
      if rows[0].userId == userId {
        assert forall k :: 0 <= k < |rows[1..]| ==> rows[1..][k].userId != userId by {
          assert forall k :: 0 <= k < |rows[1..]| ==> rows[1..][k] == rows[k + 1];
        }
        WhereEmptyIff(rows[1..], ProfileOfUser(userId));
      }
    }
  }

  /** Appending a row of a user who has none gives that user exactly this row. */
  lemma AppendNewRow(rows: seq<RiskProfile>, userId: Id, p: RiskProfile)
    requires p.userId == userId
    requires Where(rows, ProfileOfUser(userId)) == []
    ensures Where(rows + [p], ProfileOfUser(userId)) == [p]
    ensures Where(rows + [p], ProfileOfOtherUser(userId)) == Where(rows, ProfileOfOtherUser(userId))
  {
    WhereConcat(rows, [p], ProfileOfUser(userId));
    WhereConcat(rows, [p], ProfileOfOtherUser(userId));
  }

  /**
   * The update-or-insert on `risk_profiles`: overwrite the user's row when a
   * `SELECT ... WHERE user_id` finds one, append `profile` otherwise.
   */
  method UpsertProfile(db: Database, profile: RiskProfile)
    requires db.Valid()
    modifies db`riskProfiles
    ensures db.Valid()
    // the user now has exactly one profile, holding the new values
    ensures Where(db.riskProfiles, ProfileOfUser(profile.userId)) == [profile]
    // other users' profiles are untouched, in order
    ensures Where(db.riskProfiles, ProfileOfOtherUser(profile.userId))
         == Where(old(db.riskProfiles), ProfileOfOtherUser(profile.userId))
    // an existing row is overwritten, never duplicated; a missing one is inserted
    ensures |db.riskProfiles| == |old(db.riskProfiles)|
              + (if Where(old(db.riskProfiles), ProfileOfUser(profile.userId)) == [] then 1 else 0)
  {
    var userId := profile.userId;
    var existing := Where(db.riskProfiles, ProfileOfUser(userId));
    if |existing| > 0 {
      AtMostOneRowOfUser(db.riskProfiles, userId);
      UpdateOverwritesTheRow(db.riskProfiles, userId, profile);
      UpdateKeepsOthers(db.riskProfiles, userId, profile);
      db.riskProfiles := UpdateProfiles(db.riskProfiles, userId, profile);
    } else {
      AppendNewRow(db.riskProfiles, userId, profile);
      WhereEmptyIff(db.riskProfiles, ProfileOfUser(userId));
      db.riskProfiles := db.riskProfiles + [profile];
    }
  }

  /**
   * POST /questionnaire: score the answers, read the user's date of birth,
   * then upsert the user's profile row. With no user row the read of
   * `date_of_birth` fails before any write.
   */
  method SubmitQuestionnaire(db: Database, userId: Id, q: Questionnaire, today: Date)
    returns (outcome: Outcome)
    requires db.Valid()
    modifies db`riskProfiles
    ensures db.Valid()
    ensures First(db.users, UserWithId(userId)).None? ==>
              outcome == ServerError && db.riskProfiles == old(db.riskProfiles)
    ensures First(db.users, UserWithId(userId)).Some? ==>
              var dateOfBirth := First(db.users, UserWithId(userId)).value.dateOfBirth;
              && outcome == Redirect("/risk/results")
              && Where(db.riskProfiles, ProfileOfUser(userId)) == [SubmittedProfile(userId, q, dateOfBirth, today)]
              && Where(db.riskProfiles, ProfileOfOtherUser(userId)) == Where(old(db.riskProfiles), ProfileOfOtherUser(userId))
              && |db.riskProfiles| == |old(db.riskProfiles)| + (if Where(old(db.riskProfiles), ProfileOfUser(userId)) == [] then 1 else 0)
  {
    var riskScore := ComputeRiskScore(q);
    var riskCategory := GetRiskCategory(riskScore);

    var user := First(db.users, UserWithId(userId));
    if user.None? {
      return ServerError;
    }
    var dateOfBirth := user.value.dateOfBirth;
    var yearsToRetirement := if dateOfBirth.Some?
      then CalculateYearsToRetirement(dateOfBirth.value, today, DefaultRetirementAge)
      else q.investmentHorizon;

    var profile := RiskProfile(userId, riskScore, riskCategory.Name(), yearsToRetirement,
                               q.monthlyIncome, q.currentSavings, q.retirementGoal, q);
    assert profile == SubmittedProfile(userId, q, dateOfBirth, today);
    UpsertProfile(db, profile);
    outcome := Redirect("/risk/results");
  }

  /** The age both the results and the recommendation handlers use: 30 when no birth date is known. */
  function AgeOrDefault(dateOfBirth: Option<Date>, today: Date): (age: int)
    ensures dateOfBirth.None? ==> age == DefaultAge
    ensures dateOfBirth.Some? ==> age == CalculateAge(dateOfBirth.value, today)
  {
    if dateOfBirth.Some? then CalculateAge(dateOfBirth.value, today) else DefaultAge
  }

  /** What GET /results answers. */
  datatype ResultsPage =
    | QuestionnaireRedirect
    | ResultsView(riskProfile: RiskProfile, recommendedAllocation: Allocation)
    | ResultsError

  /**
   * GET /results: back to the questionnaire without a profile; otherwise the
   * first profile row and the allocation for its category at the user's age.
   */
  function Results(db: Database, userId: Id, today: Date): (page: ResultsPage)
    reads db
    ensures page == QuestionnaireRedirect <==> Where(db.riskProfiles, ProfileOfUser(userId)) == []
    ensures page == ResultsError <==>
              Where(db.riskProfiles, ProfileOfUser(userId)) != [] && First(db.users, UserWithId(userId)).None?
    ensures page.ResultsView? ==>
              && page.riskProfile == Where(db.riskProfiles, ProfileOfUser(userId))[0]
              && page.recommendedAllocation == RecommendedAllocation(
                   page.riskProfile.riskCategory,
                   AgeOrDefault(First(db.users, UserWithId(userId)).value.dateOfBirth, today))
  {
    FirstIsHeadOfWhere(db.riskProfiles, ProfileOfUser(userId));
    match First(db.riskProfiles, ProfileOfUser(userId))
    case None => QuestionnaireRedirect
    case Some(riskProfile) =>
      match First(db.users, UserWithId(userId))
      case None => ResultsError
      case Some(user) =>
        var age := AgeOrDefault(user.dateOfBirth, today);
        ResultsView(riskProfile, RecommendedAllocation(riskProfile.riskCategory, age))
  }

  /**
   * The results page once the user's only profile is `p`: it shows `p` with the
   * allocation for its category at the user's age, and a stored category that
   * is the label of the stored score's band selects that band's formulas.
   * `SubmittedProfile` meets the last requires, and after `SubmitQuestionnaire`
   * it is the user's only profile, so this is the page a submission leads to.
   */
  lemma ResultsAfterSubmit(db: Database, userId: Id, p: RiskProfile, today: Date)
    requires First(db.users, UserWithId(userId)).Some?
    requires Where(db.riskProfiles, ProfileOfUser(userId)) == [p]
    requires p.riskCategory == GetRiskCategory(p.riskScore).Name()
    ensures Results(db, userId, today)
         == ResultsView(p, RecommendedAllocation(p.riskCategory,
                                                 AgeOrDefault(First(db.users, UserWithId(userId)).value.dateOfBirth, today)))
    ensures FormulaFor(p.riskCategory) == GetRiskCategory(p.riskScore)
  {
    FirstIsHeadOfWhere(db.riskProfiles, ProfileOfUser(userId));
  }
}
