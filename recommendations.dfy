/**
 * routes/recommendations.js: the analyzer that compares a portfolio with its
 * risk profile and emits advisories, the generate handler that replaces the
 * user's pending recommendations with a new batch, and the status update.
 */
module Recommendations {
  import opened Wrappers
  import opened Helpers
  import opened Query
  import opened Store
  import opened Risk

  /** The `recommendation_type` of an advisory. */
  datatype Kind = Rebalance | IncreaseContribution | ChangeAllocation {
    function Name(): string {
      match this
      case Rebalance => "Rebalance"
      case IncreaseContribution => "Increase Contribution"
      case ChangeAllocation => "Change Allocation"
    }
  }

  /** The `priority` of an advisory. */
  datatype Priority = High | Medium | Low {
    function Name(): string {
      match this
      case High => "High"
      case Medium => "Medium"
      case Low => "Low"
    }
  }

  /** One advisory as the analyzer pushes it. */
  datatype Advisory = Advisory(kind: Kind, title: string, description: Description, priority: Priority)

  /** Check 1: the stock allocation is far from the recommended one. */
  function RebalanceAdvisory(currentStocks: real, recommendedStocks: real): (a: Advisory)
    ensures a.kind == Rebalance && a.priority == High && CheckIndex(a) == 0
    ensures a.description == StockGap(currentStocks, recommendedStocks)
  {
    Advisory(Rebalance, "Portfolio Rebalancing Needed", StockGap(currentStocks, recommendedStocks), High)
  }

  /** Check 2: contributions are below 15% of income. */
  function ContributionAdvisory(recommendedContribution: real, retirementGoal: real): (a: Advisory)
    ensures a.kind == IncreaseContribution && a.priority == High && CheckIndex(a) == 1
    ensures a.description == ContributionTarget(recommendedContribution, retirementGoal)
  {
    Advisory(IncreaseContribution, "Increase Monthly Contributions",
             ContributionTarget(recommendedContribution, retirementGoal), High)
  }

  /** Check 3: fewer than three asset classes are held. */
  const DiversificationAdvisory: Advisory :=
    Advisory(ChangeAllocation, "Improve Diversification",
             Text("Your portfolio lacks diversification. Consider spreading investments across stocks, bonds, real estate, and cash to reduce risk."),
             Medium)

  /** Check 4: the projected savings fall short of the goal. */
  const GoalAtRiskAdvisory: Advisory :=
    Advisory(IncreaseContribution, "Retirement Goal at Risk",
             Text("Based on current contributions and expected returns, you may fall short of your retirement goal. Consider increasing contributions or adjusting your retirement expectations."),
             High)

  /**
   * The position of an advisory's check in the analyzer's fixed order. The two
   * "Increase Contribution" checks differ in their description: the first one
   * carries the contribution target, the goal-at-risk one a fixed text.
   */
  function CheckIndex(a: Advisory): nat {
    match a.kind
    case Rebalance => 0
    case IncreaseContribution => if a.description.ContributionTarget? then 1 else 3
    case ChangeAllocation => 2
  }

  /**
   * The two fixed advisories: diversification is the only Change Allocation
   * advisory and the only Medium one; the goal-at-risk advisory is a High
   * Increase Contribution with a fixed text, after the three other checks.
   */
  lemma FixedAdvisories()
    ensures DiversificationAdvisory.kind == ChangeAllocation && DiversificationAdvisory.priority == Medium
    ensures CheckIndex(DiversificationAdvisory) == 2
    ensures GoalAtRiskAdvisory.kind == IncreaseContribution && GoalAtRiskAdvisory.priority == High
    ensures GoalAtRiskAdvisory.description.Text? && CheckIndex(GoalAtRiskAdvisory) == 3
  {
  }

  /** Holdings of the asset type "Stocks". */
  function IsStocks(a: AllocationRow): bool {
    a.assetType == "Stocks"
  }

  /** `find(a => a.asset_type === 'Stocks')?.allocation_percentage || 0`. */
  function CurrentStocks(allocations: seq<AllocationRow>): (pct: real)
    ensures (forall i :: 0 <= i < |allocations| ==> allocations[i].assetType != "Stocks") ==> pct == 0.0
    ensures (exists i :: 0 <= i < |allocations| && allocations[i].assetType == "Stocks") ==>
              exists i :: 0 <= i < |allocations| && allocations[i].assetType == "Stocks"
                && pct == allocations[i].allocationPercentage
                && forall j :: 0 <= j < i ==> allocations[j].assetType != "Stocks"
  {
    match First(allocations, IsStocks)
    case Some(a) => a.allocationPercentage
    case None => 0.0
  }

  function Abs(x: real): real {
    if x < 0.0 then -x else x
  }

  /** `total_contributions / 12`, the analyzer's stand-in for a monthly contribution. */
  function MonthlyContribution(portfolio: Portfolio): (monthly: real)
    ensures monthly * 12.0 == portfolio.totalContributions
  {
    portfolio.totalContributions / 12.0
  }

  /** 15% of the monthly income. */
  function RecommendedContribution(riskProfile: RiskProfile): (target: real)
    ensures riskProfile.monthlyIncome >= 0.0 ==> 0.0 <= target <= riskProfile.monthlyIncome
    ensures target * 100.0 == riskProfile.monthlyIncome * 15.0
  {
    riskProfile.monthlyIncome * 0.15
  }

  /** The balance plus the yearly contributions over the horizon, grown by 7%. */
  function ProjectedSavings(portfolio: Portfolio, riskProfile: RiskProfile): real
  {
    portfolio.totalBalance
    + MonthlyContribution(portfolio) * 12.0 * riskProfile.investmentHorizon as real * 1.07
  }

  /**
   * A year of the simplified monthly contribution is the whole contributed
   * total, so the projection is the balance plus the contributions times the
   * horizon, grown by 7%.
   */
  lemma ProjectedSavingsClosedForm(portfolio: Portfolio, riskProfile: RiskProfile)
    ensures ProjectedSavings(portfolio, riskProfile)
         == portfolio.totalBalance + portfolio.totalContributions * riskProfile.investmentHorizon as real * 1.07
  {
    assert MonthlyContribution(portfolio) * 12.0 == portfolio.totalContributions;
  }

  /** The one-element list a check contributes when its condition holds. */
  function Emit(condition: bool, a: Advisory): (r: seq<Advisory>)
    ensures forall x :: x in r <==> condition && x == a
  {
    if condition then [a] else []
  }

  /** Check 1's condition: some holdings, and stocks more than 10 points off the recommendation. */
  predicate NeedsRebalance(allocations: seq<AllocationRow>, recommended: Allocation) {
    |allocations| > 0 && Abs(CurrentStocks(allocations) - recommended.stocks) > 10.0
  }

  /** Check 2's condition: contributing less per month than 15% of income. */
  predicate ContributesTooLittle(portfolio: Portfolio, riskProfile: RiskProfile) {
    MonthlyContribution(portfolio) < RecommendedContribution(riskProfile)
  }

  /** Check 3's condition: fewer than three holdings. */
  predicate Undiversified(allocations: seq<AllocationRow>) {
    |allocations| < 3
  }

  /** Check 4's condition: projected savings below 80% of the goal. */
  predicate GoalAtRisk(portfolio: Portfolio, riskProfile: RiskProfile) {
    ProjectedSavings(portfolio, riskProfile) < riskProfile.retirementGoal * 0.8
  }

  /**
   * The advisories of the four checks, each emitted at most once and in the
   * fixed order Rebalance, Increase Contribution, Change Allocation,
   * Increase Contribution (goal at risk).
   */
  function Advisories(portfolio: Portfolio, riskProfile: RiskProfile,
                      allocations: seq<AllocationRow>, recommended: Allocation): (batch: seq<Advisory>)
    ensures |batch| <= 4
    // in check order, so no check emits twice
    ensures forall i, j :: 0 <= i < j < |batch| ==> CheckIndex(batch[i]) < CheckIndex(batch[j])
    ensures forall a :: a in batch ==> a.priority == (if a.kind == ChangeAllocation then Medium else High)
  {
    Emit(NeedsRebalance(allocations, recommended),
         RebalanceAdvisory(CurrentStocks(allocations), recommended.stocks))
    + Emit(ContributesTooLittle(portfolio, riskProfile),
           ContributionAdvisory(RecommendedContribution(riskProfile), riskProfile.retirementGoal))
    + Emit(Undiversified(allocations), DiversificationAdvisory)
    + Emit(GoalAtRisk(portfolio, riskProfile), GoalAtRiskAdvisory)
  }

  /**
   * An advisory is in the batch exactly when it is the advisory of a check
   * whose condition holds: each check emits on its condition and nothing else
   * is emitted.
   */
  lemma AdvisoriesEmitted(portfolio: Portfolio, riskProfile: RiskProfile,
                          allocations: seq<AllocationRow>, recommended: Allocation, a: Advisory)
    ensures a in Advisories(portfolio, riskProfile, allocations, recommended) <==>
              (NeedsRebalance(allocations, recommended)
                 && a == RebalanceAdvisory(CurrentStocks(allocations), recommended.stocks))
              || (ContributesTooLittle(portfolio, riskProfile)
                 && a == ContributionAdvisory(RecommendedContribution(riskProfile), riskProfile.retirementGoal))
              || (Undiversified(allocations) && a == DiversificationAdvisory)
              || (GoalAtRisk(portfolio, riskProfile) && a == GoalAtRiskAdvisory)
  {
  }

  /** Without any holdings there is always a diversification advisory and never a rebalance. */
  lemma NoHoldingsMeansDiversify(portfolio: Portfolio, riskProfile: RiskProfile, recommended: Allocation)
    ensures DiversificationAdvisory in Advisories(portfolio, riskProfile, [], recommended)
    ensures forall a :: a in Advisories(portfolio, riskProfile, [], recommended) ==> a.kind != Rebalance
  {
  }

  /** Holding 20% stocks against a recommended 40% emits exactly one rebalance advisory naming both. */
  lemma RebalanceExample(portfolio: Portfolio, riskProfile: RiskProfile, others: seq<AllocationRow>,
                         recommended: Allocation)
    requires recommended.stocks == 40.0
    ensures var batch := Advisories(portfolio, riskProfile, [AllocationRow(0, "Stocks", 20.0)] + others, recommended);
      && batch[0] == RebalanceAdvisory(20.0, 40.0)
      && forall i :: 1 <= i < |batch| ==> batch[i].kind != Rebalance
  {
    var allocations := [AllocationRow(0, "Stocks", 20.0)] + others;
    assert First(allocations, IsStocks) == Some(allocations[0]);
  }

  /**
   * The analysis of the generate handler: an empty list, then one `push`
   * per check whose condition holds.
   */
  method Analyze(portfolio: Portfolio, riskProfile: RiskProfile,
                 currentAllocations: seq<AllocationRow>, recommendedAllocation: Allocation)
    returns (recommendations: seq<Advisory>)
    ensures recommendations == Advisories(portfolio, riskProfile, currentAllocations, recommendedAllocation)
  {
    recommendations := [];
    ghost var rebalance := Emit(NeedsRebalance(currentAllocations, recommendedAllocation),
                                RebalanceAdvisory(CurrentStocks(currentAllocations), recommendedAllocation.stocks));
    ghost var contribution := Emit(ContributesTooLittle(portfolio, riskProfile),
                                   ContributionAdvisory(RecommendedContribution(riskProfile), riskProfile.retirementGoal));
    ghost var diversification := Emit(Undiversified(currentAllocations), DiversificationAdvisory);
    ghost var goal := Emit(GoalAtRisk(portfolio, riskProfile), GoalAtRiskAdvisory);

    if |currentAllocations| > 0 {
      var currentStocks := CurrentStocks(currentAllocations);
      var recommendedStocks := recommendedAllocation.stocks;
      if Abs(currentStocks - recommendedStocks) > 10.0 {
        recommendations := recommendations + [RebalanceAdvisory(currentStocks, recommendedStocks)];
      }
    }
    assert recommendations == rebalance;

    var monthlyContribution := portfolio.totalContributions / 12.0;
    var recommendedContribution := riskProfile.monthlyIncome * 0.15;
    if monthlyContribution < recommendedContribution {
      recommendations := recommendations + [ContributionAdvisory(recommendedContribution, riskProfile.retirementGoal)];
    }
    assert recommendations == rebalance + contribution;

    if |currentAllocations| < 3 {
      recommendations := recommendations + [DiversificationAdvisory];
    }
    assert recommendations == rebalance + contribution + diversification;

    var yearsToRetirement := riskProfile.investmentHorizon;
    var projectedSavings := portfolio.totalBalance + (monthlyContribution * 12.0 * yearsToRetirement as real * 1.07);
    if projectedSavings < riskProfile.retirementGoal * 0.8 {
      recommendations := recommendations + [GoalAtRiskAdvisory];
    }
    assert recommendations == rebalance + contribution + diversification + goal;
  }

  /** The `recommendations` row inserted for an advisory: status "pending". */
  function NewRow(userId: Id, a: Advisory, id: Id, createdAt: int): (r: Recommendation)
    ensures r.id == id && r.userId == userId && r.status == "pending" && r.createdAt == createdAt
    ensures r.recommendationType == a.kind.Name() && r.title == a.title
    ensures r.description == a.description && r.priority == a.priority.Name()
  {
    Recommendation(id, userId, a.kind.Name(), a.title, a.description, a.priority.Name(), "pending", createdAt)
  }

  /**
   * The rows the insert loop adds for a batch, ids counting up from `firstId`.
   * Each INSERT is its own statement, so each row takes its own insertion
   * time: the i-th row is inserted at `now + i`.
   */
  function NewRows(userId: Id, batch: seq<Advisory>, firstId: Id, now: int): (rows: seq<Recommendation>)
    ensures |rows| == |batch|
    ensures forall i :: 0 <= i < |batch| ==> rows[i] == NewRow(userId, batch[i], firstId + i, now + i)
  {
    seq(|batch|, i requires 0 <= i < |batch| => NewRow(userId, batch[i], firstId + i, now + i))
  }

  /** The batch the generate handler computes from the rows it reads. */
  function GeneratedBatch(user: User, portfolio: Portfolio, riskProfile: RiskProfile,
                          allocations: seq<AllocationRow>, today: Date): (batch: seq<Advisory>)
    ensures |batch| <= 4
    ensures Where(allocations, AllocationOfPortfolio(portfolio.id)) == [] ==>
              DiversificationAdvisory in batch && forall a :: a in batch ==> a.kind != Rebalance
  {
    NoHoldingsMeansDiversify(portfolio, riskProfile,
      RecommendedAllocation(riskProfile.riskCategory, AgeOrDefault(user.dateOfBirth, today)));
    Advisories(portfolio, riskProfile, Where(allocations, AllocationOfPortfolio(portfolio.id)),
               RecommendedAllocation(riskProfile.riskCategory, AgeOrDefault(user.dateOfBirth, today)))
  }

  /** Deleting rows keeps the ids in order. */
  lemma ClearingKeepsIdsInOrder(rows: seq<Recommendation>, nextId: Id, userId: Id)
    requires IdsIssuedInOrder(rows, nextId)
    ensures IdsIssuedInOrder(Where(rows, SurvivesClearing(userId)), nextId)
  {
    WhereKeepsIncreasing(rows, SurvivesClearing(userId), RecommendationId);
  }

  /** Appending a row with the next id keeps the ids in order. */
  lemma InsertKeepsIdsInOrder(rows: seq<Recommendation>, nextId: Id, r: Recommendation)
    requires IdsIssuedInOrder(rows, nextId)
    requires r.id == nextId
    ensures IdsIssuedInOrder(rows + [r], nextId + 1)
  {
  }

  /**
   * The insert loop of the generate handler: one pending row per advisory,
   * in emission order, each taking the next id.
   */
  method InsertBatch(db: Database, userId: Id, batch: seq<Advisory>, now: int)
    requires db.Valid()
    modifies db`recommendations, db`nextRecommendationId
    ensures db.Valid()
    ensures db.recommendations == old(db.recommendations) + NewRows(userId, batch, old(db.nextRecommendationId), now)
    ensures db.nextRecommendationId == old(db.nextRecommendationId) + |batch|
  {
    ghost var kept := db.recommendations;
    ghost var firstId := db.nextRecommendationId;
    for i := 0 to |batch|
      invariant db.recommendations == kept + NewRows(userId, batch[..i], firstId, now)
      invariant db.nextRecommendationId == firstId + i
      invariant db.Valid()
    {
      var row := NewRow(userId, batch[i], db.nextRecommendationId, now + i);
      InsertKeepsIdsInOrder(db.recommendations, db.nextRecommendationId, row);
      assert NewRows(userId, batch[..i + 1], firstId, now)
          == NewRows(userId, batch[..i], firstId, now) + [row];
      db.recommendations := db.recommendations + [row];
      db.nextRecommendationId := db.nextRecommendationId + 1;
    }
    assert batch[..|batch|] == batch;
  }

  /**
   * POST /generate: with no risk profile, redirect before touching the table;
   * otherwise delete the user's pending recommendations, analyse, and insert
   * each advisory of the batch as a pending row, in emission order. Reading
   * `portfolio.id` or `user.date_of_birth` of a missing row fails before the delete.
   */
  method Generate(db: Database, userId: Id, today: Date, now: int) returns (outcome: Outcome)
    requires db.Valid()
    modifies db`recommendations, db`nextRecommendationId
    ensures db.Valid()
    ensures Where(db.riskProfiles, ProfileOfUser(userId)) == [] ==>
              outcome == Redirect("/risk/questionnaire")
              && db.recommendations == old(db.recommendations)
              && db.nextRecommendationId == old(db.nextRecommendationId)
    ensures Where(db.riskProfiles, ProfileOfUser(userId)) != []
            && (First(db.portfolios, PortfolioOfUser(userId)).None? || First(db.users, UserWithId(userId)).None?) ==>
              outcome == ServerError
              && db.recommendations == old(db.recommendations)
              && db.nextRecommendationId == old(db.nextRecommendationId)
    ensures Where(db.riskProfiles, ProfileOfUser(userId)) != []
            && First(db.portfolios, PortfolioOfUser(userId)).Some? && First(db.users, UserWithId(userId)).Some? ==>
              var batch := GeneratedBatch(First(db.users, UserWithId(userId)).value,
                                          First(db.portfolios, PortfolioOfUser(userId)).value,
                                          Where(db.riskProfiles, ProfileOfUser(userId))[0],
                                          db.allocations, today);
              && outcome == Redirect("/recommendations")
              && db.recommendations == Where(old(db.recommendations), SurvivesClearing(userId))
                                       + NewRows(userId, batch, old(db.nextRecommendationId), now)
              && db.nextRecommendationId == old(db.nextRecommendationId) + |batch|
  {
    var user := First(db.users, UserWithId(userId));
    var portfolio := First(db.portfolios, PortfolioOfUser(userId));
    var riskResult := Where(db.riskProfiles, ProfileOfUser(userId));
    if |riskResult| == 0 {
      return Redirect("/risk/questionnaire");
    }
    var riskProfile := riskResult[0];

    if portfolio.None? {
      return ServerError;
    }
    var currentAllocations := Where(db.allocations, AllocationOfPortfolio(portfolio.value.id));
    if user.None? {
      return ServerError;
    }
    var age := AgeOrDefault(user.value.dateOfBirth, today);
    var recommendedAllocation := GetRecommendedAllocation(riskProfile.riskCategory, age);

    ClearingKeepsIdsInOrder(db.recommendations, db.nextRecommendationId, userId);
    db.recommendations := Where(db.recommendations, SurvivesClearing(userId));

    var recommendations := Analyze(portfolio.value, riskProfile, currentAllocations, recommendedAllocation);

    InsertBatch(db, userId, recommendations, now);
    outcome := Redirect("/recommendations");
  }

  /**
   * What a generate leaves in the table: the user's pending rows are exactly
   * the new batch in emission order, every previously pending row of the user
   * is gone, every other old row is kept, and other users' rows are untouched.
   */
  lemma AfterGenerate(rows: seq<Recommendation>, userId: Id, batch: seq<Advisory>, firstId: Id, now: int)
    requires IdsIssuedInOrder(rows, firstId)
    ensures var after := Where(rows, SurvivesClearing(userId)) + NewRows(userId, batch, firstId, now);
      && Where(after, PendingOfUser(userId)) == NewRows(userId, batch, firstId, now)
      && (forall i :: 0 <= i < |rows| && PendingOfUser(userId)(rows[i]) ==> rows[i] !in after)
      && (forall i :: 0 <= i < |rows| && !PendingOfUser(userId)(rows[i]) ==> rows[i] in after)
      && Where(after, RecommendationOfOtherUser(userId)) == Where(rows, RecommendationOfOtherUser(userId))
  {
    var kept := Where(rows, SurvivesClearing(userId));
    var added := NewRows(userId, batch, firstId, now);
    var after := kept + added;
    WhereConcat(kept, added, PendingOfUser(userId));
    WhereDisjoint(rows, SurvivesClearing(userId), PendingOfUser(userId));
    WhereAll(added, PendingOfUser(userId));
    WhereConcat(kept, added, RecommendationOfOtherUser(userId));
    WhereNarrowed(rows, SurvivesClearing(userId), RecommendationOfOtherUser(userId));
    WhereEmptyIff(added, RecommendationOfOtherUser(userId));
    forall i | 0 <= i < |rows| && PendingOfUser(userId)(rows[i]) ensures rows[i] !in after {
      assert rows[i] !in kept;
      assert rows[i].id < firstId;
    }
  }

  /** `UPDATE recommendations SET status = $1 WHERE id = $2 AND user_id = $3`. */
  function SetStatus(rows: seq<Recommendation>, id: Id, userId: Id, status: string): (r: seq<Recommendation>)
    ensures |r| == |rows|
    ensures forall i :: 0 <= i < |rows| && rows[i].id == id && rows[i].userId == userId ==>
              r[i] == rows[i].(status := status)
    ensures forall i :: 0 <= i < |rows| && !(rows[i].id == id && rows[i].userId == userId) ==>
              r[i] == rows[i]
  {
    seq(|rows|, i requires 0 <= i < |rows| =>
      if rows[i].id == id && rows[i].userId == userId then rows[i].(status := status) else rows[i])
  }

  /** With ids issued in order, a status update changes at most one row, and only its status. */
  lemma SetStatusTouchesOneRow(rows: seq<Recommendation>, nextId: Id, id: Id, userId: Id, status: string)
    requires IdsIssuedInOrder(rows, nextId)
    ensures forall i, j ::
              (0 <= i < |rows| && 0 <= j < |rows| && SetStatus(rows, id, userId, status)[i] != rows[i]
               && SetStatus(rows, id, userId, status)[j] != rows[j]) ==> i == j
    ensures forall i :: 0 <= i < |rows| ==>
              SetStatus(rows, id, userId, status)[i] == rows[i].(status := SetStatus(rows, id, userId, status)[i].status)
  {
    var r := SetStatus(rows, id, userId, status);
    forall i, j | 0 <= i < |rows| && 0 <= j < |rows| && r[i] != rows[i] && r[j] != rows[j] ensures i == j {
      assert RecommendationId(rows[i]) == id == RecommendationId(rows[j]);
    }
  }

  /** POST /:id/status: set the status of the user's row with that id. */
  method UpdateStatus(db: Database, id: Id, userId: Id, status: string) returns (outcome: Outcome)
    requires db.Valid()
    modifies db`recommendations
    ensures db.Valid()
    ensures outcome == Redirect("/recommendations")
    ensures db.recommendations == SetStatus(old(db.recommendations), id, userId, status)
  {
    db.recommendations := SetStatus(db.recommendations, id, userId, status);
    outcome := Redirect("/recommendations");
  }
}
