/**
 * The relational store the route handlers read and write, as one object
 * holding each table as a sequence of rows in insertion order, together with
 * the row types, the `WHERE` conditions the handlers use, and the HTTP
 * outcome of a handler.
 */
module Store {
  import opened Wrappers
  import opened Helpers
  import opened Query

  /** A row identifier (SERIAL column). */
  type Id = nat

  /** A row of `users`: only the column the core reads. */
  datatype User = User(id: Id, dateOfBirth: Option<Date>)

  /** A row of `portfolios`. `total_returns` may be NULL. */
  datatype Portfolio = Portfolio(
    id: Id, userId: Id,
    totalBalance: real, totalContributions: real, totalReturns: Option<real>)

  /** A row of `investment_allocations`. */
  datatype AllocationRow = AllocationRow(portfolioId: Id, assetType: string, allocationPercentage: real)

  /** A row of `transactions`. */
  datatype Transaction = Transaction(
    portfolioId: Id, transactionType: string, amount: real,
    description: string, transactionDate: Date)

  /** A row of `performance_history`. */
  datatype PerformancePoint = PerformancePoint(portfolioId: Id, date: Date, balance: real)

  /** The questionnaire form fields, with the integer answers already parsed. */
  datatype Questionnaire = Questionnaire(
    investmentHorizon: int, monthlyIncome: real, currentSavings: real, retirementGoal: real,
    riskComfort: int, marketVolatility: int, investmentKnowledge: int,
    lossReaction: int, investmentGoal: int)

  /** A row of `risk_profiles`; `questionnaire_data` holds the submitted form. */
  datatype RiskProfile = RiskProfile(
    userId: Id, riskScore: int, riskCategory: string, investmentHorizon: int,
    monthlyIncome: real, currentSavings: real, retirementGoal: real,
    questionnaireData: Questionnaire)

  /**
   * A recommendation's description: a fixed text, or a text into which the
   * source interpolates values, kept here as the values themselves.
   */
  datatype Description =
    | Text(text: string)
    | StockGap(currentStocks: real, recommendedStocks: real)
    | ContributionTarget(recommendedContribution: real, retirementGoal: real)

  /** A row of `recommendations`; `createdAt` is the insertion timestamp. */
  datatype Recommendation = Recommendation(
    id: Id, userId: Id, recommendationType: string, title: string,
    description: Description, priority: string, status: string, createdAt: int)

  /** What a route handler answers: a redirect, or the 500 error page. */
  datatype Outcome = Redirect(location: string) | ServerError

  /** `WHERE id = $1` on users. */
  function UserWithId(id: Id): User -> bool {
    (u: User) => u.id == id
  }

  /** `WHERE user_id = $1` on portfolios. */
  function PortfolioOfUser(userId: Id): Portfolio -> bool {
    (p: Portfolio) => p.userId == userId
  }

  /** `WHERE user_id = $1` on risk_profiles. */
  function ProfileOfUser(userId: Id): RiskProfile -> bool {
    (p: RiskProfile) => p.userId == userId
  }

  /** The complement of ProfileOfUser: the profiles of everybody else. */
  function ProfileOfOtherUser(userId: Id): RiskProfile -> bool {
    (p: RiskProfile) => p.userId != userId
  }

  /** `WHERE portfolio_id = $1` on investment_allocations. */
  function AllocationOfPortfolio(portfolioId: Id): AllocationRow -> bool {
    (a: AllocationRow) => a.portfolioId == portfolioId
  }

  /** `WHERE portfolio_id = $1` on transactions. */
  function TransactionOfPortfolio(portfolioId: Id): Transaction -> bool {
    (t: Transaction) => t.portfolioId == portfolioId
  }

  /** `WHERE portfolio_id = $1` on performance_history. */
  function PointOfPortfolio(portfolioId: Id): PerformancePoint -> bool {
    (p: PerformancePoint) => p.portfolioId == portfolioId
  }

  /** `WHERE user_id = $1 AND status = 'pending'` on recommendations. */
  function PendingOfUser(userId: Id): Recommendation -> bool {
    (r: Recommendation) => r.userId == userId && r.status == "pending"
  }

  /** The rows a `DELETE ... WHERE user_id = $1 AND status = 'pending'` leaves. */
  function SurvivesClearing(userId: Id): Recommendation -> bool {
    (r: Recommendation) => !(r.userId == userId && r.status == "pending")
  }

  /** `WHERE user_id <> $1` on recommendations. */
  function RecommendationOfOtherUser(userId: Id): Recommendation -> bool {
    (r: Recommendation) => r.userId != userId
  }

  /** The ordering key of a recommendation's id. */
  function RecommendationId(r: Recommendation): int {
    r.id
  }

  /** A date the store accepts: a month in 1..12 and a day in 1..31. */
  predicate ValidDate(d: Date) {
    1 <= d.month <= 12 && 1 <= d.day <= 31
  }

  /** A `date` column as a sortable number. */
  function DateKey(d: Date): int {
    (d.year * 13 + d.month) * 32 + d.day
  }

  /** On valid dates the sort key orders dates as the calendar does. */
  lemma DateKeyOrdersDates(a: Date, b: Date)
    requires ValidDate(a) && ValidDate(b)
    ensures DateKey(a) < DateKey(b) <==> Before(a, b)
  {
    if a.year < b.year {
      assert DateKey(a) < (a.year * 13 + 13) * 32 <= (b.year * 13) * 32 < DateKey(b);
    } else if a.year > b.year {
      assert DateKey(b) < (b.year * 13 + 13) * 32 <= (a.year * 13) * 32 < DateKey(a);
    }
  }

  /** Every user has at most one risk profile. */
  predicate OneProfilePerUser(profiles: seq<RiskProfile>) {
    forall i, j :: 0 <= i < j < |profiles| ==> profiles[i].userId != profiles[j].userId
  }

  /** Recommendation ids strictly increase in insertion order and stay below the next id. */
  predicate IdsIssuedInOrder(rows: seq<Recommendation>, nextId: Id) {
    StrictlyIncreasing(rows, RecommendationId)
    && forall i :: 0 <= i < |rows| ==> rows[i].id < nextId
  }

  /** The database, one sequence of rows per table. */
  class Database {
    var users: seq<User>
    var portfolios: seq<Portfolio>
    var allocations: seq<AllocationRow>
    var transactions: seq<Transaction>
    var performance: seq<PerformancePoint>
    var riskProfiles: seq<RiskProfile>
    var recommendations: seq<Recommendation>
    /** The id the `recommendations` SERIAL column hands out next. */
    var nextRecommendationId: Id

    /** What the handlers in this model keep true of the tables. */
    ghost predicate Valid()
      reads this
    {
      OneProfilePerUser(riskProfiles) && IdsIssuedInOrder(recommendations, nextRecommendationId)
    }

    /** An empty database. */
    constructor ()
      ensures Valid()
      ensures users == [] && portfolios == [] && allocations == [] && transactions == []
      ensures performance == [] && riskProfiles == [] && recommendations == []
      ensures nextRecommendationId == 0
    {
      users, portfolios, allocations, transactions := [], [], [], [];
      performance, riskProfiles, recommendations := [], [], [];
      nextRecommendationId := 0;
    }
  }
}
