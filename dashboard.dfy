/**
 * routes/dashboard.js, GET /: the metrics shown for a portfolio and the
 * "latest N" selections of transactions, performance points and pending
 * recommendations.
 */
module Dashboard {
  import opened Wrappers
  import opened Helpers
  import opened Query
  import opened Store

  /** The `metrics` object handed to the dashboard view; `None` stands for `null`. */
  datatype Metrics = Metrics(
    totalReturn: real, returnPercentage: real,
    age: Option<int>, yearsToRetirement: Option<int>)

  /**
   * The metrics: the total return (0 when NULL), its percentage of the
   * contributions when there are any, and the age and years to retirement
   * when the date of birth is known.
   */
  function ComputeMetrics(portfolio: Portfolio, dateOfBirth: Option<Date>, today: Date): (m: Metrics)
    ensures portfolio.totalReturns.Some? ==> m.totalReturn == portfolio.totalReturns.value
    ensures portfolio.totalReturns.None? ==> m.totalReturn == 0.0
    // the percentage is the share of the contributions the return makes up
    ensures portfolio.totalContributions > 0.0 ==>
              m.returnPercentage * portfolio.totalContributions == m.totalReturn * 100.0
    ensures portfolio.totalContributions <= 0.0 ==> m.returnPercentage == 0.0
    ensures m.age.None? <==> dateOfBirth.None?
    ensures m.yearsToRetirement.None? <==> dateOfBirth.None?
    ensures dateOfBirth.Some? ==>
              && m.age == Some(CalculateAge(dateOfBirth.value, today))
              && m.yearsToRetirement == Some(if m.age.value < DefaultRetirementAge then DefaultRetirementAge - m.age.value else 0)
  {
    var totalReturn := portfolio.totalReturns.GetOr(0.0);
    var returnPercentage :=
      if portfolio.totalContributions > 0.0
      then (totalReturn / portfolio.totalContributions) * 100.0
      else 0.0;
    var age := if dateOfBirth.Some? then Some(CalculateAge(dateOfBirth.value, today)) else None;
    var yearsToRetirement :=
      if dateOfBirth.Some?
      then Some(CalculateYearsToRetirement(dateOfBirth.value, today, DefaultRetirementAge))
      else None;
    Metrics(totalReturn, returnPercentage, age, yearsToRetirement)
  }

  /** With contributions, the return percentage has the sign of the return. */
  lemma ReturnPercentageSign(portfolio: Portfolio, dateOfBirth: Option<Date>, today: Date)
    requires portfolio.totalContributions > 0.0
    ensures var m := ComputeMetrics(portfolio, dateOfBirth, today);
      && (m.returnPercentage > 0.0 <==> m.totalReturn > 0.0)
      && (m.returnPercentage == 0.0 <==> m.totalReturn == 0.0)
  {
    var m := ComputeMetrics(portfolio, dateOfBirth, today);
    var c := portfolio.totalContributions;
    assert m.returnPercentage * c == m.totalReturn * 100.0;
    if m.returnPercentage > 0.0 {
      assert m.returnPercentage * c > 0.0;
    } else if m.returnPercentage < 0.0 {
      assert m.returnPercentage * c < 0.0;
    }
  }

  /** The sort key of `ORDER BY transaction_date`. */
  function TransactionDate(t: Transaction): int {
    DateKey(t.transactionDate)
  }

  /** The sort key of `ORDER BY date`. */
  function PointDate(p: PerformancePoint): int {
    DateKey(p.date)
  }

  /** The sort key of `ORDER BY created_at`. */
  function CreatedAt(r: Recommendation): int {
    r.createdAt
  }

  /** The rows a limited query returns come from the filtered table. */
  lemma SelectedAreFiltered<T>(rows: seq<T>, p: T -> bool, key: T -> int, limit: nat)
    ensures forall i :: 0 <= i < |OrderByDescLimit(Where(rows, p), key, limit)| ==>
              OrderByDescLimit(Where(rows, p), key, limit)[i] in rows
              && p(OrderByDescLimit(Where(rows, p), key, limit)[i])
  {
    var r := OrderByDescLimit(Where(rows, p), key, limit);
    forall i | 0 <= i < |r| ensures r[i] in rows && p(r[i]) {
      assert r[i] in multiset(r);
      assert r[i] in multiset(Where(rows, p));
    }
  }

  /** A filtered row a limited query leaves out is no newer than any row it returns. */
  lemma OmittedAreOlder<T>(rows: seq<T>, p: T -> bool, key: T -> int, limit: nat)
    ensures forall x :: x in rows && p(x) && x !in OrderByDescLimit(Where(rows, p), key, limit) ==>
              forall i :: 0 <= i < |OrderByDescLimit(Where(rows, p), key, limit)| ==>
                key(x) <= key(OrderByDescLimit(Where(rows, p), key, limit)[i])
  {
    var r := OrderByDescLimit(Where(rows, p), key, limit);
    forall x | x in rows && p(x) && x !in r
      ensures forall i :: 0 <= i < |r| ==> key(x) <= key(r[i])
    {
      var j :| 0 <= j < |rows| && rows[j] == x;
      assert x in multiset(Where(rows, p));
      assert x !in multiset(r);
      assert x in multiset(Where(rows, p)) - multiset(r);
    }
  }

  /**
   * `... WHERE portfolio_id = $1 ORDER BY transaction_date DESC LIMIT 5`: at
   * most five of the portfolio's transactions, newest first, and no omitted
   * transaction of the portfolio is newer than one shown.
   */
  function RecentTransactions(transactions: seq<Transaction>, portfolioId: Id): (r: seq<Transaction>)
    ensures |r| == if |Where(transactions, TransactionOfPortfolio(portfolioId))| < 5
                   then |Where(transactions, TransactionOfPortfolio(portfolioId))| else 5
    ensures forall i :: 0 <= i < |r| ==> r[i] in transactions && r[i].portfolioId == portfolioId
    ensures SortedDesc(r, TransactionDate)
    ensures forall t :: t in transactions && t.portfolioId == portfolioId && t !in r ==>
              forall i :: 0 <= i < |r| ==> TransactionDate(t) <= TransactionDate(r[i])
  {
    SelectedAreFiltered(transactions, TransactionOfPortfolio(portfolioId), TransactionDate, 5);
    OmittedAreOlder(transactions, TransactionOfPortfolio(portfolioId), TransactionDate, 5);
    OrderByDescLimit(Where(transactions, TransactionOfPortfolio(portfolioId)), TransactionDate, 5)
  }

  /**
   * `... ORDER BY date DESC LIMIT 12` then `reverse()`: the portfolio's twelve
   * latest points (or all of them), oldest first.
   */
  function PerformanceHistory(points: seq<PerformancePoint>, portfolioId: Id): (r: seq<PerformancePoint>)
    ensures |r| == if |Where(points, PointOfPortfolio(portfolioId))| < 12
                   then |Where(points, PointOfPortfolio(portfolioId))| else 12
    ensures forall i :: 0 <= i < |r| ==> r[i] in points && r[i].portfolioId == portfolioId
    ensures SortedAsc(r, PointDate)
    ensures forall x :: x in points && x.portfolioId == portfolioId && x !in r ==>
              forall i :: 0 <= i < |r| ==> PointDate(x) <= PointDate(r[i])
  {
    var latest := OrderByDescLimit(Where(points, PointOfPortfolio(portfolioId)), PointDate, 12);
    SelectedAreFiltered(points, PointOfPortfolio(portfolioId), PointDate, 12);
    OmittedAreOlder(points, PointOfPortfolio(portfolioId), PointDate, 12);
    ReverseOfDescIsAsc(latest, PointDate);
    var r := Reverse(latest);
    assert forall x :: x in r <==> x in latest by {
      assert forall x :: x in r <==> x in multiset(r);
      assert forall x :: x in latest <==> x in multiset(latest);
    }
    r
  }

  /**
   * `... WHERE user_id = $1 AND status = 'pending' ORDER BY created_at DESC LIMIT 3`:
   * at most three of the user's pending recommendations, newest first.
   */
  function PendingRecommendations(rows: seq<Recommendation>, userId: Id): (r: seq<Recommendation>)
    ensures |r| == if |Where(rows, PendingOfUser(userId))| < 3 then |Where(rows, PendingOfUser(userId))| else 3
    ensures forall i :: 0 <= i < |r| ==> r[i] in rows && r[i].userId == userId && r[i].status == "pending"
    ensures SortedDesc(r, CreatedAt)
    ensures forall x :: x in rows && x.userId == userId && x.status == "pending" && x !in r ==>
              forall i :: 0 <= i < |r| ==> CreatedAt(x) <= CreatedAt(r[i])
  {
    SelectedAreFiltered(rows, PendingOfUser(userId), CreatedAt, 3);
    OmittedAreOlder(rows, PendingOfUser(userId), CreatedAt, 3);
    OrderByDescLimit(Where(rows, PendingOfUser(userId)), CreatedAt, 3)
  }

  /** Everything the dashboard view receives. */
  datatype DashboardView = DashboardView(
    user: User, portfolio: Portfolio, riskProfile: Option<RiskProfile>,
    allocations: seq<AllocationRow>, recentTransactions: seq<Transaction>,
    performanceHistory: seq<PerformancePoint>, recommendations: seq<Recommendation>,
    metrics: Metrics)

  /** The dashboard page, or the 500 page when the portfolio or the user row is missing. */
  datatype DashboardPage = DashboardShown(view: DashboardView) | DashboardError

  /**
   * GET /: the handler reads `portfolio.id` before `user.date_of_birth`, so a
   * missing portfolio or a missing user gives the error page; a missing risk
   * profile is shown as absent.
   */
  function DashboardOf(db: Database, userId: Id, today: Date): (page: DashboardPage)
    reads db
    ensures page.DashboardError? <==>
              First(db.portfolios, PortfolioOfUser(userId)).None? || First(db.users, UserWithId(userId)).None?
    ensures page.DashboardShown? ==>
              var v := page.view;
              && v.user.id == userId && v.portfolio.userId == userId
              && (v.riskProfile.None? <==> Where(db.riskProfiles, ProfileOfUser(userId)) == [])
              && (forall i :: 0 <= i < |v.allocations| ==> v.allocations[i].portfolioId == v.portfolio.id)
              && |v.recentTransactions| <= 5
              && |v.performanceHistory| <= 12
              && |v.recommendations| <= 3
              && (forall i :: 0 <= i < |v.recommendations| ==>
                    v.recommendations[i].userId == userId && v.recommendations[i].status == "pending")
              && v.metrics == ComputeMetrics(v.portfolio, v.user.dateOfBirth, today)
    // which rows each part of the view comes from
    ensures page.DashboardShown? ==>
              var v := page.view;
              && v.user == First(db.users, UserWithId(userId)).value
              && v.portfolio == First(db.portfolios, PortfolioOfUser(userId)).value
              && v.riskProfile == First(db.riskProfiles, ProfileOfUser(userId))
              && v.allocations == Where(db.allocations, AllocationOfPortfolio(v.portfolio.id))
              && v.recentTransactions == RecentTransactions(db.transactions, v.portfolio.id)
              && v.performanceHistory == PerformanceHistory(db.performance, v.portfolio.id)
              && v.recommendations == PendingRecommendations(db.recommendations, userId)
  {
    var user := First(db.users, UserWithId(userId));
    var portfolio := First(db.portfolios, PortfolioOfUser(userId));
    var riskProfile := First(db.riskProfiles, ProfileOfUser(userId));
    FirstIsHeadOfWhere(db.riskProfiles, ProfileOfUser(userId));
    if portfolio.None? || user.None? then DashboardError
    else
      var p := portfolio.value;
      DashboardShown(DashboardView(
        user.value, p, riskProfile,
        Where(db.allocations, AllocationOfPortfolio(p.id)),
        RecentTransactions(db.transactions, p.id),
        PerformanceHistory(db.performance, p.id),
        PendingRecommendations(db.recommendations, userId),
        ComputeMetrics(p, user.value.dateOfBirth, today)))
  }
}
