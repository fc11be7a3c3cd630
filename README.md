# Personal-finance advisor: the rules and table updates behind the routes

This project models the deterministic core of an Express personal-finance
application. It then proves properties of that model. The core consists of:

- **the actuarial and allocation rules of `utils/helpers.js`:** age from a date of birth,
  years to retirement, the risk bands, and the recommended asset allocation
  (per-band clamped linear formulas, normalised to rounded percentages);
- **the risk questionnaire of `routes/risk.js`:** the step-by-step score, its
  band, the update-or-insert of the user's `risk_profiles` row, and the
  results page;
- **the recommendation engine of `routes/recommendations.js`:** four
  independent checks that each push at most one advisory, the generate handler
  that deletes the user's pending recommendations and inserts the new batch,
  and the status update;
- **the transaction bookkeeping of `routes/portfolio.js`:** one transaction row
  appended, and the portfolio totals moved by Contribution and Withdrawal;
- **the dashboard of `routes/dashboard.js`:** the return percentage, the
  age metrics, and the "latest N" selections.

Modelling choices:

- **Numbers:** JavaScript numbers are exact `real`s. `Math.round(x)` is
  `Floor(x + 0.5)`.
- **Today and the insertion time:** the ambient "today" of
  `calculateAge` and the `created_at` timestamp are parameters.
- **The database:** one `Database` object (module `Store`) holds each table
  as a sequence of rows in insertion order.
  - A `SELECT … WHERE` is the order-preserving filter `Query.Where`.
  - `rows[0]` of a query is `Query.First`.
  - `ORDER BY key DESC LIMIT n` is `Query.OrderByDescLimit`: a stable sort, newest first, then a prefix.
- **Handlers:**
  - Handlers that write are methods whose `modifies` clause names exactly the tables they touch.
  - Read-only handlers are functions that read the object.
  - A handler that dereferences a missing user or portfolio row fails with a 500 page in the application. The model gives the outcome `ServerError`, and its contract states that no table changed.

Modules follow the source files: `Helpers` (utils/helpers.js), `Risk`,
`Recommendations`, `PortfolioRoutes` and `Dashboard` (the route files).
`Store` holds the row types, the table object and its invariant. `Query`
holds the SQL selections. `Wrappers` holds `Option`.

The store invariant `Store.Database.Valid` has two parts:

- every user has at most one risk profile;
- recommendation ids strictly increase in insertion order and stay below the next id.

Every writing handler preserves it.

## Model

| member | source | states |
|---|---|---|
| Helpers.CalculateAge | utils/helpers.js:24-35 | the result is the number of whole years lived: the age-th birthday is not after today and the next one is; it is the year difference, minus one exactly when this year's birthday is still ahead |
| Helpers.AgeIsUnique | utils/helpers.js:24-35 | any count of years that brackets today between two consecutive birthdays is the computed age |
| Helpers.AgeExamples | utils/helpers.js:27-32 | born 2000-06-15: age 23 on 2024-06-10 and 24 on 2024-06-20 |
| Helpers.CalculateYearsToRetirement | utils/helpers.js:38-41 | never negative, at least retirementAge minus age, and either 0 or exactly retirementAge minus age, i.e. max(0, retirementAge - age) |
| Helpers.RetiredIffNoYearsLeft | utils/helpers.js:38-41 | no years are left exactly when the age has reached the retirement age |
| Helpers.GetRiskCategory | utils/helpers.js:44-48 | Conservative iff score <= 3, Moderate iff 3 < score <= 6, Aggressive iff score > 6 |
| Helpers.RiskCategoryMonotone | utils/helpers.js:44-48 | a higher score never gives a more cautious band |
| Helpers.RiskCategory.Name | utils/helpers.js:44-48 | the stored label of a band selects that band's formulas again |
| Helpers.FormulaFor | utils/helpers.js:56-77 | the Conservative formulas apply iff the label is "Conservative", the Moderate ones iff it is "Moderate", and every other label falls through to Aggressive |
| Helpers.RawAllocation | utils/helpers.js:51-77 | the raw weights total between 100 and 110 for every band and age |
| Helpers.RawAllocationByAge | utils/helpers.js:52-77 | the `65 - yearsToRetirement` term equals age, so each band is max(floor, start - slope*age) stocks, min(cap, start + slope*age) bonds and fixed real estate/cash (10/10 Conservative, 15/5 otherwise) |
| Helpers.RawFloorsAndCaps | utils/helpers.js:56-77 | raw stocks are at least 20/40/60 and raw bonds at most 60/40/20 for Conservative/Moderate/Aggressive |
| Helpers.RawMonotoneInAge | utils/helpers.js:56-77 | an older investor gets no more raw stocks and no fewer raw bonds |
| Helpers.SumOfValues | utils/helpers.js:80 | reducing the object's values left to right gives the sum of its four fields |
| Helpers.Round | utils/helpers.js:82 | the result is within one half of the argument, halves rounding up |
| Helpers.RoundMonotone | utils/helpers.js:82 | rounding preserves order |
| Helpers.RoundWhole | utils/helpers.js:82 | a whole number rounds to itself |
| Helpers.RecommendedAllocation | utils/helpers.js:79-85 | every returned field is a whole percentage |
| Helpers.Share | utils/helpers.js:82 | one field's rounded share is a whole number within one half of its exact percentage of the total |
| Helpers.Normalize | utils/helpers.js:80-83 | every field of the result is a whole percentage, and each is the rounded share of the same field of the raw object in the raw total |
| Helpers.SharesAddUp | utils/helpers.js:80-83 | the four unrounded shares of a positive total add up to exactly 100 |
| Helpers.RecommendedTotalNear100 | utils/helpers.js:80-83 | because each field is rounded on its own, the four percentages add up to between 99 and 102 |
| Helpers.ShareInRange | utils/helpers.js:82 | the rounded share of a part no larger than a positive total lies in [0, 100] |
| Helpers.RecommendedPercentagesInRange | utils/helpers.js:80-83 | for age >= 0 every percentage lies in [0, 100] |
| Helpers.NormalizeKeepsWholePercentages | utils/helpers.js:80-83 | whole-number weights totalling 100 are left unchanged by normalisation |
| Helpers.ModerateAtForty | utils/helpers.js:63-83 | Moderate at age 40 gives 40/40/15/5 |
| Helpers.GetRecommendedAllocation | utils/helpers.js:51-85 | the reduce loop and the in-place forEach rewrite return exactly the normalised allocation of the raw object |
| Risk.RawScore | routes/risk.js:42-60 | no ensures; the body computes the accumulated sum: the horizon answer divided by 5 plus the other five answers |
| Risk.RiskScore | routes/risk.js:42-63 | the stored score is always an integer in [1, 10] |
| Risk.ComputeRiskScore | routes/risk.js:42-63 | the step-by-step accumulation of the six answers, rescaled, clamped and rounded, is round(min(10, max(1, raw/6*10))) and lies in [1, 10] |
| Risk.RiskScoreMonotone | routes/risk.js:45-63 | raising any of the six answers never lowers the score |
| Risk.StoredHorizon | routes/risk.js:68-70 | the stored horizon is max(0, 65 - age) when a date of birth is known and the submitted horizon answer otherwise |
| Risk.SubmittedProfile | routes/risk.js:63-82 | the row written carries the user's id, the questionnaire's score (an integer in [1, 10]) and the label of that score's band, which selects that band's formulas |
| Risk.UpdateProfiles | routes/risk.js:89-97 | the UPDATE replaces every row of the user by the new profile and leaves every other row in place |
| Risk.UpdateKeepsOthers | routes/risk.js:89-97 | after the UPDATE, the other users' rows are the same rows in the same order |
| Risk.UpdateOverwritesTheRow | routes/risk.js:87-97 | when the user has exactly one row, the UPDATE leaves exactly the new profile for that user |
| Risk.UpdateKeepsNoneOfUser | routes/risk.js:89-97 | on a table with no row of the user, the UPDATE leaves no row of that user |
| Risk.AtMostOneRowOfUser | routes/risk.js:85-108 | under the one-profile-per-user invariant a user has at most one row |
| Risk.AppendNewRow | routes/risk.js:98-107 | inserting for a user without a row gives that user exactly the new row and leaves the others' rows unchanged |
| Risk.UpsertProfile | routes/risk.js:84-108 | afterwards the user has exactly one profile holding the new values, other users' profiles are unchanged, the table grows by one row exactly when the user had none, and the invariant is kept |
| Risk.SubmitQuestionnaire | routes/risk.js:26-115 | a missing user row gives the error page and no change; otherwise the user's only profile is the submitted one, the others are unchanged, and the handler redirects to the results page |
| Risk.AgeOrDefault | routes/risk.js:132-134 | age 30 without a date of birth, the computed age with one |
| Risk.Results | routes/risk.js:118-147 | redirect to the questionnaire iff there is no profile; error iff there is a profile but no user row; otherwise the first profile and the allocation for its category at the user's age (30 by default) |
| Risk.ResultsAfterSubmit | routes/risk.js:118-137 | when the user row exists and the user's only profile is p, the results page of that database shows p with the allocation for its category at the user's age (30 without a date of birth); a category that labels the stored score's band, as the submitted row's does, selects that band's formulas |
| Query.Where | routes/recommendations.js:52-56 | the selected rows all come from the table and satisfy the condition, and every row that satisfies it is selected |
| Query.WhereEmptyIff | routes/risk.js:123-127 | a query is empty exactly when no row satisfies its condition |
| Query.WhereConcat | routes/recommendations.js:125-130 | filtering a concatenation filters each part |
| Query.WhereAll | routes/recommendations.js:125-130 | a condition every row passes selects the whole table |
| Query.WhereNarrowed | routes/recommendations.js:65-68 | filtering by a condition and then by a stronger one is filtering by the stronger one |
| Query.WhereDisjoint | routes/recommendations.js:65-68 | filtering by a condition and then by one that excludes it selects nothing |
| Query.WhereKeepsIncreasing | routes/recommendations.js:65-68 | deleting rows keeps strictly increasing keys increasing |
| Query.First | routes/dashboard.js:13-18 | `rows[0]` of a query is absent iff no row matches, and otherwise is the earliest matching row |
| Query.FirstIsHeadOfWhere | routes/risk.js:123-129 | `rows[0]` is the head of the filtered table |
| Query.Insert | routes/dashboard.js:33 | inserting into a newest-first list keeps it newest first and adds exactly that row |
| Query.SortDesc | routes/dashboard.js:33 | the sort is newest first and a permutation of the table |
| Query.PrefixIsNewest | routes/dashboard.js:33 | no row after the first n of a newest-first list is newer than one of those n |
| Query.OrderByDescLimit | routes/dashboard.js:33-40 | `ORDER BY key DESC LIMIT n` returns min(n, rows) rows, newest first, drawn from the table, and no row left out is newer than one returned |
| Query.Reverse | routes/dashboard.js:43 | `reverse()` lists the same rows in mirrored positions |
| Query.ReverseOfDescIsAsc | routes/dashboard.js:39-43 | reversing a newest-first list gives the same rows oldest first |
| Query.ReverseMultiset | routes/dashboard.js:43 | reversing keeps the multiset of rows |
| Store.Database.Valid | routes/risk.js:84-108 | no ensures; the invariant holds when every user has at most one risk profile and recommendation ids strictly increase in insertion order below the next id |
| Store.DateKeyOrdersDates | routes/dashboard.js:33 | on valid dates the sort key orders dates as the calendar does |
| Recommendations.CurrentStocks | routes/recommendations.js:75 | 0 when no row is "Stocks", otherwise the percentage of the first "Stocks" row |
| Recommendations.MonthlyContribution | routes/recommendations.js:89 | twelve times the simplified monthly contribution is the total contributed |
| Recommendations.RecommendedContribution | routes/recommendations.js:90 | the target is 15% of the monthly income, and for a non-negative income lies between 0 and that income |
| Recommendations.ProjectedSavingsClosedForm | routes/recommendations.js:112-113 | the projection is the balance plus the total contributed times the horizon in years times 1.07 |
| Recommendations.ProjectedSavings | routes/recommendations.js:112-113 | no ensures; the body computes the balance plus the monthly contribution times 12 times the stored horizon times 1.07 |
| Recommendations.NeedsRebalance | routes/recommendations.js:74-78 | no ensures; the body holds when there is at least one holding and the first "Stocks" percentage (0 without one) is more than 10 points from the recommended stocks |
| Recommendations.ContributesTooLittle | routes/recommendations.js:89-92 | no ensures; the body holds when the monthly contribution is below the recommended contribution |
| Recommendations.Undiversified | routes/recommendations.js:102 | no ensures; the body holds when there are fewer than three holdings |
| Recommendations.GoalAtRisk | routes/recommendations.js:112-115 | no ensures; the body holds when the projected savings are below 80% of the retirement goal |
| Recommendations.RebalanceAdvisory | routes/recommendations.js:79-84 | a High-priority Rebalance advisory whose description carries the current and the recommended stock percentages |
| Recommendations.ContributionAdvisory | routes/recommendations.js:93-98 | a High-priority Increase Contribution advisory whose description carries the recommended contribution and the retirement goal |
| Recommendations.FixedAdvisories | routes/recommendations.js:103-121 | the fixed diversification advisory is a Medium-priority Change Allocation, and the fixed goal-at-risk advisory a High-priority Increase Contribution with a plain text description |
| Recommendations.Emit | routes/recommendations.js:78-122 | a check contributes its advisory exactly when its condition holds |
| Recommendations.Advisories | routes/recommendations.js:71-122 | the batch has at most four advisories, in check order Rebalance, Increase Contribution, Change Allocation, Increase Contribution (so none twice), with priority Medium for Change Allocation and High otherwise |
| Recommendations.AdvisoriesEmitted | routes/recommendations.js:74-122 | an advisory is in the batch exactly when it is the advisory of a check whose condition holds: rebalance iff some holdings and stocks more than 10 points off the recommendation; contribution iff contributions/12 < 15% of income; diversification iff fewer than 3 holdings; goal at risk iff the 7%-grown projection is below 80% of the goal |
| Recommendations.NoHoldingsMeansDiversify | routes/recommendations.js:74-109 | with no holdings there is always a diversification advisory and never a rebalance |
| Recommendations.RebalanceExample | routes/recommendations.js:74-86 | holding 20% stocks first against a recommended 40% puts the rebalance advisory naming 20 and 40 at the head of the batch, and nowhere else |
| Recommendations.Analyze | routes/recommendations.js:71-122 | the four conditional pushes build exactly the batch of the four checks |
| Recommendations.NewRow | routes/recommendations.js:126-128 | the inserted row has the given id, the user, the advisory's type label, title, description and priority label, status "pending" and the given insertion time |
| Recommendations.NewRows | routes/recommendations.js:125-130 | one row per advisory, in emission order, each of the user, status "pending", with consecutive ids, the i-th inserted at `now + i` |
| Recommendations.GeneratedBatch | routes/recommendations.js:52-62 | the batch for the portfolio's own holdings and the allocation at the user's age has at most four advisories, and with no holdings it holds the diversification advisory and no rebalance |
| Recommendations.ClearingKeepsIdsInOrder | routes/recommendations.js:65-68 | the DELETE keeps the id invariant |
| Recommendations.InsertKeepsIdsInOrder | routes/recommendations.js:126-129 | an INSERT with the next id keeps the id invariant |
| Recommendations.InsertBatch | routes/recommendations.js:125-130 | the insert loop appends exactly the batch's rows and advances the id counter by the batch size, keeping the invariant |
| Recommendations.Generate | routes/recommendations.js:30-137 | no risk profile: redirect to the questionnaire before the DELETE, table unchanged; missing portfolio or user: error, table unchanged; otherwise the table is the surviving rows followed by the new pending batch, and the handler redirects to the recommendations page |
| Recommendations.AfterGenerate | routes/recommendations.js:65-130 | after a generate the user's pending rows are exactly the new batch in emission order, every previously pending row of the user is gone, every other old row is kept, and other users' rows are untouched |
| Recommendations.SetStatus | routes/recommendations.js:146-149 | exactly the rows whose id and user both match get the new status; every other row is unchanged |
| Recommendations.SetStatusTouchesOneRow | routes/recommendations.js:146-149 | with ids issued in order, at most one row changes and only in its status |
| Recommendations.UpdateStatus | routes/recommendations.js:140-156 | the table becomes the status update of the old one, the invariant holds, and the handler redirects |
| PortfolioRoutes.ApplyTransaction | routes/portfolio.js:69-79 | a Contribution raises balance and contributions by the amount, a Withdrawal lowers the balance only, any other type changes nothing, and the returns never change |
| PortfolioRoutes.ContributionThenWithdrawal | routes/portfolio.js:69-79 | a contribution followed by a withdrawal of the same amount restores the balance while the contributions stay raised |
| PortfolioRoutes.Ledger | routes/portfolio.js:69-79 | after any series of transactions the balance is the start plus contributions minus withdrawals, the contributions grow by the contributed total, and the returns are unchanged |
| PortfolioRoutes.ApplyAllSnoc | routes/portfolio.js:69-79 | one more transaction extends the series by one step, so repeated POST /transaction calls follow the ledger |
| PortfolioRoutes.UpdatePortfolios | routes/portfolio.js:68-79 | the rows with the portfolio's id take the transaction and every other row is unchanged |
| PortfolioRoutes.AddTransaction | routes/portfolio.js:53-86 | no portfolio: error and no change; otherwise exactly one transaction row is appended whatever the type, the portfolio rows are updated by the type rule, and the handler redirects |
| PortfolioRoutes.TransactionJoinsItsPortfolio | routes/portfolio.js:63-66 | the new transaction joins its own portfolio's history and no other's |
| PortfolioRoutes.PortfolioFollowsItsLedger | routes/portfolio.js:63-79 | a portfolio row that equals its start state with its own transactions applied in insertion order still does after the handler's INSERT and UPDATE |
| Dashboard.ComputeMetrics | routes/dashboard.js:53-59 | total return is the stored return or 0 when NULL; with positive contributions the percentage times the contributions is 100 times the return, otherwise 0; age and years to retirement are null iff there is no date of birth, otherwise the computed age and max(0, 65 - age) |
| Dashboard.ReturnPercentageSign | routes/dashboard.js:54-56 | with contributions the percentage is positive (zero) exactly when the return is |
| Dashboard.SelectedAreFiltered | routes/dashboard.js:32-50 | a limited query returns only rows of the table that satisfy its condition |
| Dashboard.OmittedAreOlder | routes/dashboard.js:32-50 | a matching row a limited query leaves out is no newer than any row it returns |
| Dashboard.RecentTransactions | routes/dashboard.js:32-36 | min(5, count) of the portfolio's transactions, newest first, none omitted that is newer than one shown |
| Dashboard.PerformanceHistory | routes/dashboard.js:39-43 | min(12, count) of the portfolio's points, oldest first, none omitted that is newer than one shown |
| Dashboard.PendingRecommendations | routes/dashboard.js:45-50 | min(3, count) of the user's pending recommendations, newest first, none omitted that is newer than one shown |
| Dashboard.DashboardOf | routes/dashboard.js:8-82 | error iff the portfolio or the user row is missing; otherwise the view holds the first user and portfolio rows, the first risk profile, the portfolio's allocations, its recent transactions and performance history and the user's pending recommendations as the selections above define them (at most 5, 12 and 3), and the computed metrics |

## Left out

- Formatting helpers (`formatCurrency`, `formatPercentage`, `formatDate`): locale and floating-point formatting in foreign code. The interpolated description texts are therefore kept as the values they interpolate (`Store.Description`).
- `calculateCompoundInterest` and `generateMockPerformanceData`: floating-point powers, `Math.random` and the wall clock; no route of the core calls them.
- Authentication, sessions, input validation, the server wiring and the education, campaign and investor routes: library wrappers, framework code, or static data with no logic.
- The GET routes that only render (`/risk/questionnaire`, `/recommendations`, `/portfolio`): they select rows and hand them to a template. Their `ORDER BY ... DESC` or `ASC` selections have no `LIMIT` (for example routes/portfolio.js:25 and :32, routes/recommendations.js:14), and no model function stands for them.
- IEEE-754 doubles: all arithmetic is exact, so rounding ties and accumulated errors of binary doubles are not reproduced.
- JavaScript coercion: NUMERIC columns are numbers, never strings, so `+` never concatenates. Answers are well-formed integers (no `NaN` from `parseInt`). Request fields are already parsed, and `questionnaire_data` is kept as the parsed record rather than a JSON string.
- `updated_at` timestamps, and the store's default `created_at`: the `now` parameter is the insertion time of a generated batch's first row, and each later INSERT statement of the batch is one tick later. Real timestamps of consecutive statements may coincide; the model does not capture that tie.
- Concurrency and atomicity: each handler is one sequential step over the store, with no interleaving between its queries.
- Row order the SQL leaves unspecified: rows with equal sort keys, and every SELECT without `ORDER BY`. The `rows[0]` of the users, portfolios and risk_profiles queries, and the `find` over the allocations, are taken in insertion order. A store may return another order.
- Uniqueness of user and portfolio ids, and one portfolio per user: these are not part of the store invariant. As in SQL, the portfolio UPDATE and the status UPDATE touch every row matching their `WHERE` clause.
- Dates are (year, month, day) triples as the `Date` getters report them; time zones and the parsing of `date_of_birth` are not modelled.
- A NaN `total_returns`: `|| 0` would map it to 0; returns are exact numbers here. An exact 0 maps to itself, as in the source.
