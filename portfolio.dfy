/**
 * routes/portfolio.js, POST /transaction: a transaction row is appended and
 * the portfolio's totals move according to the transaction's type.
 */
module PortfolioRoutes {
  import opened Wrappers
  import opened Helpers
  import opened Query
  import opened Store

  /**
   * The effect of one transaction on a portfolio row: a Contribution adds to
   * the balance and to the contributions, a Withdrawal takes from the balance
   * only, and any other type changes nothing. Returns are never touched.
   */
  function ApplyTransaction(p: Portfolio, transactionType: string, amount: real): (q: Portfolio)
    ensures q.id == p.id && q.userId == p.userId && q.totalReturns == p.totalReturns
    ensures transactionType == "Contribution" ==>
              q.totalBalance == p.totalBalance + amount && q.totalContributions == p.totalContributions + amount
    ensures transactionType == "Withdrawal" ==>
              q.totalBalance == p.totalBalance - amount && q.totalContributions == p.totalContributions
    ensures transactionType != "Contribution" && transactionType != "Withdrawal" ==> q == p
  {
    if transactionType == "Contribution" then
      p.(totalBalance := p.totalBalance + amount, totalContributions := p.totalContributions + amount)
    else if transactionType == "Withdrawal" then
      p.(totalBalance := p.totalBalance - amount)
    else
      p
  }

  /** A contribution followed by a withdrawal of the same amount restores the balance, not the contributions. */
  lemma ContributionThenWithdrawal(p: Portfolio, amount: real)
    ensures var q := ApplyTransaction(ApplyTransaction(p, "Contribution", amount), "Withdrawal", amount);
      && q.totalBalance == p.totalBalance
      && q.totalContributions == p.totalContributions + amount
      && q.totalReturns == p.totalReturns
  {
  }

  /** The portfolio after a series of transactions, applied in order. */
  function ApplyAll(p: Portfolio, ts: seq<Transaction>): Portfolio
    decreases |ts|
  {
    if ts == [] then p
    else ApplyAll(ApplyTransaction(p, ts[0].transactionType, ts[0].amount), ts[1..])
  }

  /** The total amount of a type in a series of transactions. */
  function AmountOfType(ts: seq<Transaction>, transactionType: string): real
  {
    if ts == [] then 0.0
    else (if ts[0].transactionType == transactionType then ts[0].amount else 0.0)
         + AmountOfType(ts[1..], transactionType)
  }

  /**
   * The ledger identity: after any series of transactions the balance is the
   * start plus the contributions minus the withdrawals, the contributions
   * grow by the contributed amount, and the returns are unchanged.
   */
  lemma {:induction false} Ledger(p: Portfolio, ts: seq<Transaction>)
    ensures var q := ApplyAll(p, ts);
      && q.id == p.id && q.userId == p.userId && q.totalReturns == p.totalReturns
      && q.totalBalance == p.totalBalance + AmountOfType(ts, "Contribution") - AmountOfType(ts, "Withdrawal")
      && q.totalContributions == p.totalContributions + AmountOfType(ts, "Contribution")
    decreases |ts|
  {
    if ts != [] {
      Ledger(ApplyTransaction(p, ts[0].transactionType, ts[0].amount), ts[1..]);
    }
  }

  /** Applying one more transaction extends the series by it. */
  lemma {:induction false} ApplyAllSnoc(p: Portfolio, ts: seq<Transaction>, t: Transaction)
    ensures ApplyAll(p, ts + [t]) == ApplyTransaction(ApplyAll(p, ts), t.transactionType, t.amount)
    decreases |ts|
  {
    if ts != [] {
      assert (ts + [t])[1..] == ts[1..] + [t];
      ApplyAllSnoc(ApplyTransaction(p, ts[0].transactionType, ts[0].amount), ts[1..], t);
    }
  }

  /** `UPDATE portfolios SET ... WHERE id = $2`: the rows with that id take the transaction. */
  function UpdatePortfolios(rows: seq<Portfolio>, portfolioId: Id, transactionType: string, amount: real)
    : (r: seq<Portfolio>)
    ensures |r| == |rows|
    ensures forall i :: 0 <= i < |rows| && rows[i].id == portfolioId ==>
              r[i] == ApplyTransaction(rows[i], transactionType, amount)
    ensures forall i :: 0 <= i < |rows| && rows[i].id != portfolioId ==> r[i] == rows[i]
  {
    seq(|rows|, i requires 0 <= i < |rows| =>
      if rows[i].id == portfolioId then ApplyTransaction(rows[i], transactionType, amount) else rows[i])
  }

  /**
   * POST /transaction: with no portfolio the handler fails on `portfolio.id`
   * before any write; otherwise it appends one transaction row, whatever its
   * type, and updates the portfolio for a Contribution or a Withdrawal.
   */
  method AddTransaction(db: Database, userId: Id, transactionType: string, amount: real,
                        description: string, date: Date) returns (outcome: Outcome)
    modifies db`transactions, db`portfolios
    ensures First(old(db.portfolios), PortfolioOfUser(userId)).None? ==>
              outcome == ServerError
              && db.transactions == old(db.transactions) && db.portfolios == old(db.portfolios)
    ensures First(old(db.portfolios), PortfolioOfUser(userId)).Some? ==>
              var portfolioId := First(old(db.portfolios), PortfolioOfUser(userId)).value.id;
              && outcome == Redirect("/portfolio")
              && db.transactions == old(db.transactions)
                                    + [Transaction(portfolioId, transactionType, amount, description, date)]
              && db.portfolios == UpdatePortfolios(old(db.portfolios), portfolioId, transactionType, amount)
  {
    var portfolio := First(db.portfolios, PortfolioOfUser(userId));
    if portfolio.None? {
      return ServerError;
    }
    var portfolioId := portfolio.value.id;

    db.transactions := db.transactions + [Transaction(portfolioId, transactionType, amount, description, date)];

    if transactionType == "Contribution" {
      db.portfolios := UpdatePortfolios(db.portfolios, portfolioId, transactionType, amount);
    } else if transactionType == "Withdrawal" {
      db.portfolios := UpdatePortfolios(db.portfolios, portfolioId, transactionType, amount);
    } else {
      assert db.portfolios == UpdatePortfolios(db.portfolios, portfolioId, transactionType, amount);
    }

    outcome := Redirect("/portfolio");
  }

  /** A transaction lands in its own portfolio's history, and no other portfolio's history changes. */
  lemma TransactionJoinsItsPortfolio(transactions: seq<Transaction>, t: Transaction, portfolioId: Id)
    ensures Where(transactions + [t], TransactionOfPortfolio(portfolioId))
         == Where(transactions, TransactionOfPortfolio(portfolioId)) + (if t.portfolioId == portfolioId then [t] else [])
  {
    WhereConcat(transactions, [t], TransactionOfPortfolio(portfolioId));
  }

  /**
   * A portfolio row that equals its starting state followed by its own
   * transactions, in insertion order, still does after POST /transaction
   * appends a transaction and applies it to the row with its id.
   */
  lemma PortfolioFollowsItsLedger(rows: seq<Portfolio>, transactions: seq<Transaction>, i: int,
                                  start: Portfolio, t: Transaction)
    requires 0 <= i < |rows|
    requires rows[i] == ApplyAll(start, Where(transactions, TransactionOfPortfolio(rows[i].id)))
    ensures var updated := UpdatePortfolios(rows, t.portfolioId, t.transactionType, t.amount);
      updated[i] == ApplyAll(start, Where(transactions + [t], TransactionOfPortfolio(updated[i].id)))
  {
    var updated := UpdatePortfolios(rows, t.portfolioId, t.transactionType, t.amount);
    var history := Where(transactions, TransactionOfPortfolio(rows[i].id));
    TransactionJoinsItsPortfolio(transactions, t, rows[i].id);
    assert updated[i].id == rows[i].id;
    if t.portfolioId == rows[i].id {
      ApplyAllSnoc(start, history, t);
      assert Where(transactions + [t], TransactionOfPortfolio(rows[i].id)) == history + [t];
    } else {
      assert Where(transactions + [t], TransactionOfPortfolio(rows[i].id)) == history;
    }
  }
}
