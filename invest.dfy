/** The savings-to-investment transfer: a guarded deduction from a savings
    goal, the creation of an investment goal holding the same amount, and an
    expense entry in the transaction ledger. The handler as written and a
    corrected, all-or-nothing transfer are both modelled. */
module Invest {
  import opened Base
  import opened Calendar
  import TM = TransactionModel
  import Agg = Aggregation
  import opened InvestModel

  /** The three collections the transfer writes, and the next fresh id. */
  datatype Accounts = Accounts(
    savings: seq<SavingsGoal>,
    investments: seq<InvestmentGoal>,
    ledger: seq<TM.Transaction>,
    nextId: nat)

  datatype Reply = Reply(status: int, goal: Option<SavingsGoal>, investment: Option<InvestmentGoal>)

  datatype Outcome = Outcome(reply: Reply, accounts: Accounts)

  function HasIdFn(id: nat): SavingsGoal -> bool {
    (g: SavingsGoal) => g.id == id
  }

  /** `findById(goalId)`: the first goal with that id, or none; the lookup
      does not check the owner. */
  function FindGoal(savings: seq<SavingsGoal>, id: nat): (r: Option<nat>)
    ensures r.Some? ==> r.value < |savings| && savings[r.value].id == id
    ensures r.Some? ==> forall j :: 0 <= j < r.value ==> savings[j].id != id
    ensures r.None? <==> forall i :: 0 <= i < |savings| ==> savings[i].id != id
  {
    FirstIndex(savings, HasIdFn(id))
  }

  /** POST /invest as written: the deduction is saved first, then the
      investment is created, then the ledger entry, whose document carries
      `userId` where the schema requires `user`; a later failure answers
      500 without undoing the earlier writes. */
  function TransferAsWritten(a: Accounts, b: InvestBody, now: Moment): Outcome
    requires ValidMoment(now)
  {
    match FindGoal(a.savings, b.goalId)
    case None => Outcome(Reply(404, None, None), a)
    case Some(i) =>
      var g := a.savings[i];
      if g.currentSaved < b.amount then Outcome(Reply(400, None, None), a)
      else
        var g' := g.(currentSaved := g.currentSaved - b.amount);
        var a1 := a.(savings := a.savings[i := g']);
        match NewInvestment(b, g, a.nextId, now)
        case None => Outcome(Reply(500, None, None), a1)
        case Some(inv) =>
          var a2 := a1.(investments := a1.investments + [inv], nextId := a1.nextId + 1);
          match TM.Validate(LedgerDraft(None, b, g, now), a2.nextId, now)
          case Err(_) => Outcome(Reply(500, None, None), a2)
          case Ok(t) => Outcome(Reply(200, Some(g'), Some(inv)), a2.(ledger := a2.ledger + [t], nextId := a2.nextId + 1))
  }

  /** As written, the ledger entry is never recorded and the route never
      succeeds; once past the funds guard the deduction persists anyway. */
  lemma AsWrittenNeverRecords(a: Accounts, b: InvestBody, now: Moment)
    requires ValidMoment(now)
    ensures var o := TransferAsWritten(a, b, now);
      o.reply.status != 200 && o.accounts.ledger == a.ledger
      && (o.reply.status == 404 <==> FindGoal(a.savings, b.goalId).None?)
      && (o.reply.status != 500 ==> o.accounts == a)
      && (o.reply.status == 500 ==>
            var i := FindGoal(a.savings, b.goalId).value;
            a.savings[i].currentSaved >= b.amount
            && o.accounts.savings == a.savings[i := a.savings[i].(currentSaved := a.savings[i].currentSaved - b.amount)])
  {
    match FindGoal(a.savings, b.goalId)
    case None =>
    case Some(i) =>
      var g := a.savings[i];
      assert TM.UserField in TM.Failures(LedgerDraft(None, b, g, now));
  }

  /** The funds guard does not check the sign: a negative amount passes it
      and raises the goal's balance. */
  lemma AsWrittenNegativeAmount(a: Accounts, b: InvestBody, now: Moment)
    requires ValidMoment(now) && b.amount < 0.0 && FindGoal(a.savings, b.goalId).Some?
    requires a.savings[FindGoal(a.savings, b.goalId).value].currentSaved >= 0.0
    ensures var i := FindGoal(a.savings, b.goalId).value;
      var o := TransferAsWritten(a, b, now);
      o.reply.status == 500 && o.accounts.savings[i].currentSaved > a.savings[i].currentSaved
  {
    AsWrittenNeverRecords(a, b, now);
  }

  /** The sum of the savings balances. */
  function Saved(g: SavingsGoal): real { g.currentSaved }

  /** The sum of the invested amounts. */
  function Invested(v: InvestmentGoal): real { v.currentAmount }

  /** The value held across both kinds of goal. */
  function Holdings(a: Accounts): real {
    Sum(a.savings, Saved) + Sum(a.investments, Invested)
  }

  /** An asset name outside the schema's enum (such as "Indian Stocks", the
      page's default) loses the deducted amount: the deduction is saved and
      no investment is created. */
  lemma AsWrittenUnlistedAsset(a: Accounts, b: InvestBody, now: Moment)
    requires ValidMoment(now) && b.assetType.Some? && b.assetType.value !in AssetNames
    requires FindGoal(a.savings, b.goalId).Some? && a.savings[FindGoal(a.savings, b.goalId).value].currentSaved >= b.amount
    ensures var o := TransferAsWritten(a, b, now);
      o.reply.status == 500 && o.accounts.investments == a.investments
      && Holdings(o.accounts) == Holdings(a) - b.amount
  {
    var i := FindGoal(a.savings, b.goalId).value;
    var g := a.savings[i];
    SumUpdate(a.savings, i, g.(currentSaved := g.currentSaved - b.amount), Saved);
  }

  /** The transfer as intended: every check (goal, funds, a positive
      amount as the page itself demands, an asset the schema accepts) is made before
      any write, and then the deduction, the investment and the ledger entry
      under the user's id are all recorded. */
  function Transfer(a: Accounts, b: InvestBody, now: Moment): Outcome
    requires ValidMoment(now)
  {
    match FindGoal(a.savings, b.goalId)
    case None => Outcome(Reply(404, None, None), a)
    case Some(i) =>
      var g := a.savings[i];
      if g.currentSaved < b.amount || b.amount <= 0.0 || AssetOf(b).None? then Outcome(Reply(400, None, None), a)
      else
        var g' := g.(currentSaved := g.currentSaved - b.amount);
        var inv := NewInvestment(b, g, a.nextId, now).value;
        var t := LedgerEntry(b, g, a.nextId + 1, now);
        Outcome(Reply(200, Some(g'), Some(inv)),
          Accounts(a.savings[i := g'], a.investments + [inv], a.ledger + [t], a.nextId + 2))
  }

  /** Past every check, the transfer's new state, piece by piece. */
  lemma TransferMoves(a: Accounts, b: InvestBody, now: Moment, i: nat)
    requires ValidMoment(now) && FindGoal(a.savings, b.goalId) == Some(i)
    requires !(a.savings[i].currentSaved < b.amount || b.amount <= 0.0 || AssetOf(b).None?)
    ensures Transfer(a, b, now).reply == Reply(200, Some(a.savings[i].(currentSaved := a.savings[i].currentSaved - b.amount)),
      Some(NewInvestment(b, a.savings[i], a.nextId, now).value))
    ensures Transfer(a, b, now).accounts.savings == a.savings[i := a.savings[i].(currentSaved := a.savings[i].currentSaved - b.amount)]
    ensures Transfer(a, b, now).accounts.investments == a.investments + [NewInvestment(b, a.savings[i], a.nextId, now).value]
    ensures Transfer(a, b, now).accounts.ledger == a.ledger + [LedgerEntry(b, a.savings[i], a.nextId + 1, now)]
    ensures Transfer(a, b, now).accounts.nextId == a.nextId + 2
  {
  }

  /** A refused transfer leaves the accounts as they were. */
  lemma TransferRefused(a: Accounts, b: InvestBody, now: Moment)
    requires ValidMoment(now)
    ensures FindGoal(a.savings, b.goalId).None? ==> Transfer(a, b, now) == Outcome(Reply(404, None, None), a)
    ensures var f := FindGoal(a.savings, b.goalId);
      f.Some? && (a.savings[f.value].currentSaved < b.amount || b.amount <= 0.0 || AssetOf(b).None?)
      ==> Transfer(a, b, now) == Outcome(Reply(400, None, None), a)
  {
  }

  /** The corrected transfer answers 404 for an unknown goal, 400 when a
      check fails, and otherwise 200; it never answers 500, and when it does
      not succeed it changes nothing. */
  lemma TransferSpec(a: Accounts, b: InvestBody, now: Moment)
    requires ValidMoment(now)
    ensures var o := Transfer(a, b, now);
      (o.reply.status == 404 <==> FindGoal(a.savings, b.goalId).None?)
      && (o.reply.status == 200 <==>
            FindGoal(a.savings, b.goalId).Some?
            && 0.0 < b.amount <= a.savings[FindGoal(a.savings, b.goalId).value].currentSaved
            && AssetOf(b).Some?)
      && (o.reply.status == 200 || o.reply.status == 400 || o.reply.status == 404)
      && (o.reply.status != 200 ==> o.accounts == a)
  {
    var f := FindGoal(a.savings, b.goalId);
    if f.Some? {
      var i := f.value;
      var g := a.savings[i];
      if !(g.currentSaved < b.amount || b.amount <= 0.0 || AssetOf(b).None?) {
        TransferMoves(a, b, now, i);
      }
    }
  }

  /** The corrected transfer conserves value: what leaves the savings goal
      arrives in the investments and is recorded once in the ledger. */
  lemma TransferConserves(a: Accounts, b: InvestBody, now: Moment)
    requires ValidMoment(now)
    ensures var o := Transfer(a, b, now);
      Holdings(o.accounts) == Holdings(a)
      && Sum(o.accounts.ledger, Agg.Amount) == Sum(a.ledger, Agg.Amount) + (if o.reply.status == 200 then b.amount else 0.0)
  {
    var f := FindGoal(a.savings, b.goalId);
    if f.Some? {
      var i := f.value;
      var g := a.savings[i];
      if !(g.currentSaved < b.amount || b.amount <= 0.0 || AssetOf(b).None?) {
        TransferMoves(a, b, now, i);
        MoveSums(a, Transfer(a, b, now).accounts, i, b.amount, NewInvestment(b, g, a.nextId, now).value, LedgerEntry(b, g, a.nextId + 1, now));
      }
    }
  }

  /** Moving x out of savings goal i into a new investment of x keeps the
      holdings, and a ledger entry of x adds x to the ledger's total. */
  lemma MoveSums(a: Accounts, o: Accounts, i: nat, x: real, inv: InvestmentGoal, t: TM.Transaction)
    requires i < |a.savings| && o.savings == a.savings[i := a.savings[i].(currentSaved := a.savings[i].currentSaved - x)]
    requires o.investments == a.investments + [inv] && inv.currentAmount == x
    requires o.ledger == a.ledger + [t] && t.amount == x
    ensures Holdings(o) == Holdings(a)
    ensures Sum(o.ledger, Agg.Amount) == Sum(a.ledger, Agg.Amount) + x
  {
    SumUpdate(a.savings, i, a.savings[i].(currentSaved := a.savings[i].currentSaved - x), Saved);
    SumAppend(a.investments, [inv], Invested);
    SumAppend(a.ledger, [t], Agg.Amount);
    assert [inv][..0] == [] && [t][..0] == [];
  }

  /** Spending the whole balance is allowed and leaves the goal at zero. */
  lemma TransferWholeBalance(a: Accounts, b: InvestBody, now: Moment)
    requires ValidMoment(now) && FindGoal(a.savings, b.goalId).Some?
    requires b.amount == a.savings[FindGoal(a.savings, b.goalId).value].currentSaved > 0.0 && AssetOf(b).Some?
    ensures var o := Transfer(a, b, now);
      o.reply.status == 200 && o.accounts.savings[FindGoal(a.savings, b.goalId).value].currentSaved == 0.0
  {
    TransferSpec(a, b, now);
  }

  /** The collections, updated in place by the transfer. */
  class Ledger {
    var savings: seq<SavingsGoal>
    var investments: seq<InvestmentGoal>
    var ledger: seq<TM.Transaction>
    var nextId: nat

    function State(): Accounts
      reads this
    {
      Accounts(savings, investments, ledger, nextId)
    }

    constructor (goals: seq<SavingsGoal>, firstId: nat)
      ensures State() == Accounts(goals, [], [], firstId)
    {
      savings := goals;
      investments := [];
      ledger := [];
      nextId := firstId;
    }

    /** POST /invest, with every check made before the first write. */
    method Invest(b: InvestBody, now: Moment) returns (r: Reply)
      requires ValidMoment(now)
      modifies this
      ensures r == Transfer(old(State()), b, now).reply
      ensures State() == Transfer(old(State()), b, now).accounts
    {
      ghost var a := State();
      TransferRefused(a, b, now);
      var found := FindGoal(savings, b.goalId);
      if found.None? {
        return Reply(404, None, None);
      }
      var i := found.value;
      var g := savings[i];
      if g.currentSaved < b.amount || b.amount <= 0.0 || AssetOf(b).None? {
        return Reply(400, None, None);
      }
      TransferMoves(a, b, now, i);
      ghost var o := Transfer(a, b, now).accounts;
      assert o == Accounts(o.savings, o.investments, o.ledger, o.nextId);
      var entry := LedgerEntry(b, g, nextId + 1, now);
      var inv := NewInvestment(b, g, nextId, now).value;
      var g' := g.(currentSaved := g.currentSaved - b.amount);
      savings := savings[i := g'];
      investments := investments + [inv];
      ledger := ledger + [entry];
      nextId := nextId + 2;
      r := Reply(200, Some(g'), Some(inv));
    }
  }
}
