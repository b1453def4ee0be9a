/** The goal details page: the asset cards and their price table, the
    savings already held in the selected asset, the real remaining amount,
    the suggested monthly saving, and the guards in front of a purchase. */
module GoalDetails {
  import opened Base
  import opened Calendar
  import opened InvestModel
  import Invest
  import opened GoalCard
  import TM = TransactionModel

  /** The asset cards the page offers, in display order, and their prices. */
  const OfferedAssets: seq<string> := ["Indian Stocks", "US Stocks", "Mutual Funds", "IPO", "Gold"]
  const OfferedPrices: seq<real> := [100.0, 830.0, 50.0, 15000.0, 6250.0]

  /** The card selected when the page opens. */
  const DefaultAsset: string := "Indian Stocks"

  /** The index of an offered asset name. */
  function OfferedIndex(name: string): (r: Option<nat>)
    ensures r.Some? <==> name in OfferedAssets
    ensures r.Some? ==> r.value < |OfferedAssets| && OfferedAssets[r.value] == name
  {
    if name == "Indian Stocks" then Some(0)
    else if name == "US Stocks" then Some(1)
    else if name == "Mutual Funds" then Some(2)
    else if name == "IPO" then Some(3)
    else if name == "Gold" then Some(4)
    else None
  }

  /** `assets[selectedAsset] || assets["Gold"]`: the selected card's price,
      with Gold's price for a name the table does not hold. */
  function AssetPrice(selected: string): (r: real)
    ensures r > 0.0
    ensures selected !in OfferedAssets ==> r == OfferedPrices[4]
    ensures forall i :: 0 <= i < |OfferedAssets| && OfferedAssets[i] == selected ==> r == OfferedPrices[i]
  {
    match OfferedIndex(selected)
    case Some(i) => OfferedPrices[i]
    case None => OfferedPrices[4]
  }

  /** Of the offered cards only "Mutual Funds" and "Gold" name an asset the
      investment-goal schema accepts; the default card is not one of them. */
  lemma OfferedOutsideSchema()
    ensures forall k :: k in OfferedAssets ==> (ParseAsset(k).Some? <==> k == "Mutual Funds" || k == "Gold")
    ensures ParseAsset(DefaultAsset).None?
  {
  }

  predicate HoldsAsset(selected: string, v: InvestmentGoal) {
    AssetName(v.assetType) == selected
  }

  function HoldsAssetFn(selected: string): InvestmentGoal -> bool {
    (v: InvestmentGoal) => HoldsAsset(selected, v)
  }

  /** `totalAssetSavings`: the amounts of the investment goals held in the
      selected asset. */
  function TotalAssetSavings(investments: seq<InvestmentGoal>, selected: string): real {
    Sum(Filter(investments, HoldsAssetFn(selected)), Invest.Invested)
  }

  /** A selected name outside the schema's enum, such as the default card,
      never finds any savings; otherwise the figure is a part of everything
      invested. */
  lemma TotalAssetSavingsSpec(investments: seq<InvestmentGoal>, selected: string)
    requires forall i :: 0 <= i < |investments| ==> investments[i].currentAmount >= 0.0
    ensures selected !in AssetNames ==> TotalAssetSavings(investments, selected) == 0.0
    ensures 0.0 <= TotalAssetSavings(investments, selected) <= Sum(investments, Invest.Invested)
  {
    if selected !in AssetNames {
      var f := Filter(investments, HoldsAssetFn(selected));
      assert |f| > 0 ==> HoldsAsset(selected, f[0]);
      assert |f| == 0;
    }
    SumFilterLe(investments, HoldsAssetFn(selected), Invest.Invested);
  }

  /** A successful transfer into an asset adds exactly its amount to the
      savings the page shows for that asset, and leaves every other asset's
      figure as it was. */
  lemma TransferRaisesAssetSavings(a: Invest.Accounts, b: InvestBody, now: Moment, other: string)
    requires ValidMoment(now) && b.assetType.Some? && other != b.assetType.value
    requires Invest.Transfer(a, b, now).reply.status == 200
    ensures var o := Invest.Transfer(a, b, now);
      TotalAssetSavings(o.accounts.investments, b.assetType.value) == TotalAssetSavings(a.investments, b.assetType.value) + b.amount
      && TotalAssetSavings(o.accounts.investments, other) == TotalAssetSavings(a.investments, other)
  {
    Invest.TransferSpec(a, b, now);
    var i := Invest.FindGoal(a.savings, b.goalId).value;
    Invest.TransferMoves(a, b, now, i);
    var inv := NewInvestment(b, a.savings[i], a.nextId, now).value;
    var s := a.investments + [inv];
    assert s[..|s| - 1] == a.investments;
    var mine := Filter(a.investments, HoldsAssetFn(b.assetType.value));
    assert Filter(s, HoldsAssetFn(b.assetType.value)) == mine + [inv];
    SumAppend(mine, [inv], Invest.Invested);
    assert [inv][..0] == [];
    assert Filter(s, HoldsAssetFn(other)) == Filter(a.investments, HoldsAssetFn(other));
  }

  /** `realRemaining`: what is still missing, never below zero, from the
      saved amount the card reads. */
  function RealRemaining(g: ClientGoal): (r: real)
    ensures r >= 0.0 && r >= g.targetAmount - CardSaved(g)
    ensures r == 0.0 <==> CardSaved(g) >= g.targetAmount
  {
    Max(0.0, g.targetAmount - CardSaved(g))
  }

  /** The page's days left: 0 without a deadline. */
  function DetailsDaysLeft(g: ClientGoal, parseDate: string -> Moment, now: Moment): (r: int)
    ensures DeadlineOf(g) == "" ==> r == 0
    ensures DeadlineOf(g) != "" ==> r == DaysBetween(now, parseDate(DeadlineOf(g)))
  {
    DaysLeft(g, parseDate, now).GetOr(0)
  }

  /** `suggestedMonthly`: 0 unless the deadline lies ahead, and then the
      least whole monthly amount that covers the real remainder. */
  function DetailsSuggested(g: ClientGoal, parseDate: string -> Moment, now: Moment): (r: int)
    ensures r >= 0
    ensures DetailsDaysLeft(g, parseDate, now) <= 0 ==> r == 0
    ensures var d := DetailsDaysLeft(g, parseDate, now);
      d > 0 ==> (r as real * (d as real / 30.0) >= RealRemaining(g)
                 && (r - 1) as real * (d as real / 30.0) < RealRemaining(g))
  {
    var d := DetailsDaysLeft(g, parseDate, now);
    if d > 0 then MonthlyFor(RealRemaining(g), d) else 0
  }

  /** For an open goal with a positive target the details page suggests the
      same monthly amount as the goal card, whenever the card shows one. */
  lemma SuggestionsAgree(g: ClientGoal, parseDate: string -> Moment, now: Moment)
    requires g.targetAmount > 0.0 && CardSaved(g) < g.targetAmount
    ensures var d := DaysLeft(g, parseDate, now);
      SuggestedMonthly(g, parseDate, now) == (if d.Some? && d.value > 0 then Some(DetailsSuggested(g, parseDate, now)) else None)
  {
    PercentageSpec(g);
  }

  /** The amount input: the page's number input holds either nothing or a
      number. */
  type AmountInput = Option<real>

  /** `handleInvest`'s first test: an empty or non-positive amount sends
      nothing. */
  predicate Proceeds(amount: AmountInput) {
    amount.Some? && amount.value > 0.0
  }

  /** The buy button: disabled while a purchase is under way, without an
      amount, or for more than the saved amount. */
  predicate Disabled(loading: bool, amount: AmountInput, saved: real) {
    loading || amount.None? || amount.value > saved
  }

  /** The request a purchase sends. */
  function InvestRequest(user: TM.Id, goalId: nat, amount: real, selected: string): InvestBody {
    InvestBody(user, goalId, amount, Some(selected))
  }

  /** A purchase the page lets through, for a goal whose stored balance is
      the one shown, succeeds under the corrected transfer exactly when the
      selected card names an asset of the schema; under the handler as
      written the default card answers 500 and the amount leaves the
      holdings. */
  lemma EnabledPurchase(a: Invest.Accounts, user: TM.Id, goalId: nat, amount: AmountInput, selected: string, now: Moment)
    requires ValidMoment(now) && Invest.FindGoal(a.savings, goalId).Some?
    requires !Disabled(false, amount, a.savings[Invest.FindGoal(a.savings, goalId).value].currentSaved) && Proceeds(amount)
    ensures var o := Invest.Transfer(a, InvestRequest(user, goalId, amount.value, selected), now);
      o.reply.status == 200 <==> selected in AssetNames
    ensures selected == DefaultAsset ==>
      var o := Invest.TransferAsWritten(a, InvestRequest(user, goalId, amount.value, selected), now);
      o.reply.status == 500 && Invest.Holdings(o.accounts) == Invest.Holdings(a) - amount.value
  {
    var b := InvestRequest(user, goalId, amount.value, selected);
    Invest.TransferSpec(a, b, now);
    if selected == DefaultAsset {
      Invest.AsWrittenUnlistedAsset(a, b, now);
    }
  }
}
