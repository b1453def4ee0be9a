/** The two goal schemas the transfer writes (savings and investment
    goals), the asset enum, and the documents the transfer hands to the
    investment-goal and transaction schemas. */
module InvestModel {
  import opened Base
  import opened Calendar
  import TM = TransactionModel
  import Text

  /** A savings goal (only the fields the transfer touches). */
  datatype SavingsGoal = SavingsGoal(id: nat, user: TM.Id, goalName: string, targetAmount: real, currentSaved: real)

  /** The asset types the investment-goal schema accepts. */
  datatype AssetType = Stocks | Crypto | MutualFunds | RealEstate | Gold | Silver | Others

  const AssetNames: seq<string> := ["Stocks", "Crypto", "Mutual Funds", "Real Estate", "Gold", "Silver", "Others"]

  function AssetName(a: AssetType): (r: string)
    ensures r in AssetNames
  {
    match a
    case Stocks => "Stocks"
    case Crypto => "Crypto"
    case MutualFunds => "Mutual Funds"
    case RealEstate => "Real Estate"
    case Gold => "Gold"
    case Silver => "Silver"
    case Others => "Others"
  }

  /** The schema's enum check on assetType. */
  function ParseAsset(s: string): (r: Option<AssetType>)
    ensures r.Some? <==> s in AssetNames
    ensures r.Some? ==> AssetName(r.value) == s
  {
    if s == "Stocks" then Some(Stocks)
    else if s == "Crypto" then Some(Crypto)
    else if s == "Mutual Funds" then Some(MutualFunds)
    else if s == "Real Estate" then Some(RealEstate)
    else if s == "Gold" then Some(Gold)
    else if s == "Silver" then Some(Silver)
    else if s == "Others" then Some(Others)
    else None
  }

  lemma AssetNameRoundTrip(a: AssetType)
    ensures ParseAsset(AssetName(a)) == Some(a)
  {
  }

  /** An investment goal. */
  datatype InvestmentGoal = InvestmentGoal(
    id: nat,
    user: TM.Id,
    goalName: string,
    targetAmount: real,
    currentAmount: real,
    assetType: AssetType,
    deadline: Moment)

  /** The request body `{ userId, goalId, amount, assetType }`. */
  datatype InvestBody = InvestBody(userId: TM.Id, goalId: nat, amount: real, assetType: Option<string>)

  /** The asset as interpolated into text: an absent value prints "undefined". */
  function AssetText(b: InvestBody): string {
    b.assetType.GetOr("undefined")
  }

  /** The schema's reading of assetType: absent means the default Stocks. */
  function AssetOf(b: InvestBody): Option<AssetType> {
    if b.assetType.None? then Some(Stocks) else ParseAsset(b.assetType.value)
  }

  /** `InvestmentGoal.create({...})`: fails when the asset is outside the enum;
      the deadline is the same instant one year later. */
  function NewInvestment(b: InvestBody, g: SavingsGoal, id: nat, now: Moment): (r: Option<InvestmentGoal>)
    requires ValidMoment(now)
    ensures r.None? <==> AssetOf(b).None?
    ensures r.Some? ==> r.value.targetAmount == b.amount && r.value.currentAmount == b.amount
    ensures r.Some? ==> r.value.goalName == AssetText(b) + " Investment from " + g.goalName
    ensures r.Some? ==> r.value.deadline == Moment(AddOneYear(now.date), now.ms) && ValidMoment(r.value.deadline)
    ensures r.Some? ==> r.value.id == id && r.value.user == b.userId && Some(r.value.assetType) == AssetOf(b)
  {
    match AssetOf(b)
    case None => None
    case Some(a) =>
      Some(InvestmentGoal(id, b.userId, AssetText(b) + " Investment from " + g.goalName, b.amount, b.amount, a,
        Moment(AddOneYear(now.date), now.ms)))
  }

  /** The expense entry handed to `Transaction.create`, with the owner field
      given. */
  function LedgerDraft(owner: Option<TM.Id>, b: InvestBody, g: SavingsGoal, now: Moment): TM.Draft {
    TM.Draft(owner, Some("expense"), Some(b.amount), Some("Investment"),
      Some("Invested in " + AssetText(b) + " via " + g.goalName), Some(now))
  }

  /** The expense entry recorded under the user's id. */
  function LedgerEntry(b: InvestBody, g: SavingsGoal, id: nat, now: Moment): (t: TM.Transaction)
    ensures t.id == id && t.user == b.userId && t.kind == TM.Expense && t.category == TM.Investment
    ensures t.amount == b.amount && t.date == now
  {
    TM.Transaction(id, b.userId, TM.Expense, b.amount, TM.Investment,
      Text.Trim(LedgerDraft(Some(b.userId), b, g, now).description.value), now)
  }

  /** The schema accepts the entry exactly when the amount is not negative,
      and then stores LedgerEntry. */
  lemma LedgerEntryValidates(b: InvestBody, g: SavingsGoal, id: nat, now: Moment)
    requires ValidMoment(now)
    ensures var r := TM.Validate(LedgerDraft(Some(b.userId), b, g, now), id, now);
      (r.Ok? <==> b.amount >= 0.0) && (r.Ok? ==> r.value == LedgerEntry(b, g, id, now))
  {
    var d := LedgerDraft(Some(b.userId), b, g, now);
    assert TM.ParseKind("expense") == Some(TM.Expense);
    assert TM.ParseCategory("Investment") == Some(TM.Investment);
    if b.amount >= 0.0 {
      assert TM.Failures(d) == {};
      var t := TM.Validate(d, id, now).value;
      assert TM.KindName(t.kind) == "expense";
      assert TM.CategoryName(t.category) == "Investment";
      TM.CategoryNameInjective(t.category, TM.Investment);
    } else {
      assert TM.AmountField in TM.Failures(d);
    }
  }
}
