/** The investment page: a calculator that splits an amount over fixed
    percentages, and a wallet holding, per category, the amount put in
    (`initial`) and the value the user reports now (`current`), from which the
    page derives profit and loss. */
module Wallet {
  import opened Wrappers

  datatype Category = Crypto | FixedIncome | BrStocks | UsStocks | UsEtf

  /** The categories in the order of the stored objects' keys. */
  const Categories: seq<Category> := [Crypto, FixedIncome, BrStocks, UsStocks, UsEtf]

  /** Every category is one of the five listed. */
  lemma Listed(c: Category)
    ensures c in Categories
  {
    match c
    case Crypto => assert Categories[0] == c;
    case FixedIncome => assert Categories[1] == c;
    case BrStocks => assert Categories[2] == c;
    case UsStocks => assert Categories[3] == c;
    case UsEtf => assert Categories[4] == c;
  }

  lemma AllListed()
    ensures forall c: Category :: c in Categories
  {
    forall c: Category ensures c in Categories { Listed(c); }
  }

  /** One wallet map (`initial` or `current`). */
  type Amounts = map<Category, real>

  predicate Complete(m: Amounts)
  {
    forall c: Category :: c in m
  }

  /** `parseFloat(text) || 0`: no number, or zero, gives zero; any other
      number is kept. */
  function OrZero(v: Option<real>): (r: real)
    ensures r == 0.0 <==> v.None? || v.value == 0.0
    ensures v.Some? ==> r == v.value
  {
    v.GetOr(0.0)
  }

  /** The map of a wallet that was never stored, or was reset. */
  function Zeros(): (m: Amounts)
    ensures Complete(m)
    ensures forall c: Category :: m[c] == 0.0
  {
    AllListed();
    map c: Category | c in Categories :: 0.0
  }

  /** Five zero entries make every entry zero. */
  lemma ZeroEntries(m: Amounts)
    requires Complete(m)
    ensures (m[Crypto] == 0.0 && m[FixedIncome] == 0.0 && m[BrStocks] == 0.0
      && m[UsStocks] == 0.0 && m[UsEtf] == 0.0) ==> forall c: Category :: m[c] == 0.0
  {
    if m[Crypto] == 0.0 && m[FixedIncome] == 0.0 && m[BrStocks] == 0.0 && m[UsStocks] == 0.0 && m[UsEtf] == 0.0 {
      forall c: Category ensures m[c] == 0.0 {
        match c {
          case Crypto =>
          case FixedIncome =>
          case BrStocks =>
          case UsStocks =>
          case UsEtf =>
        }
      }
    }
  }

  /** The values summed (`Object.values(m).reduce((sum, v) => sum + v, 0)`).
      With no negative entry, the total is not negative, and it is zero
      exactly when every entry is. */
  function Total(m: Amounts): (r: real)
    requires Complete(m)
    ensures (forall c: Category :: m[c] >= 0.0) ==>
      r >= 0.0 && (r == 0.0 <==> forall c: Category :: m[c] == 0.0)
  {
    ZeroEntries(m);
    m[Crypto] + m[FixedIncome] + m[BrStocks] + m[UsStocks] + m[UsEtf]
  }

  // ---------------------------------------------------------------------
  // The allocation

  const CryptoShare: real := 0.10
  const DollarShare: real := 0.45
  const FixedIncomeShare: real := 0.18
  const BrStocksShare: real := 0.27
  /** The dollar part is split again between US stocks and US ETFs. */
  const UsStocksShare: real := 0.60
  const UsEtfShare: real := 0.40

  /** `calculatedValues`: the four buckets and the split of the dollar bucket. */
  datatype Allocation = Allocation(
    crypto: real, dollar: real, fixedIncome: real, brStocks: real, usStocks: real, usEtf: real)

  function Allocate(total: real): (a: Allocation)
    ensures a.crypto + a.dollar + a.fixedIncome + a.brStocks == total
    ensures a.usStocks + a.usEtf == a.dollar
    ensures total > 0.0 ==>
      a.crypto > 0.0 && a.dollar > 0.0 && a.fixedIncome > 0.0 && a.brStocks > 0.0
      && a.usStocks > 0.0 && a.usEtf > 0.0
  {
    var dollar := total * DollarShare;
    Allocation(total * CryptoShare, dollar, total * FixedIncomeShare, total * BrStocksShare,
               dollar * UsStocksShare, dollar * UsEtfShare)
  }

  /** 1000 splits as 100 / 450 / 180 / 270, and the 450 as 270 / 180. */
  lemma AllocateThousand()
    ensures Allocate(1000.0) == Allocation(100.0, 450.0, 180.0, 270.0, 270.0, 180.0)
  {
  }

  /** The dollar figures shown beside the buckets when a BRL price of one
      dollar is known (a missing or zero price shows none). */
  datatype UsdFigures = UsdFigures(dollar: real, usStocks: real, usEtf: real)

  function InDollars(a: Allocation, usdToBrl: Option<real>): (r: Option<UsdFigures>)
    ensures r.Some? <==> usdToBrl.Some? && usdToBrl.value != 0.0
    ensures r.Some? ==>
      && r.value.dollar * usdToBrl.value == a.dollar
      && r.value.usStocks * usdToBrl.value == a.usStocks
      && r.value.usEtf * usdToBrl.value == a.usEtf
  {
    match usdToBrl
    case Some(rate) =>
      if rate == 0.0 then None
      else Some(UsdFigures(a.dollar / rate, a.usStocks / rate, a.usEtf / rate))
    case None => None
  }

  /** For an allocation, the two dollar parts add up to the dollar bucket in dollars too. */
  lemma InDollarsAddsUp(total: real, usdToBrl: Option<real>)
    requires InDollars(Allocate(total), usdToBrl).Some?
    ensures var u := InDollars(Allocate(total), usdToBrl).value; u.usStocks + u.usEtf == u.dollar
  {
    var a, rate := Allocate(total), usdToBrl.value;
    var u := InDollars(a, usdToBrl).value;
    assert (u.usStocks + u.usEtf) * rate == u.dollar * rate;
  }

  // ---------------------------------------------------------------------
  // Saving, editing and the current values

  /** The save handler's `+=` of the computed amounts into `initial`. */
  function Added(m: Amounts, a: Allocation): (r: Amounts)
    requires Complete(m)
    ensures Complete(r)
    ensures r[Crypto] == m[Crypto] + a.crypto && r[FixedIncome] == m[FixedIncome] + a.fixedIncome
    ensures r[BrStocks] == m[BrStocks] + a.brStocks
    ensures r[UsStocks] == m[UsStocks] + a.usStocks && r[UsEtf] == m[UsEtf] + a.usEtf
  {
    m[Crypto := m[Crypto] + a.crypto][FixedIncome := m[FixedIncome] + a.fixedIncome]
     [BrStocks := m[BrStocks] + a.brStocks][UsStocks := m[UsStocks] + a.usStocks]
     [UsEtf := m[UsEtf] + a.usEtf]
  }

  /** Saving the allocation of `total` adds exactly `total` to the amount put in. */
  lemma SaveAddsTheTotal(m: Amounts, total: real)
    requires Complete(m)
    ensures Total(Added(m, Allocate(total))) == Total(m) + total
  {
  }

  /** The share of US stocks in what was put into dollars, or 60% when nothing was. */
  function UsStocksRatio(initial: Amounts): (ratio: real)
    requires Complete(initial)
    ensures initial[UsStocks] + initial[UsEtf] > 0.0 ==>
      ratio * (initial[UsStocks] + initial[UsEtf]) == initial[UsStocks]
    ensures initial[UsStocks] + initial[UsEtf] <= 0.0 ==> ratio == UsStocksShare
  {
    var usTotal := initial[UsStocks] + initial[UsEtf];
    if usTotal > 0.0 then initial[UsStocks] / usTotal else UsStocksShare
  }

  /** The input fields of the current values; the dollar one covers both US categories. */
  datatype CurrentField = Single(category: Category) | DollarCombined

  /** A current value entered by the user. */
  function WithCurrent(current: Amounts, initial: Amounts, field: CurrentField, value: real): (r: Amounts)
    requires Complete(current) && Complete(initial)
    ensures Complete(r)
    ensures field.Single? ==>
      r[field.category] == value && forall c: Category :: c != field.category ==> r[c] == current[c]
    ensures field.DollarCombined? ==>
      && r[UsStocks] + r[UsEtf] == value
      && r[UsStocks] == value * UsStocksRatio(initial)
      && forall c: Category :: c != UsStocks && c != UsEtf ==> r[c] == current[c]
  {
    match field
    case Single(c) => current[c := value]
    case DollarCombined =>
      var ratio := UsStocksRatio(initial);
      current[UsStocks := value * ratio][UsEtf := value * (1.0 - ratio)]
  }

  /** A combined dollar value is split in the proportion of what was put in. */
  lemma DollarSplitFollowsInitial(current: Amounts, initial: Amounts, value: real)
    requires Complete(current) && Complete(initial)
    requires initial[UsStocks] + initial[UsEtf] > 0.0
    ensures var r := WithCurrent(current, initial, DollarCombined, value);
      r[UsStocks] * (initial[UsStocks] + initial[UsEtf]) == value * initial[UsStocks]
      && r[UsEtf] * (initial[UsStocks] + initial[UsEtf]) == value * initial[UsEtf]
  {
    var ratio, usTotal := UsStocksRatio(initial), initial[UsStocks] + initial[UsEtf];
    assert value * ratio * usTotal == value * (ratio * usTotal);
    assert value * (1.0 - ratio) * usTotal == value * usTotal - value * (ratio * usTotal);
  }

  // ---------------------------------------------------------------------
  // Profit and loss

  datatype PlClass = Profit | Loss | Neutral

  /** One profit/loss figure: the amount, a percentage of the amount put in
      (only when that is positive), and the colour class. */
  datatype PlCell = PlCell(value: real, percent: Option<real>, cls: PlClass)

  function FormatPl(value: real, initialValue: real): (c: PlCell)
    ensures c.value == value
    ensures c.percent.Some? <==> initialValue > 0.0
    ensures c.percent.Some? ==> c.percent.value * initialValue == value * 100.0
    ensures c.cls == Profit <==> value > 0.0
    ensures c.cls == Loss <==> value < 0.0
  {
    var percent := if initialValue > 0.0 then Some(value / initialValue * 100.0) else None;
    var cls := if value > 0.0 then Profit else if value < 0.0 then Loss else Neutral;
    PlCell(value, percent, cls)
  }

  /** The `pl` object: current minus initial, per category. */
  function CategoryPl(initial: Amounts, current: Amounts): (pl: Amounts)
    requires Complete(initial) && Complete(current)
    ensures Complete(pl)
    ensures forall c: Category :: pl[c] == current[c] - initial[c]
  {
    AllListed();
    map c: Category | c in Categories :: current[c] - initial[c]
  }

  datatype PlReport = PlReport(total: PlCell, crypto: PlCell, fixedIncome: PlCell, brStocks: PlCell, dollarCombined: PlCell)

  /** `updatePL`: each row is current minus initial for its categories, the
      four rows add up to the total row, and a row shows a percentage exactly
      when what was put into it is positive. */
  function ProfitLoss(initial: Amounts, current: Amounts): (r: PlReport)
    requires Complete(initial) && Complete(current)
    ensures r.crypto.value == current[Crypto] - initial[Crypto]
    ensures r.fixedIncome.value == current[FixedIncome] - initial[FixedIncome]
    ensures r.brStocks.value == current[BrStocks] - initial[BrStocks]
    ensures r.dollarCombined.value == (current[UsStocks] + current[UsEtf]) - (initial[UsStocks] + initial[UsEtf])
    ensures r.total.value == r.crypto.value + r.fixedIncome.value + r.brStocks.value + r.dollarCombined.value
    ensures r.total.percent.Some? <==> Total(initial) > 0.0
    ensures r.dollarCombined.percent.Some? <==> initial[UsStocks] + initial[UsEtf] > 0.0
  {
    var pl := CategoryPl(initial, current);
    PlReport(
      FormatPl(Total(current) - Total(initial), Total(initial)),
      FormatPl(pl[Crypto], initial[Crypto]),
      FormatPl(pl[FixedIncome], initial[FixedIncome]),
      FormatPl(pl[BrStocks], initial[BrStocks]),
      FormatPl(pl[UsStocks] + pl[UsEtf], initial[UsStocks] + initial[UsEtf]))
  }

  /** The total profit or loss is the sum of the per-category ones. */
  lemma TotalPlIsSumOfCategories(initial: Amounts, current: Amounts)
    requires Complete(initial) && Complete(current)
    ensures Total(current) - Total(initial) == Total(CategoryPl(initial, current))
  {
  }

  /** A wallet that was never stored, or was reset, shows no profit, no loss and no percentages. */
  lemma EmptyWalletShowsNothing()
    ensures var r := ProfitLoss(Zeros(), Zeros());
      && r.total == PlCell(0.0, None, Neutral)
      && r.crypto == r.total && r.fixedIncome == r.total && r.brStocks == r.total
      && r.dollarCombined == r.total
  {
  }

  // ---------------------------------------------------------------------
  // The page's state

  /** A wallet read back from storage. */
  datatype Stored = Stored(initial: Amounts, current: Amounts)

  /** The stored wallet and the calculator's last computed allocation
      (`calculatedValues`, empty until the first computation). */
  class Page {
    var initial: Amounts
    var current: Amounts
    var calculated: Option<Allocation>

    ghost predicate Valid()
      reads this
    {
      Complete(initial) && Complete(current)
    }

    /** `getWalletData`: the stored wallet, or both maps all zeros when
        nothing is stored; nothing is calculated yet. */
    constructor (stored: Option<Stored>)
      requires stored.Some? ==> Complete(stored.value.initial) && Complete(stored.value.current)
      ensures Valid()
      ensures stored.Some? ==> initial == stored.value.initial && current == stored.value.current
      ensures stored.None? ==> initial == Zeros() && current == Zeros()
      ensures calculated == None
    {
      match stored {
        case Some(w) => initial, current := w.initial, w.current;
        case None => initial, current := Zeros(), Zeros();
      }
      calculated := None;
    }

    /** `updateCalculatorUI` on the amount typed; returns whether the results are shown.
        A non-positive amount hides them and leaves the last allocation in place. */
    method UpdateCalculator(amount: Option<real>) returns (shown: bool)
      modifies this`calculated
      ensures shown <==> OrZero(amount) > 0.0
      ensures calculated == if shown then Some(Allocate(OrZero(amount))) else old(calculated)
    {
      var total := OrZero(amount);
      if total <= 0.0 {
        return false;
      }
      shown := true;
      calculated := Some(Allocate(total));
    }

    /** The save button. A non-positive amount is refused and the wallet is
        untouched; otherwise the last allocation is added into `initial`. */
    method Save(amount: Option<real>) returns (saved: bool)
      requires Valid()
      requires OrZero(amount) > 0.0 ==> calculated.Some?
      modifies this`initial
      ensures Valid()
      ensures saved <==> OrZero(amount) > 0.0
      ensures initial == if saved then Added(old(initial), calculated.value) else old(initial)
    {
      var total := OrZero(amount);
      if total <= 0.0 {
        return false;
      }
      var a := calculated.value;
      initial := initial[Crypto := initial[Crypto] + a.crypto];
      initial := initial[FixedIncome := initial[FixedIncome] + a.fixedIncome];
      initial := initial[BrStocks := initial[BrStocks] + a.brStocks];
      initial := initial[UsStocks := initial[UsStocks] + a.usStocks];
      initial := initial[UsEtf := initial[UsEtf] + a.usEtf];
      saved := true;
    }

    /** The change handler of a current-value field. */
    method SetCurrent(field: CurrentField, entered: Option<real>)
      requires Valid()
      modifies this`current
      ensures Valid()
      ensures current == WithCurrent(old(current), initial, field, OrZero(entered))
    {
      var value := OrZero(entered);
      match field {
        case DollarCombined =>
          var usTotal := initial[UsStocks] + initial[UsEtf];
          var ratio := UsStocksShare;
          if usTotal > 0.0 {
            ratio := initial[UsStocks] / usTotal;
          }
          assert ratio == UsStocksRatio(initial);
          current := current[UsStocks := value * ratio][UsEtf := value * (1.0 - ratio)];
          ghost var w := WithCurrent(old(current), initial, DollarCombined, value);
          assert w[UsStocks] == value * ratio;
          assert w[UsEtf] == value * (1.0 - ratio);
          assert w.Keys == current.Keys;
        case Single(c) =>
          current := current[c := value];
      }
    }

    /** The confirmed reset button: the stored wallet is removed. */
    method Reset()
      modifies this`initial, this`current
      ensures Valid()
      ensures initial == Zeros() && current == Zeros()
    {
      initial, current := Zeros(), Zeros();
    }

    /** The edit form's save button: every `initial` entry takes the value
        typed for it (zero when none); `current` is untouched. */
    method SaveEdit(edits: map<Category, Option<real>>)
      requires Valid()
      requires forall c: Category :: c in edits
      modifies this`initial
      ensures Valid()
      ensures forall c: Category :: initial[c] == OrZero(edits[c])
    {
      for i := 0 to |Categories|
        invariant Complete(initial)
        invariant forall j :: 0 <= j < i ==> initial[Categories[j]] == OrZero(edits[Categories[j]])
      {
        var key := Categories[i];
        initial := initial[key := OrZero(edits[key])];
      }
      forall c: Category ensures initial[c] == OrZero(edits[c]) {
        Listed(c);
        var j :| 0 <= j < |Categories| && Categories[j] == c;
      }
    }
  }
}
