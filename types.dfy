/** The domain model of the bookkeeping application: the records the store
    keeps, the values the financial engine derives from them, and the data
    the entry forms hold while a user types.

    Amounts are exact reals (the application's JavaScript numbers without
    rounding).  Every date is a timestamp in milliseconds; the calendar day
    of a timestamp is its floor division by the length of a day. */
module Types {

  datatype Option<+T> = None | Some(value: T)

  /** Milliseconds in one calendar day. */
  const MsPerDay: int := 86400000

  /** The calendar day (counted from the epoch) that a timestamp falls in. */
  function DayOf(t: int): int
  {
    t / MsPerDay
  }

  // ------------------------------------------------------------------
  // Enumerations
  // ------------------------------------------------------------------

  datatype PaymentMethod = Wave | OrangeMoney | Cash

  /** The three payment methods in the order every report lists them. */
  const MethodOrder: seq<PaymentMethod> := [Wave, OrangeMoney, Cash]

  datatype RestaurantType = RestaurantVenue | FastFood | Cafe | Bar | OtherVenue

  datatype ExpenseCategory =
    Rent | Salaries | Ingredients | Utilities | Transport | Marketing | Others

  // ------------------------------------------------------------------
  // Stored records
  // ------------------------------------------------------------------

  datatype Restaurant = Restaurant(
    id: string,
    name: string,
    location: string,
    kind: RestaurantType,
    currency: string,
    createdAt: int,
    updatedAt: int)

  /** One payment-method line of a revenue record. */
  datatype PaymentLine = PaymentLine(id: string, paymentMethod: PaymentMethod, amount: real)

  datatype DailyRevenue = DailyRevenue(
    id: string,
    restaurantId: string,
    date: int,
    totalAmount: real,
    paymentMethods: seq<PaymentLine>,
    notes: Option<string>,
    createdAt: int,
    updatedAt: int)

  datatype ExpenseLine = ExpenseLine(id: string, category: ExpenseCategory, amount: real)

  datatype DailyExpense = DailyExpense(
    id: string,
    restaurantId: string,
    date: int,
    totalAmount: real,
    isDetailed: bool,
    expenseLines: Option<seq<ExpenseLine>>,
    notes: Option<string>,
    createdAt: int,
    updatedAt: int)

  /** Accessors, passed as function values to the generic sequence helpers. */
  function RevenueId(r: DailyRevenue): string { r.id }
  function RevenueDate(r: DailyRevenue): int { r.date }
  function RevenueAmount(r: DailyRevenue): real { r.totalAmount }
  function ExpenseId(e: DailyExpense): string { e.id }
  function ExpenseDate(e: DailyExpense): int { e.date }
  function ExpenseAmount(e: DailyExpense): real { e.totalAmount }
  function PaymentLineAmount(l: PaymentLine): real { l.amount }
  function ExpenseLineAmount(l: ExpenseLine): real { l.amount }

  // ------------------------------------------------------------------
  // Derived values
  // ------------------------------------------------------------------

  datatype FinancialKPIs = FinancialKPIs(
    totalRevenue: real,
    totalExpenses: real,
    netMargin: real,
    netMarginPercentage: real)

  datatype BreakdownRow = BreakdownRow(paymentMethod: PaymentMethod, amount: real, percentage: real)

  /** One day of the time series; `day` is a calendar day as given by DayOf. */
  datatype TimeSeriesPoint = TimeSeriesPoint(day: int, revenue: real, expenses: real, netMargin: real)

  function PointRevenue(p: TimeSeriesPoint): real { p.revenue }
  function PointExpenses(p: TimeSeriesPoint): real { p.expenses }

  datatype PredictionKind = Week | Month

  datatype MethodPrediction = MethodPrediction(paymentMethod: PaymentMethod, predictedAmount: real)

  function PredictedAmount(m: MethodPrediction): real { m.predictedAmount }

  datatype Prediction = Prediction(
    kind: PredictionKind,
    predictedRevenue: real,
    predictedExpenses: real,
    predictedNetMargin: real,
    predictedNetMarginPercentage: real,
    paymentMethodPredictions: seq<MethodPrediction>)

  // ------------------------------------------------------------------
  // Form data
  // ------------------------------------------------------------------

  datatype RestaurantFormData = RestaurantFormData(
    name: string,
    location: string,
    kind: RestaurantType,
    currency: string)

  /** A payment-method line as the revenue form holds it, before it gets an id. */
  datatype PaymentLineInput = PaymentLineInput(paymentMethod: PaymentMethod, amount: real)

  function PaymentInputAmount(l: PaymentLineInput): real { l.amount }

  /** An expense line as the expense form holds it, before it gets an id. */
  datatype ExpenseLineInput = ExpenseLineInput(category: ExpenseCategory, amount: real)

  function ExpenseInputAmount(l: ExpenseLineInput): real { l.amount }

  datatype RevenueMode = Global | Detailed

  // ------------------------------------------------------------------
  // Identifiers built from a clock reading
  // ------------------------------------------------------------------

  function DigitChar(d: nat): (c: char)
    requires d < 10
    ensures '0' <= c <= '9'
    ensures c as int - '0' as int == d
  {
    "0123456789"[d]
  }

  /** The decimal spelling of a natural number, as JavaScript template strings
      write it. */
  function NatToString(n: nat): (s: string)
    ensures 1 <= |s|
    ensures forall i :: 0 <= i < |s| ==> '0' <= s[i] <= '9'
    ensures (|s| == 1) == (n < 10)
    decreases n
  {
    if n < 10 then [DigitChar(n)] else NatToString(n / 10) + [DigitChar(n % 10)]
  }

  /** Different numbers are spelt differently, so identifiers built from them
      differ. */
  lemma {:induction false} NatToStringInjective(a: nat, b: nat)
    requires NatToString(a) == NatToString(b)
    ensures a == b
    decreases a
  {
    var s := NatToString(a);
    if a < 10 {
      assert b < 10;
      assert DigitChar(a) == s[0] == DigitChar(b);
    } else {
      assert b >= 10;
      assert s == NatToString(a / 10) + [DigitChar(a % 10)];
      assert s == NatToString(b / 10) + [DigitChar(b % 10)];
      assert s[..|s| - 1] == NatToString(a / 10) == NatToString(b / 10);
      assert DigitChar(a % 10) == s[|s| - 1] == DigitChar(b % 10);
      NatToStringInjective(a / 10, b / 10);
    }
  }

  /** `prefix + stamp + "_" + index`, the identifier of the index-th line of a
      record created at time `stamp`. */
  function LineId(prefix: string, stamp: nat, index: nat): string
  {
    prefix + NatToString(stamp) + "_" + NatToString(index)
  }

  lemma LineIdsDistinct(prefix: string, stamp: nat, i: nat, j: nat)
    requires i != j
    ensures LineId(prefix, stamp, i) != LineId(prefix, stamp, j)
  {
    var head := prefix + NatToString(stamp) + "_";
    if LineId(prefix, stamp, i) == LineId(prefix, stamp, j) {
      assert LineId(prefix, stamp, i)[|head|..] == NatToString(i);
      assert LineId(prefix, stamp, j)[|head|..] == NatToString(j);
      NatToStringInjective(i, j);
    }
  }
}
