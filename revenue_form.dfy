/** The revenue entry form of app/revenue/page.tsx without its markup: the
    form state, the handlers that edit it, the validator and the record that
    a successful submit hands to the store.

    In global mode the user types one amount per payment method and the
    total is their sum; in detailed mode the user types the total and any
    number of method lines.  The clock reading (`now`) and the number the
    identifiers are built from (`stamp`, the application's `Date.now()`)
    are parameters. */
module RevenueForm {
  import opened Types
  import opened Sequences
  import opened Store

  /** One zero line per method, in the fixed order. */
  const InitialPaymentLines: seq<PaymentLineInput> :=
    [PaymentLineInput(Wave, 0.0), PaymentLineInput(OrangeMoney, 0.0), PaymentLineInput(Cash, 0.0)]

  /** The form fields an error message can be attached to. */
  datatype Field = PaymentMethodsField | TotalAmountField

  const MsgMethodsTotal := "Le total des méthodes de paiement doit être supérieur à 0"
  const MsgTotalRequired := "Le montant total est requis"
  const MsgLineRequired := "Au moins une ligne avec un montant est requise"

  /** `calculateTotalFromPaymentMethods`: the sum of the line amounts. */
  function LinesTotal(lines: seq<PaymentLineInput>): (t: real)
    ensures t == Total(lines, PaymentInputAmount)
    ensures (forall i :: 0 <= i < |lines| ==> lines[i].amount >= 0.0) ==> t >= 0.0
    ensures t > 0.0 ==> AnyPositive(lines, PaymentInputAmount)
  {
    var t := Total(lines, PaymentInputAmount);
    if t > 0.0 then
      PositiveTotalHasPositiveElement(lines, PaymentInputAmount);
      t
    else if forall i :: 0 <= i < |lines| ==> PaymentInputAmount(lines[i]) >= 0.0 then
      TotalNonNegative(lines, PaymentInputAmount);
      t
    else
      t
  }

  /** Setting the amount of one line moves the sum by the difference. */
  lemma LinesTotalAfterChange(lines: seq<PaymentLineInput>, index: int, amount: real)
    requires 0 <= index < |lines|
    ensures LinesTotal(lines[index := lines[index].(amount := amount)])
         == LinesTotal(lines) - lines[index].amount + amount
  {
    var changed := lines[index := lines[index].(amount := amount)];
    assert lines == lines[..index] + [lines[index]] + lines[index + 1..];
    assert changed == lines[..index] + [changed[index]] + lines[index + 1..];
    TotalAppend(lines[..index] + [lines[index]], lines[index + 1..], PaymentInputAmount);
    TotalAppend(lines[..index], [lines[index]], PaymentInputAmount);
    TotalAppend(lines[..index] + [changed[index]], lines[index + 1..], PaymentInputAmount);
    TotalAppend(lines[..index], [changed[index]], PaymentInputAmount);
    assert [lines[index]][..0] == [] && [changed[index]][..0] == [];
  }

  /** A new zero line does not change the sum. */
  lemma LinesTotalAfterAdd(lines: seq<PaymentLineInput>)
    ensures LinesTotal(lines + [PaymentLineInput(Cash, 0.0)]) == LinesTotal(lines)
  {
    assert (lines + [PaymentLineInput(Cash, 0.0)])[..|lines|] == lines;
  }

  /** Removing one line takes exactly its amount off the sum. */
  lemma LinesTotalAfterRemove(lines: seq<PaymentLineInput>, index: int)
    requires 0 <= index < |lines|
    ensures LinesTotal(RemoveAt(lines, index)) == LinesTotal(lines) - lines[index].amount
  {
    assert lines == lines[..index] + [lines[index]] + lines[index + 1..];
    TotalAppend(lines[..index] + [lines[index]], lines[index + 1..], PaymentInputAmount);
    TotalAppend(lines[..index], [lines[index]], PaymentInputAmount);
    TotalAppend(lines[..index], lines[index + 1..], PaymentInputAmount);
    assert [lines[index]][..0] == [];
  }

  /** The errors `validate` records, by field. */
  function RevenueErrors(mode: RevenueMode, totalAmount: Option<real>, lines: seq<PaymentLineInput>)
    : (errors: map<Field, string>)
    ensures PaymentMethodsField in errors <==>
              if mode == Global then LinesTotal(lines) <= 0.0 else !AnyPositive(lines, PaymentInputAmount)
    ensures TotalAmountField in errors <==> mode == Detailed && (totalAmount.None? || totalAmount.value <= 0.0)
    ensures errors.Keys <= {PaymentMethodsField, TotalAmountField}
    ensures PaymentMethodsField in errors ==>
              errors[PaymentMethodsField] == if mode == Global then MsgMethodsTotal else MsgLineRequired
    ensures TotalAmountField in errors ==> errors[TotalAmountField] == MsgTotalRequired
  {
    if mode.Global? then
      if LinesTotal(lines) <= 0.0 then map[PaymentMethodsField := MsgMethodsTotal] else map[]
    else
      var totalMissing := totalAmount.None? || totalAmount.value <= 0.0;
      var noLine := !AnyPositive(lines, PaymentInputAmount);
      if totalMissing && noLine then map[TotalAmountField := MsgTotalRequired, PaymentMethodsField := MsgLineRequired]
      else if totalMissing then map[TotalAmountField := MsgTotalRequired]
      else if noLine then map[PaymentMethodsField := MsgLineRequired]
      else map[]
  }

  /** When the form is valid: in global mode the lines add up to more than
      zero; in detailed mode the total is entered and positive and some line
      is positive. */
  lemma RevenueValidIff(mode: RevenueMode, totalAmount: Option<real>, lines: seq<PaymentLineInput>)
    ensures RevenueErrors(mode, totalAmount, lines) == map[] <==>
              if mode == Global then LinesTotal(lines) > 0.0
              else totalAmount.Some? && totalAmount.value > 0.0 && AnyPositive(lines, PaymentInputAmount)
  {
    var errors := RevenueErrors(mode, totalAmount, lines);
    if errors != map[] {
      var k :| k in errors;
      assert k == PaymentMethodsField || k == TotalAmountField;
    }
  }

  /** A valid global-mode form always has a positive line, so the record
      built from it has at least one payment line. */
  lemma {:induction false} ValidGlobalHasPositiveLine(lines: seq<PaymentLineInput>)
    requires LinesTotal(lines) > 0.0
    ensures AnyPositive(lines, PaymentInputAmount)
  {
    PositiveTotalHasPositiveElement(lines, PaymentInputAmount);
  }

  /** The stored lines: the kept inputs in order, the i-th with the
      identifier `pm_<stamp>_<i>`. */
  function NumberedLines(kept: seq<PaymentLineInput>, stamp: nat): (pms: seq<PaymentLine>)
    ensures |pms| == |kept|
    ensures forall i :: 0 <= i < |kept| ==>
              pms[i] == PaymentLine(LineId("pm_", stamp, i), kept[i].paymentMethod, kept[i].amount)
  {
    seq(|kept|, i requires 0 <= i < |kept| => PaymentLine(LineId("pm_", stamp, i), kept[i].paymentMethod, kept[i].amount))
  }

  /** `formData.notes || undefined` */
  function NotesOf(notes: string): (n: Option<string>)
    ensures n == None <==> notes == ""
    ensures n.Some? ==> n.value == notes
  {
    if notes == "" then None else Some(notes)
  }

  /** The record `handleSubmit` builds: the total is the line sum in global
      mode and the entered total in detailed mode; the payment lines are the
      lines with a positive amount, in order, numbered from 0. */
  function BuildRevenue(restaurantId: string, mode: RevenueMode, date: int, totalAmount: Option<real>,
                        lines: seq<PaymentLineInput>, notes: string, stamp: nat, now: int): (r: DailyRevenue)
    requires mode == Detailed ==> totalAmount.Some?
    ensures r.id == "rev_" + NatToString(stamp) && r.restaurantId == restaurantId && r.date == date
    ensures r.totalAmount == if mode == Global then LinesTotal(lines) else totalAmount.value
    ensures var kept := Filter(lines, IsPositive(PaymentInputAmount));
            && |r.paymentMethods| == |kept|
            && forall i :: 0 <= i < |kept| ==>
                 r.paymentMethods[i].paymentMethod == kept[i].paymentMethod
                 && r.paymentMethods[i].amount == kept[i].amount
    ensures forall i :: 0 <= i < |r.paymentMethods| ==> r.paymentMethods[i].amount > 0.0
    ensures forall i, j :: 0 <= i < j < |r.paymentMethods| ==> r.paymentMethods[i].id != r.paymentMethods[j].id
    ensures r.notes == NotesOf(notes)
    ensures r.createdAt == now && r.updatedAt == now
  {
    var kept := Filter(lines, IsPositive(PaymentInputAmount));
    FilterPasses(lines, IsPositive(PaymentInputAmount));
    var pms := NumberedLines(kept, stamp);
    forall i | 0 <= i < |pms| ensures pms[i].amount > 0.0 {
      assert IsPositive(PaymentInputAmount)(kept[i]);
      assert PaymentInputAmount(kept[i]) > 0.0;
      assert pms[i].amount == kept[i].amount;
    }
    assert forall i, j :: 0 <= i < j < |pms| ==> pms[i].id != pms[j].id by {
      forall i, j | 0 <= i < j < |pms| ensures pms[i].id != pms[j].id {
        LineIdsDistinct("pm_", stamp, i, j);
      }
    }
    DailyRevenue("rev_" + NatToString(stamp), restaurantId, date,
                 if mode == Global then LinesTotal(lines) else totalAmount.value,
                 pms, NotesOf(notes), now, now)
  }

  /** In global mode, when no line is negative, the stored lines add up to
      the stored total: dropping the zero lines loses nothing. */
  lemma GlobalRevenueBalances(restaurantId: string, date: int, totalAmount: Option<real>,
                              lines: seq<PaymentLineInput>, notes: string, stamp: nat, now: int)
    requires forall i :: 0 <= i < |lines| ==> lines[i].amount >= 0.0
    ensures var r := BuildRevenue(restaurantId, Global, date, totalAmount, lines, notes, stamp, now);
            Total(r.paymentMethods, PaymentLineAmount) == r.totalAmount
  {
    var r := BuildRevenue(restaurantId, Global, date, totalAmount, lines, notes, stamp, now);
    var kept := Filter(lines, IsPositive(PaymentInputAmount));
    TotalPointwise(r.paymentMethods, PaymentLineAmount, kept, PaymentInputAmount);
    TotalOfPositives(lines, PaymentInputAmount);
  }

  class RevenueFormState {
    var mode: RevenueMode
    var date: int
    var totalAmount: Option<real>
    var paymentMethods: seq<PaymentLineInput>
    var notes: string
    var errors: map<Field, string>

    /** The form always has at least one payment line. */
    ghost predicate Valid()
      reads this
    {
      |paymentMethods| >= 1
    }

    /** The state the form opens in, and returns to after a submit. */
    ghost predicate IsBlank(now: int)
      reads this
    {
      && mode == Global && date == now && totalAmount == None
      && paymentMethods == InitialPaymentLines && notes == "" && errors == map[]
    }

    constructor (now: int)
      ensures IsBlank(now) && Valid()
    {
      mode := Global;
      date := now;
      totalAmount := None;
      paymentMethods := InitialPaymentLines;
      notes := "";
      errors := map[];
    }

    /** Switching mode: in global mode the total becomes the line sum, in
      detailed mode it is cleared. */
    method HandleModeChange(newMode: RevenueMode)
      requires Valid()
      modifies this
      ensures Valid()
      ensures mode == newMode
      ensures totalAmount == if newMode == Global then Some(LinesTotal(paymentMethods)) else None
      ensures paymentMethods == old(paymentMethods) && date == old(date) && notes == old(notes)
      ensures errors == old(errors)
    {
      mode := newMode;
      totalAmount := if newMode == Global then Some(LinesTotal(paymentMethods)) else None;
    }

    /** Setting the amount of line `index`.  In global mode the total is
      recomputed from the lines as they were before this change. */
    method HandlePaymentMethodChange(index: int, amount: real)
      requires Valid()
      requires 0 <= index < |paymentMethods|
      modifies this
      ensures Valid()
      ensures paymentMethods == old(paymentMethods)[index := old(paymentMethods)[index].(amount := amount)]
      ensures paymentMethods[index].paymentMethod == old(paymentMethods)[index].paymentMethod
      ensures LinesTotal(paymentMethods) == LinesTotal(old(paymentMethods)) - old(paymentMethods)[index].amount + amount
      ensures totalAmount == if mode == Global then Some(LinesTotal(old(paymentMethods))) else old(totalAmount)
      ensures mode == old(mode) && date == old(date) && notes == old(notes) && errors == old(errors)
    {
      var previousTotal := LinesTotal(paymentMethods);
      LinesTotalAfterChange(paymentMethods, index, amount);
      paymentMethods := paymentMethods[index := paymentMethods[index].(amount := amount)];
      totalAmount := if mode == Global then Some(previousTotal) else totalAmount;
    }

    /** The method selector of line `index` in detailed mode. */
    method HandleMethodSelect(index: int, m: PaymentMethod)
      requires Valid()
      requires 0 <= index < |paymentMethods|
      modifies this
      ensures Valid()
      ensures paymentMethods == old(paymentMethods)[index := old(paymentMethods)[index].(paymentMethod := m)]
      ensures LinesTotal(paymentMethods) == LinesTotal(old(paymentMethods))
      ensures mode == old(mode) && date == old(date) && totalAmount == old(totalAmount)
      ensures notes == old(notes) && errors == old(errors)
    {
      var before := paymentMethods;
      paymentMethods := paymentMethods[index := paymentMethods[index].(paymentMethod := m)];
      TotalPointwise(paymentMethods, PaymentInputAmount, before, PaymentInputAmount);
    }

    /** The total field of detailed mode: `parseFloat(value) || undefined`,
      so an entered 0 clears it. */
    method SetTotalAmount(value: real)
      modifies this
      ensures totalAmount == if value == 0.0 then None else Some(value)
      ensures mode == old(mode) && date == old(date) && paymentMethods == old(paymentMethods)
      ensures notes == old(notes) && errors == old(errors)
    {
      totalAmount := if value == 0.0 then None else Some(value);
    }

    method SetDate(value: int)
      modifies this
      ensures date == value
      ensures mode == old(mode) && totalAmount == old(totalAmount) && paymentMethods == old(paymentMethods)
      ensures notes == old(notes) && errors == old(errors)
    {
      date := value;
    }

    method SetNotes(value: string)
      modifies this
      ensures notes == value
      ensures mode == old(mode) && date == old(date) && totalAmount == old(totalAmount)
      ensures paymentMethods == old(paymentMethods) && errors == old(errors)
    {
      notes := value;
    }

    /** A new cash line with amount 0 at the end. */
    method HandleAddDetailedLine()
      requires Valid()
      modifies this
      ensures Valid()
      ensures paymentMethods == old(paymentMethods) + [PaymentLineInput(Cash, 0.0)]
      ensures LinesTotal(paymentMethods) == LinesTotal(old(paymentMethods))
      ensures mode == old(mode) && date == old(date) && totalAmount == old(totalAmount)
      ensures notes == old(notes) && errors == old(errors)
    {
      LinesTotalAfterAdd(paymentMethods);
      paymentMethods := paymentMethods + [PaymentLineInput(Cash, 0.0)];
    }

    /** Removing line `index`, unless it is the only line left.  An index
      that names no line removes nothing. */
    method HandleRemoveDetailedLine(index: int)
      requires Valid()
      modifies this
      ensures Valid()
      ensures |old(paymentMethods)| <= 1 ==> paymentMethods == old(paymentMethods)
      ensures |old(paymentMethods)| > 1 ==> paymentMethods == RemoveAt(old(paymentMethods), index)
      ensures |old(paymentMethods)| > 1 && 0 <= index < |old(paymentMethods)| ==>
                LinesTotal(paymentMethods) == LinesTotal(old(paymentMethods)) - old(paymentMethods)[index].amount
      ensures mode == old(mode) && date == old(date) && totalAmount == old(totalAmount)
      ensures notes == old(notes) && errors == old(errors)
    {
      if |paymentMethods| <= 1 {
        return;
      }
      if 0 <= index < |paymentMethods| {
        LinesTotalAfterRemove(paymentMethods, index);
      }
      paymentMethods := RemoveAt(paymentMethods, index);
    }

    /** `validate`: records the errors of the current state and reports
      whether there are none. */
    method Validate() returns (ok: bool)
      modifies this
      ensures errors == RevenueErrors(mode, totalAmount, paymentMethods)
      ensures ok <==> errors == map[]
      ensures mode == old(mode) && date == old(date) && totalAmount == old(totalAmount)
      ensures paymentMethods == old(paymentMethods) && notes == old(notes)
    {
      var newErrors: map<Field, string> := map[];
      if mode == Global {
        var totalFromMethods := LinesTotal(paymentMethods);
        if totalFromMethods <= 0.0 {
          newErrors := newErrors[PaymentMethodsField := MsgMethodsTotal];
        }
      } else {
        if totalAmount.None? || totalAmount.value <= 0.0 {
          newErrors := newErrors[TotalAmountField := MsgTotalRequired];
        }
        var hasValidLine := AnyPositive(paymentMethods, PaymentInputAmount);
        if !hasValidLine {
          newErrors := newErrors[PaymentMethodsField := MsgLineRequired];
        }
      }
      errors := newErrors;
      ok := |newErrors.Keys| == 0;
      assert ok <==> newErrors == map[] by {
        if newErrors != map[] {
          var k :| k in newErrors;
        }
      }
    }

    /** `handleSubmit`: when the form is valid, the built record goes to the
      store and the form is blank again; otherwise the store is untouched
      and the form only shows its errors. */
    method Submit(store: AppStore, stamp: nat, now: int) returns (saved: bool)
      requires Valid()
      requires store.restaurant.Some?
      modifies this, store
      ensures Valid()
      ensures saved <==> RevenueErrors(old(mode), old(totalAmount), old(paymentMethods)) == map[]
      ensures saved ==> old(mode) == Detailed ==> old(totalAmount).Some?
      ensures saved ==>
                store.revenues == SortDesc(old(store.revenues) + [BuildRevenue(old(store.restaurant).value.id,
                                     old(mode), old(date), old(totalAmount), old(paymentMethods), old(notes), stamp, now)],
                                   RevenueDate)
      ensures saved ==> IsBlank(now)
      ensures !saved ==> store.revenues == old(store.revenues)
      ensures !saved ==> errors == RevenueErrors(mode, totalAmount, paymentMethods)
      ensures !saved ==> mode == old(mode) && date == old(date) && totalAmount == old(totalAmount)
                         && paymentMethods == old(paymentMethods) && notes == old(notes)
      ensures store.restaurant == old(store.restaurant) && store.expenses == old(store.expenses)
    {
      saved := Validate();
      if !saved {
        return;
      }
      RevenueValidIff(mode, totalAmount, paymentMethods);
      var revenue := BuildRevenue(store.restaurant.value.id, mode, date, totalAmount, paymentMethods, notes, stamp, now);
      store.AddRevenue(revenue);
      mode := Global;
      date := now;
      totalAmount := None;
      paymentMethods := InitialPaymentLines;
      notes := "";
      errors := map[];
    }
  }
}
