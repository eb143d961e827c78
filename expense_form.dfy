/** The expense entry form of app/expense/page.tsx without its markup: the
    form state, the handlers that edit it, the validator and the record that
    a successful submit hands to the store.

    Not detailed, the user types the total; detailed, the user types
    category lines and the total is their sum.  The clock reading (`now`)
    and the number the identifiers are built from (`stamp`) are
    parameters. */
module ExpenseForm {
  import opened Types
  import opened Sequences
  import opened Store

  /** The single line a blank form holds. */
  const InitialExpenseLine := ExpenseLineInput(Ingredients, 0.0)

  /** The form fields an error message can be attached to. */
  datatype Field = TotalAmountField | ExpenseLinesField

  const MsgTotalRequired := "Le montant total est requis"
  const MsgNoLines := "Au moins une ligne de dépense est requise"
  const MsgLineRequired := "Au moins une ligne avec un montant est requise"

  /** One edit of `handleExpenseLineChange`: the field it sets and the value. */
  datatype LineEdit = SetCategory(category: ExpenseCategory) | SetAmount(amount: real)

  function ApplyEdit(line: ExpenseLineInput, edit: LineEdit): (l: ExpenseLineInput)
    ensures edit.SetCategory? ==> l == ExpenseLineInput(edit.category, line.amount)
    ensures edit.SetAmount? ==> l == ExpenseLineInput(line.category, edit.amount)
  {
    match edit
    case SetCategory(c) => line.(category := c)
    case SetAmount(a) => line.(amount := a)
  }

  /** `calculateTotalFromExpenseLines`: 0 without lines, else the sum of the
      line amounts. */
  function ExpenseLinesTotal(lines: Option<seq<ExpenseLineInput>>): (t: real)
    ensures lines.None? ==> t == 0.0
    ensures lines.Some? ==> t == Total(lines.value, ExpenseInputAmount)
  {
    if lines.None? then 0.0 else Total(lines.value, ExpenseInputAmount)
  }

  /** An edit moves the sum by the change of the edited line's amount: not
      at all for a category. */
  lemma {:induction false} TotalAfterEdit(lines: seq<ExpenseLineInput>, index: int, edit: LineEdit)
    requires 0 <= index < |lines|
    ensures Total(lines[index := ApplyEdit(lines[index], edit)], ExpenseInputAmount)
         == Total(lines, ExpenseInputAmount) - lines[index].amount + ApplyEdit(lines[index], edit).amount
  {
    var changed := lines[index := ApplyEdit(lines[index], edit)];
    assert lines == lines[..index] + [lines[index]] + lines[index + 1..];
    assert changed == lines[..index] + [changed[index]] + lines[index + 1..];
    TotalAppend(lines[..index] + [lines[index]], lines[index + 1..], ExpenseInputAmount);
    TotalAppend(lines[..index], [lines[index]], ExpenseInputAmount);
    TotalAppend(lines[..index] + [changed[index]], lines[index + 1..], ExpenseInputAmount);
    TotalAppend(lines[..index], [changed[index]], ExpenseInputAmount);
    assert [lines[index]][..0] == [] && [changed[index]][..0] == [];
  }

  /** Removing one line takes exactly its amount off the sum. */
  lemma {:induction false} TotalAfterRemove(lines: seq<ExpenseLineInput>, index: int)
    requires 0 <= index < |lines|
    ensures Total(RemoveAt(lines, index), ExpenseInputAmount) == Total(lines, ExpenseInputAmount) - lines[index].amount
  {
    assert lines == lines[..index] + [lines[index]] + lines[index + 1..];
    TotalAppend(lines[..index] + [lines[index]], lines[index + 1..], ExpenseInputAmount);
    TotalAppend(lines[..index], [lines[index]], ExpenseInputAmount);
    TotalAppend(lines[..index], lines[index + 1..], ExpenseInputAmount);
    assert [lines[index]][..0] == [];
  }

  /** The errors `validate` records, by field. */
  function ExpenseErrors(isDetailed: bool, totalAmount: Option<real>, lines: Option<seq<ExpenseLineInput>>)
    : (errors: map<Field, string>)
    ensures TotalAmountField in errors <==> !isDetailed && (totalAmount.None? || totalAmount.value <= 0.0)
    ensures ExpenseLinesField in errors <==>
              isDetailed && (lines.None? || !AnyPositive(lines.value, ExpenseInputAmount))
    ensures TotalAmountField in errors ==> errors[TotalAmountField] == MsgTotalRequired
    ensures ExpenseLinesField in errors ==>
              errors[ExpenseLinesField] == if lines.None? || |lines.value| == 0 then MsgNoLines else MsgLineRequired
  {
    if !isDetailed then
      if totalAmount.None? || totalAmount.value <= 0.0 then map[TotalAmountField := MsgTotalRequired] else map[]
    else if lines.None? || |lines.value| == 0 then map[ExpenseLinesField := MsgNoLines]
    else if !AnyPositive(lines.value, ExpenseInputAmount) then map[ExpenseLinesField := MsgLineRequired]
    else map[]
  }

  /** When the form is valid: not detailed, the total is entered and
      positive; detailed, there are lines and one of them is positive. */
  lemma ExpenseValidIff(isDetailed: bool, totalAmount: Option<real>, lines: Option<seq<ExpenseLineInput>>)
    ensures ExpenseErrors(isDetailed, totalAmount, lines) == map[] <==>
              if !isDetailed then totalAmount.Some? && totalAmount.value > 0.0
              else lines.Some? && |lines.value| > 0 && AnyPositive(lines.value, ExpenseInputAmount)
  {
    var errors := ExpenseErrors(isDetailed, totalAmount, lines);
    if errors != map[] {
      var k :| k in errors;
      assert k == TotalAmountField || k == ExpenseLinesField;
    }
  }

  /** The stored lines: the kept inputs in order, the i-th with the
      identifier `exp_<stamp>_<i>`. */
  function NumberedLines(kept: seq<ExpenseLineInput>, stamp: nat): (ls: seq<ExpenseLine>)
    ensures |ls| == |kept|
    ensures forall i :: 0 <= i < |kept| ==>
              ls[i] == ExpenseLine(LineId("exp_", stamp, i), kept[i].category, kept[i].amount)
  {
    seq(|kept|, i requires 0 <= i < |kept| => ExpenseLine(LineId("exp_", stamp, i), kept[i].category, kept[i].amount))
  }

  /** The lines a detailed record stores: those with a positive amount, in
      order, numbered with distinct identifiers. */
  function StoredLines(lines: seq<ExpenseLineInput>, stamp: nat): (ls: seq<ExpenseLine>)
    ensures var kept := Filter(lines, IsPositive(ExpenseInputAmount));
            && |ls| == |kept|
            && forall i :: 0 <= i < |kept| ==> ls[i].category == kept[i].category && ls[i].amount == kept[i].amount
    ensures forall i :: 0 <= i < |ls| ==> ls[i].amount > 0.0
    ensures forall i, j :: 0 <= i < j < |ls| ==> ls[i].id != ls[j].id
  {
    var kept := Filter(lines, IsPositive(ExpenseInputAmount));
    FilterPasses(lines, IsPositive(ExpenseInputAmount));
    var ls := NumberedLines(kept, stamp);
    forall i | 0 <= i < |ls| ensures ls[i].amount > 0.0 {
      assert IsPositive(ExpenseInputAmount)(kept[i]);
      assert ExpenseInputAmount(kept[i]) > 0.0;
      assert ls[i].amount == kept[i].amount;
    }
    assert forall i, j :: 0 <= i < j < |ls| ==> ls[i].id != ls[j].id by {
      forall i, j | 0 <= i < j < |ls| ensures ls[i].id != ls[j].id {
        LineIdsDistinct("exp_", stamp, i, j);
      }
    }
    ls
  }

  /** The record `handleSubmit` builds: detailed, the total is the sum of all
      lines and the stored lines are those with a positive amount, in order;
      not detailed, the total is the entered one and there are no lines. */
  function BuildExpense(restaurantId: string, isDetailed: bool, date: int, totalAmount: Option<real>,
                        lines: Option<seq<ExpenseLineInput>>, notes: string, stamp: nat, now: int): (e: DailyExpense)
    requires !isDetailed ==> totalAmount.Some?
    ensures e.id == "exp_" + NatToString(stamp) && e.restaurantId == restaurantId && e.date == date
    ensures e.isDetailed == isDetailed
    ensures e.totalAmount == if isDetailed then ExpenseLinesTotal(lines) else totalAmount.value
    ensures e.expenseLines.Some? <==> isDetailed && lines.Some?
    ensures e.expenseLines.Some? ==>
              var kept := Filter(lines.value, IsPositive(ExpenseInputAmount));
              && |e.expenseLines.value| == |kept|
              && forall i :: 0 <= i < |kept| ==>
                   e.expenseLines.value[i].category == kept[i].category
                   && e.expenseLines.value[i].amount == kept[i].amount
    ensures e.expenseLines.Some? ==> forall i :: 0 <= i < |e.expenseLines.value| ==> e.expenseLines.value[i].amount > 0.0
    ensures e.expenseLines.Some? ==>
              forall i, j :: 0 <= i < j < |e.expenseLines.value| ==> e.expenseLines.value[i].id != e.expenseLines.value[j].id
    ensures e.notes == (if notes == "" then None else Some(notes))
    ensures e.createdAt == now && e.updatedAt == now
  {
    DailyExpense("exp_" + NatToString(stamp), restaurantId, date,
                 if isDetailed then ExpenseLinesTotal(lines) else totalAmount.value,
                 isDetailed, if isDetailed && lines.Some? then Some(StoredLines(lines.value, stamp)) else None,
                 if notes == "" then None else Some(notes), now, now)
  }

  /** Detailed, when no line is negative, the stored lines add up to the
      stored total: dropping the zero lines loses nothing. */
  lemma DetailedExpenseBalances(restaurantId: string, date: int, totalAmount: Option<real>,
                                lines: seq<ExpenseLineInput>, notes: string, stamp: nat, now: int)
    requires forall i :: 0 <= i < |lines| ==> lines[i].amount >= 0.0
    ensures var e := BuildExpense(restaurantId, true, date, totalAmount, Some(lines), notes, stamp, now);
            e.expenseLines.Some? && Total(e.expenseLines.value, ExpenseLineAmount) == e.totalAmount
  {
    var e := BuildExpense(restaurantId, true, date, totalAmount, Some(lines), notes, stamp, now);
    var kept := Filter(lines, IsPositive(ExpenseInputAmount));
    TotalPointwise(e.expenseLines.value, ExpenseLineAmount, kept, ExpenseInputAmount);
    TotalOfPositives(lines, ExpenseInputAmount);
  }

  class ExpenseFormState {
    var isDetailed: bool
    var date: int
    var totalAmount: Option<real>
    var expenseLines: Option<seq<ExpenseLineInput>>
    var notes: string
    var errors: map<Field, string>

    /** The form always holds at least one line. */
    ghost predicate Valid()
      reads this
    {
      expenseLines.Some? && |expenseLines.value| >= 1
    }

    /** The state the form opens in, and returns to after a submit. */
    ghost predicate IsBlank(now: int)
      reads this
    {
      && !isDetailed && date == now && totalAmount == None
      && expenseLines == Some([InitialExpenseLine]) && notes == "" && errors == map[]
    }

    constructor (now: int)
      ensures IsBlank(now) && Valid()
    {
      isDetailed := false;
      date := now;
      totalAmount := None;
      expenseLines := Some([InitialExpenseLine]);
      notes := "";
      errors := map[];
    }

    /** Switching mode: detailed clears the total, not detailed sets it to the
      line sum. */
    method HandleModeChange(detailed: bool)
      modifies this
      ensures isDetailed == detailed
      ensures totalAmount == if detailed then None else Some(ExpenseLinesTotal(expenseLines))
      ensures expenseLines == old(expenseLines) && date == old(date) && notes == old(notes)
      ensures errors == old(errors)
    {
      isDetailed := detailed;
      totalAmount := if detailed then None else Some(ExpenseLinesTotal(expenseLines));
    }

    /** Editing one field of line `index`.  Not detailed, the total is
      recomputed from the lines as they were before this edit. */
    method HandleExpenseLineChange(index: int, edit: LineEdit)
      requires expenseLines.Some? ==> 0 <= index < |expenseLines.value|
      modifies this
      ensures old(expenseLines).None? ==> expenseLines == None && totalAmount == old(totalAmount)
      ensures old(expenseLines).Some? ==>
                && expenseLines == Some(old(expenseLines).value[index := ApplyEdit(old(expenseLines).value[index], edit)])
                && ExpenseLinesTotal(expenseLines)
                   == ExpenseLinesTotal(old(expenseLines)) - old(expenseLines).value[index].amount
                      + ApplyEdit(old(expenseLines).value[index], edit).amount
                && totalAmount == if !isDetailed then Some(ExpenseLinesTotal(old(expenseLines))) else old(totalAmount)
      ensures old(Valid()) ==> Valid()
      ensures isDetailed == old(isDetailed) && date == old(date) && notes == old(notes) && errors == old(errors)
    {
      if expenseLines.None? {
        return;
      }
      var lines := expenseLines.value;
      var previousTotal := ExpenseLinesTotal(expenseLines);
      TotalAfterEdit(lines, index, edit);
      expenseLines := Some(lines[index := ApplyEdit(lines[index], edit)]);
      totalAmount := if !isDetailed then Some(previousTotal) else totalAmount;
    }

    /** A new ingredients line with amount 0 at the end, starting a list if
      there was none. */
    method HandleAddExpenseLine()
      modifies this
      ensures expenseLines == Some((if old(expenseLines).Some? then old(expenseLines).value else []) + [InitialExpenseLine])
      ensures ExpenseLinesTotal(expenseLines) == ExpenseLinesTotal(old(expenseLines))
      ensures Valid()
      ensures isDetailed == old(isDetailed) && date == old(date) && totalAmount == old(totalAmount)
      ensures notes == old(notes) && errors == old(errors)
    {
      var lines := if expenseLines.Some? then expenseLines.value else [];
      assert (lines + [InitialExpenseLine])[..|lines|] == lines;
      assert Total(lines + [InitialExpenseLine], ExpenseInputAmount) == Total(lines, ExpenseInputAmount);
      assert old(expenseLines).None? ==> Total(lines, ExpenseInputAmount) == 0.0;
      expenseLines := Some(lines + [InitialExpenseLine]);
    }

    /** Removing line `index`, unless there are no lines or only one.  An
      index that names no line removes nothing. */
    method HandleRemoveExpenseLine(index: int)
      modifies this
      ensures old(expenseLines).None? || |old(expenseLines).value| <= 1 ==> expenseLines == old(expenseLines)
      ensures old(expenseLines).Some? && |old(expenseLines).value| > 1 ==>
                expenseLines == Some(RemoveAt(old(expenseLines).value, index))
      ensures old(expenseLines).Some? && |old(expenseLines).value| > 1 && 0 <= index < |old(expenseLines).value| ==>
                ExpenseLinesTotal(expenseLines)
                == ExpenseLinesTotal(old(expenseLines)) - old(expenseLines).value[index].amount
      ensures old(Valid()) ==> Valid()
      ensures isDetailed == old(isDetailed) && date == old(date) && totalAmount == old(totalAmount)
      ensures notes == old(notes) && errors == old(errors)
    {
      if expenseLines.None? || |expenseLines.value| <= 1 {
        return;
      }
      var lines := expenseLines.value;
      if 0 <= index < |lines| {
        TotalAfterRemove(lines, index);
      }
      expenseLines := Some(RemoveAt(lines, index));
    }

    /** The total field when not detailed: `parseFloat(value) || undefined`,
      so an entered 0 clears it. */
    method SetTotalAmount(value: real)
      modifies this
      ensures totalAmount == if value == 0.0 then None else Some(value)
      ensures isDetailed == old(isDetailed) && date == old(date) && expenseLines == old(expenseLines)
      ensures notes == old(notes) && errors == old(errors)
    {
      totalAmount := if value == 0.0 then None else Some(value);
    }

    method SetDate(value: int)
      modifies this
      ensures date == value
      ensures isDetailed == old(isDetailed) && totalAmount == old(totalAmount) && expenseLines == old(expenseLines)
      ensures notes == old(notes) && errors == old(errors)
    {
      date := value;
    }

    method SetNotes(value: string)
      modifies this
      ensures notes == value
      ensures isDetailed == old(isDetailed) && date == old(date) && totalAmount == old(totalAmount)
      ensures expenseLines == old(expenseLines) && errors == old(errors)
    {
      notes := value;
    }

    /** `validate`: records the errors of the current state and reports
      whether there are none. */
    method Validate() returns (ok: bool)
      modifies this
      ensures errors == ExpenseErrors(isDetailed, totalAmount, expenseLines)
      ensures ok <==> errors == map[]
      ensures isDetailed == old(isDetailed) && date == old(date) && totalAmount == old(totalAmount)
      ensures expenseLines == old(expenseLines) && notes == old(notes)
    {
      var newErrors: map<Field, string> := map[];
      if !isDetailed {
        if totalAmount.None? || totalAmount.value <= 0.0 {
          newErrors := newErrors[TotalAmountField := MsgTotalRequired];
        }
      } else {
        if expenseLines.None? || |expenseLines.value| == 0 {
          newErrors := newErrors[ExpenseLinesField := MsgNoLines];
        } else {
          var hasValidLine := AnyPositive(expenseLines.value, ExpenseInputAmount);
          if !hasValidLine {
            newErrors := newErrors[ExpenseLinesField := MsgLineRequired];
          }
        }
      }
      errors := newErrors;
      ok := |newErrors.Keys| == 0;
      assert ok <==> newErrors == map[] by {
        if newErrors != map[] {
          var k :| k in newErrors;
        }
      }
    }

    /** `handleSubmit`: when the form is valid, the built record goes to the
      store and the form is blank again; otherwise the store is untouched
      and the form only shows its errors. */
    method Submit(store: AppStore, stamp: nat, now: int) returns (saved: bool)
      requires store.restaurant.Some?
      modifies this, store
      ensures saved <==> ExpenseErrors(old(isDetailed), old(totalAmount), old(expenseLines)) == map[]
      ensures saved ==> !old(isDetailed) ==> old(totalAmount).Some?
      ensures saved ==>
                store.expenses == SortDesc(old(store.expenses) + [BuildExpense(old(store.restaurant).value.id,
                                     old(isDetailed), old(date), old(totalAmount), old(expenseLines), old(notes), stamp, now)],
                                   ExpenseDate)
      ensures saved ==> IsBlank(now) && Valid()
      ensures !saved ==> store.expenses == old(store.expenses)
      ensures !saved ==> errors == ExpenseErrors(isDetailed, totalAmount, expenseLines)
      ensures !saved ==> isDetailed == old(isDetailed) && date == old(date) && totalAmount == old(totalAmount)
                         && expenseLines == old(expenseLines) && notes == old(notes)
      ensures store.restaurant == old(store.restaurant) && store.revenues == old(store.revenues)
    {
      saved := Validate();
      if !saved {
        return;
      }
      ExpenseValidIff(isDetailed, totalAmount, expenseLines);
      var expense := BuildExpense(store.restaurant.value.id, isDetailed, date, totalAmount, expenseLines, notes, stamp, now);
      store.AddExpense(expense);
      isDetailed := false;
      date := now;
      totalAmount := None;
      expenseLines := Some([InitialExpenseLine]);
      notes := "";
      errors := map[];
    }
  }
}
