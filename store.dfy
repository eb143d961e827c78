/** The application state of lib/store.ts: the configured restaurant and the
    lists of revenue and expense records, with the operations that replace
    them.  Each list is kept newest first: adding a record re-sorts the list
    by date, descending, with a stable sort.  The clock reading stamped on
    an updated record is a parameter. */
module Store {
  import opened Types
  import opened Sequences

  /** `Partial<DailyRevenue>`: every field may be absent.  A field that may
      itself be undefined (`notes`) is present as `Some(None)` when the patch
      clears it. */
  datatype RevenuePatch = RevenuePatch(
    id: Option<string>,
    restaurantId: Option<string>,
    date: Option<int>,
    totalAmount: Option<real>,
    paymentMethods: Option<seq<PaymentLine>>,
    notes: Option<Option<string>>,
    createdAt: Option<int>,
    updatedAt: Option<int>)

  /** `Partial<DailyExpense>`. */
  datatype ExpensePatch = ExpensePatch(
    id: Option<string>,
    restaurantId: Option<string>,
    date: Option<int>,
    totalAmount: Option<real>,
    isDetailed: Option<bool>,
    expenseLines: Option<Option<seq<ExpenseLine>>>,
    notes: Option<Option<string>>,
    createdAt: Option<int>,
    updatedAt: Option<int>)

  function Pick<T>(update: Option<T>, current: T): T
  {
    if update.Some? then update.value else current
  }

  const NoRevenueChange := RevenuePatch(None, None, None, None, None, None, None, None)
  const NoExpenseChange := ExpensePatch(None, None, None, None, None, None, None, None, None)

  /** `{ ...r, ...updates, updatedAt: now }`: the fields present in the
      patch replace those of the record, and the update time is always the
      clock reading, whatever the patch says. */
  function PatchRevenue(r: DailyRevenue, u: RevenuePatch, now: int): (p: DailyRevenue)
    ensures p.updatedAt == now
    ensures u.id.Some? ==> p.id == u.id.value
    ensures u.id.None? ==> p.id == r.id
    ensures u.restaurantId.Some? ==> p.restaurantId == u.restaurantId.value
    ensures u.restaurantId.None? ==> p.restaurantId == r.restaurantId
    ensures u.date.Some? ==> p.date == u.date.value
    ensures u.date.None? ==> p.date == r.date
    ensures u.totalAmount.Some? ==> p.totalAmount == u.totalAmount.value
    ensures u.totalAmount.None? ==> p.totalAmount == r.totalAmount
    ensures u.paymentMethods.Some? ==> p.paymentMethods == u.paymentMethods.value
    ensures u.paymentMethods.None? ==> p.paymentMethods == r.paymentMethods
    ensures u.notes.Some? ==> p.notes == u.notes.value
    ensures u.notes.None? ==> p.notes == r.notes
    ensures u.createdAt.Some? ==> p.createdAt == u.createdAt.value
    ensures u.createdAt.None? ==> p.createdAt == r.createdAt
  {
    DailyRevenue(Pick(u.id, r.id), Pick(u.restaurantId, r.restaurantId), Pick(u.date, r.date),
                 Pick(u.totalAmount, r.totalAmount), Pick(u.paymentMethods, r.paymentMethods),
                 Pick(u.notes, r.notes), Pick(u.createdAt, r.createdAt), now)
  }

  /** An empty patch changes nothing but the update time. */
  lemma EmptyRevenuePatch(r: DailyRevenue, now: int)
    ensures PatchRevenue(r, NoRevenueChange, now) == r.(updatedAt := now)
  {
  }

  /** Applying the same patch twice at the same time is applying it once. */
  lemma RevenuePatchIdempotent(r: DailyRevenue, u: RevenuePatch, now: int)
    ensures PatchRevenue(PatchRevenue(r, u, now), u, now) == PatchRevenue(r, u, now)
  {
  }

  function PatchExpense(e: DailyExpense, u: ExpensePatch, now: int): (p: DailyExpense)
    ensures p.updatedAt == now
    ensures u.id.Some? ==> p.id == u.id.value
    ensures u.id.None? ==> p.id == e.id
    ensures u.restaurantId.Some? ==> p.restaurantId == u.restaurantId.value
    ensures u.restaurantId.None? ==> p.restaurantId == e.restaurantId
    ensures u.date.Some? ==> p.date == u.date.value
    ensures u.date.None? ==> p.date == e.date
    ensures u.totalAmount.Some? ==> p.totalAmount == u.totalAmount.value
    ensures u.totalAmount.None? ==> p.totalAmount == e.totalAmount
    ensures u.isDetailed.Some? ==> p.isDetailed == u.isDetailed.value
    ensures u.isDetailed.None? ==> p.isDetailed == e.isDetailed
    ensures u.expenseLines.Some? ==> p.expenseLines == u.expenseLines.value
    ensures u.expenseLines.None? ==> p.expenseLines == e.expenseLines
    ensures u.notes.Some? ==> p.notes == u.notes.value
    ensures u.notes.None? ==> p.notes == e.notes
    ensures u.createdAt.Some? ==> p.createdAt == u.createdAt.value
    ensures u.createdAt.None? ==> p.createdAt == e.createdAt
  {
    DailyExpense(Pick(u.id, e.id), Pick(u.restaurantId, e.restaurantId), Pick(u.date, e.date),
                 Pick(u.totalAmount, e.totalAmount), Pick(u.isDetailed, e.isDetailed),
                 Pick(u.expenseLines, e.expenseLines), Pick(u.notes, e.notes),
                 Pick(u.createdAt, e.createdAt), now)
  }

  lemma EmptyExpensePatch(e: DailyExpense, now: int)
    ensures PatchExpense(e, NoExpenseChange, now) == e.(updatedAt := now)
  {
  }

  lemma ExpensePatchIdempotent(e: DailyExpense, u: ExpensePatch, now: int)
    ensures PatchExpense(PatchExpense(e, u, now), u, now) == PatchExpense(e, u, now)
  {
  }

  /** The tests "has identifier `id`" and "has another identifier". */
  function IdIs<T>(idOf: T -> string, id: string): T -> bool
  {
    x => idOf(x) == id
  }

  function IdIsNot<T>(idOf: T -> string, id: string): T -> bool
  {
    x => idOf(x) != id
  }

  /** The test "dated from `startDate` to `endDate`, both included". */
  function InDateRange<T>(date: T -> int, startDate: int, endDate: int): T -> bool
  {
    x => startDate <= date(x) <= endDate
  }

  /** The list after `[...xs, x].sort(byDateDescending)`: sorted newest
      first, holding exactly the old records and `x`, and within each date
      the old records in their old order followed by `x`. */
  lemma {:induction false} AddedSorted<T(!new)>(xs: seq<T>, x: T, date: T -> int)
    ensures SortedDesc(SortDesc(xs + [x], date), date)
    ensures multiset(SortDesc(xs + [x], date)) == multiset(xs) + multiset{x}
    ensures forall d :: Filter(SortDesc(xs + [x], date), HasKey(date, d))
                     == Filter(xs, HasKey(date, d)) + (if date(x) == d then [x] else [])
  {
    SortDescSorted(xs + [x], date);
    SortDescPermutes(xs + [x], date);
    forall d ensures Filter(SortDesc(xs + [x], date), HasKey(date, d))
                  == Filter(xs, HasKey(date, d)) + (if date(x) == d then [x] else [])
    {
      SortDescStable(xs + [x], date, d);
      FilterAppend(xs, [x], HasKey(date, d));
      assert [x][..0] == [];
    }
  }

  /** Adding to a list that is already newest first only inserts: the other
      records stay where they were relative to each other. */
  lemma {:induction false} AddToSorted<T>(xs: seq<T>, x: T, date: T -> int)
    requires SortedDesc(xs, date)
    ensures SortDesc(xs + [x], date) == InsertDesc(xs, x, date)
  {
    assert (xs + [x])[..|xs|] == xs;
    SortDescOfSorted(xs, date);
  }

  /** A record dated no later than every record of a sorted list is
      appended at its end. */
  lemma {:induction false} AddOldest<T>(xs: seq<T>, x: T, date: T -> int)
    requires SortedDesc(xs, date)
    requires forall i :: 0 <= i < |xs| ==> date(xs[i]) >= date(x)
    ensures SortDesc(xs + [x], date) == xs + [x]
  {
    AddToSorted(xs, x, date);
    InsertAtEnd(xs, x, date);
  }

  /** Deleting a record by its identifier undoes adding it, when no other
      record shares that identifier: what remains is the old list, sorted. */
  lemma {:induction false} DeleteUndoesAdd<T(!new)>(xs: seq<T>, x: T, date: T -> int, idOf: T -> string)
    requires forall i :: 0 <= i < |xs| ==> idOf(xs[i]) != idOf(x)
    ensures Filter(SortDesc(xs + [x], date), IdIsNot(idOf, idOf(x))) == SortDesc(xs, date)
  {
    var p := IdIsNot(idOf, idOf(x));
    assert (xs + [x])[..|xs|] == xs;
    FilterInsertDescRejected(SortDesc(xs, date), x, date, p);
    var s := SortDesc(xs, date);
    SortDescPermutes(xs, date);
    forall i | 0 <= i < |s| ensures p(s[i]) {
      assert s[i] in multiset(s);
      assert s[i] in xs;
    }
    FilterAllPass(s, p);
  }

  /** What deleting by identifier leaves, for any list: every record with
      another identifier, each as often as before, and nothing else; a list
      without that identifier is left as it is. */
  lemma {:induction false} DeleteContents<T(!new)>(xs: seq<T>, idOf: T -> string, id: string)
    ensures forall x :: x in Filter(xs, IdIsNot(idOf, id)) <==> x in xs && idOf(x) != id
    ensures forall x :: idOf(x) != id ==> multiset(Filter(xs, IdIsNot(idOf, id)))[x] == multiset(xs)[x]
    ensures (forall i :: 0 <= i < |xs| ==> idOf(xs[i]) != id) ==> Filter(xs, IdIsNot(idOf, id)) == xs
  {
    var keep := IdIsNot(idOf, id);
    FilterMultiset(xs, keep);
    if forall i :: 0 <= i < |xs| ==> idOf(xs[i]) != id {
      forall i | 0 <= i < |xs| ensures keep(xs[i]) {
      }
      FilterAllPass(xs, keep);
    }
  }

  /** What the date-range queries return, for any list: the records of the
      range, each as often as the list holds it, and nothing else. */
  lemma {:induction false} DateRangeContents<T(!new)>(xs: seq<T>, date: T -> int, startDate: int, endDate: int)
    ensures forall x :: x in Filter(xs, InDateRange(date, startDate, endDate))
                    <==> x in xs && startDate <= date(x) <= endDate
    ensures forall x :: multiset(Filter(xs, InDateRange(date, startDate, endDate)))[x]
                     == if startDate <= date(x) <= endDate then multiset(xs)[x] else 0
  {
    FilterMultiset(xs, InDateRange(date, startDate, endDate));
  }

  class AppStore {
    var restaurant: Option<Restaurant>
    var revenues: seq<DailyRevenue>
    var expenses: seq<DailyExpense>

    /** The initial state: no restaurant, no records. */
    constructor ()
      ensures restaurant == None && revenues == [] && expenses == []
    {
      restaurant := None;
      revenues := [];
      expenses := [];
    }

    method SetRestaurant(r: Restaurant)
      modifies this
      ensures restaurant == Some(r)
      ensures revenues == old(revenues) && expenses == old(expenses)
    {
      restaurant := Some(r);
    }

    method AddRevenue(revenue: DailyRevenue)
      modifies this
      ensures revenues == SortDesc(old(revenues) + [revenue], RevenueDate)
      ensures SortedDesc(revenues, RevenueDate)
      ensures multiset(revenues) == multiset(old(revenues)) + multiset{revenue}
      ensures forall d :: Filter(revenues, HasKey(RevenueDate, d))
                       == Filter(old(revenues), HasKey(RevenueDate, d)) + (if revenue.date == d then [revenue] else [])
      ensures restaurant == old(restaurant) && expenses == old(expenses)
    {
      AddedSorted(revenues, revenue, RevenueDate);
      revenues := SortDesc(revenues + [revenue], RevenueDate);
    }

    /** Every record with identifier `id` gets the patch and the update
      time; the others are left as they are, in place. */
    method UpdateRevenue(id: string, updates: RevenuePatch, now: int)
      modifies this
      ensures |revenues| == |old(revenues)|
      ensures forall i :: 0 <= i < |revenues| && old(revenues)[i].id == id ==>
                revenues[i] == PatchRevenue(old(revenues)[i], updates, now)
      ensures forall i :: 0 <= i < |revenues| && old(revenues)[i].id != id ==> revenues[i] == old(revenues)[i]
      ensures (forall i :: 0 <= i < |old(revenues)| ==> old(revenues)[i].id != id) ==> revenues == old(revenues)
      ensures restaurant == old(restaurant) && expenses == old(expenses)
    {
      revenues := MapWhere(revenues, IdIs(RevenueId, id), r => PatchRevenue(r, updates, now));
    }

    /** Every record with identifier `id` is removed; the others keep their
      order. */
    method DeleteRevenue(id: string)
      modifies this
      ensures revenues == Filter(old(revenues), IdIsNot(RevenueId, id))
      ensures forall r :: r in revenues <==> r in old(revenues) && r.id != id
      ensures forall r: DailyRevenue :: r.id != id ==> multiset(revenues)[r] == multiset(old(revenues))[r]
      ensures (forall i :: 0 <= i < |old(revenues)| ==> old(revenues)[i].id != id) ==> revenues == old(revenues)
      ensures restaurant == old(restaurant) && expenses == old(expenses)
    {
      DeleteContents(revenues, RevenueId, id);
      revenues := Filter(revenues, IdIsNot(RevenueId, id));
    }

    /** The records dated from `startDate` to `endDate`, both included, in
      list order. */
    function RevenuesByDateRange(startDate: int, endDate: int): (r: seq<DailyRevenue>)
      reads this
      ensures forall x :: x in r <==> x in revenues && startDate <= x.date <= endDate
      ensures forall x: DailyRevenue :: startDate <= x.date <= endDate ==> multiset(r)[x] == multiset(revenues)[x]
      ensures IsSubsequence(r, revenues)
    {
      DateRangeContents(revenues, RevenueDate, startDate, endDate);
      FilterSubsequence(revenues, InDateRange(RevenueDate, startDate, endDate));
      Filter(revenues, InDateRange(RevenueDate, startDate, endDate))
    }

    method AddExpense(expense: DailyExpense)
      modifies this
      ensures expenses == SortDesc(old(expenses) + [expense], ExpenseDate)
      ensures SortedDesc(expenses, ExpenseDate)
      ensures multiset(expenses) == multiset(old(expenses)) + multiset{expense}
      ensures forall d :: Filter(expenses, HasKey(ExpenseDate, d))
                       == Filter(old(expenses), HasKey(ExpenseDate, d)) + (if expense.date == d then [expense] else [])
      ensures restaurant == old(restaurant) && revenues == old(revenues)
    {
      AddedSorted(expenses, expense, ExpenseDate);
      expenses := SortDesc(expenses + [expense], ExpenseDate);
    }

    method UpdateExpense(id: string, updates: ExpensePatch, now: int)
      modifies this
      ensures |expenses| == |old(expenses)|
      ensures forall i :: 0 <= i < |expenses| && old(expenses)[i].id == id ==>
                expenses[i] == PatchExpense(old(expenses)[i], updates, now)
      ensures forall i :: 0 <= i < |expenses| && old(expenses)[i].id != id ==> expenses[i] == old(expenses)[i]
      ensures (forall i :: 0 <= i < |old(expenses)| ==> old(expenses)[i].id != id) ==> expenses == old(expenses)
      ensures restaurant == old(restaurant) && revenues == old(revenues)
    {
      expenses := MapWhere(expenses, IdIs(ExpenseId, id), e => PatchExpense(e, updates, now));
    }

    method DeleteExpense(id: string)
      modifies this
      ensures expenses == Filter(old(expenses), IdIsNot(ExpenseId, id))
      ensures forall e :: e in expenses <==> e in old(expenses) && e.id != id
      ensures forall e: DailyExpense :: e.id != id ==> multiset(expenses)[e] == multiset(old(expenses))[e]
      ensures (forall i :: 0 <= i < |old(expenses)| ==> old(expenses)[i].id != id) ==> expenses == old(expenses)
      ensures restaurant == old(restaurant) && revenues == old(revenues)
    {
      DeleteContents(expenses, ExpenseId, id);
      expenses := Filter(expenses, IdIsNot(ExpenseId, id));
    }

    function ExpensesByDateRange(startDate: int, endDate: int): (r: seq<DailyExpense>)
      reads this
      ensures forall x :: x in r <==> x in expenses && startDate <= x.date <= endDate
      ensures forall x: DailyExpense :: startDate <= x.date <= endDate ==> multiset(r)[x] == multiset(expenses)[x]
      ensures IsSubsequence(r, expenses)
    {
      DateRangeContents(expenses, ExpenseDate, startDate, endDate);
      FilterSubsequence(expenses, InDateRange(ExpenseDate, startDate, endDate));
      Filter(expenses, InDateRange(ExpenseDate, startDate, endDate))
    }

    /** Back to the initial state. */
    method ResetStore()
      modifies this
      ensures restaurant == None && revenues == [] && expenses == []
    {
      restaurant := None;
      revenues := [];
      expenses := [];
    }
  }
}
