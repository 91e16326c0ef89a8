/** The two report endpoints: the reporting window they share, the income and
    expense totals, and the expense breakdown by category. Instants are
    seconds; the ISO datetime parser and the clock are inputs. */
module Reports {
  import opened Wrappers
  import opened Seqs
  import opened Models
  import Calendar

  const AllPeriod := "all"
  const SecondsPerDay := 86400

  /** `datetime.utcnow()`; `month` is 1-12 as in Python. */
  datatype UtcNow = UtcNow(year: int, month: int, day: int, hour: int, minute: int, second: int)

  datatype Window = Window(start: Option<int>, end: Option<int>)

  /** `datetime.fromisoformat` raised `ValueError` (a server error). */
  datatype BadDate = BadDate(text: string)

  function NowSeconds(now: UtcNow): int {
    Calendar.MakeDay(now.year, now.month - 1, now.day) * SecondsPerDay + now.hour * 3600 + now.minute * 60 + now.second
  }

  /** `now.replace(day=1, hour=0, minute=0, second=0, microsecond=0)` */
  function FirstOfMonth(now: UtcNow): int {
    Calendar.MakeDay(now.year, now.month - 1, 1) * SecondsPerDay
  }

  /** For a real clock reading, the start of the month is never after it, and
      lies less than `day` days before it. */
  lemma FirstOfMonthNotAfterNow(now: UtcNow)
    requires 1 <= now.day && 0 <= now.hour < 24 && 0 <= now.minute < 60 && 0 <= now.second < 60
    ensures FirstOfMonth(now) <= NowSeconds(now)
    ensures NowSeconds(now) - FirstOfMonth(now) < now.day * SecondsPerDay
  {
    assert Calendar.MakeDay(now.year, now.month - 1, now.day) == Calendar.MakeDay(now.year, now.month - 1, 1) + now.day - 1;
  }

  /** Without dates, every period but `all` reports on a window that opens at
      the start of the current month, before the clock reading, and has no end. */
  lemma DefaultWindowHoldsNow(period: Option<string>, now: UtcNow, parse: string -> Option<int>)
    requires 1 <= now.day && 0 <= now.hour < 24 && 0 <= now.minute < 60 && 0 <= now.second < 60
    requires period != Some(AllPeriod)
    ensures ReportWindow(None, None, period, now, parse) == Ok(Window(Some(FirstOfMonth(now)), None))
    ensures FirstOfMonth(now) <= NowSeconds(now) < FirstOfMonth(now) + now.day * SecondsPerDay
  {
    FirstOfMonthNotAfterNow(now);
  }

  /** The window both endpoints compute: a given start date wins; otherwise the
      first of the current month unless the period is `all` (so a missing
      period means this month); the end only when given. `parse` receives the
      raw query text: it stands for `fromisoformat` after every `Z` has been
      replaced by `+00:00`. */
  function ReportWindow(startDate: Option<string>, endDate: Option<string>, period: Option<string>,
                        now: UtcNow, parse: string -> Option<int>): (r: Result<Window, BadDate>)
    ensures r.Err? <==> (Truthy(startDate) && parse(startDate.value).None?) || (Truthy(endDate) && parse(endDate.value).None?)
    ensures r.Ok? && Truthy(startDate) ==> r.value.start == parse(startDate.value)
    ensures r.Ok? && !Truthy(startDate) ==> r.value.start == (if period == Some(AllPeriod) then None else Some(FirstOfMonth(now)))
    ensures r.Ok? ==> r.value.end == (if Truthy(endDate) then parse(endDate.value) else None)
  {
    if Truthy(startDate) && parse(startDate.value).None? then Err(BadDate(startDate.value))
    else if Truthy(endDate) && parse(endDate.value).None? then Err(BadDate(endDate.value))
    else
      var start := if Truthy(startDate) then parse(startDate.value)
                   else if period != Some(AllPeriod) then Some(FirstOfMonth(now))
                   else None;
      var end := if Truthy(endDate) then parse(endDate.value) else None;
      Ok(Window(start, end))
  }

  /** A query parameter's truthiness. */
  predicate Truthy(s: Option<string>) {
    s.Some? && s.value != ""
  }

  /** `date >= start` and `date <= end`; a `NULL` date fails any bound. */
  predicate InWindow(t: Transaction, w: Window) {
    (w.start.None? || (t.date.Some? && t.date.value >= w.start.value))
    && (w.end.None? || (t.date.Some? && t.date.value <= w.end.value))
  }

  /** The rows both reports count: the caller's, not deleted, inside the window. */
  predicate Counted(t: Transaction, userId: nat, w: Window) {
    t.userId == userId && !t.isDeleted && InWindow(t, w)
  }

  function TxAmount(t: Transaction): int {
    t.amount
  }

  function CountedOfType(userId: nat, w: Window, tt: TransactionType): Transaction -> bool {
    (t: Transaction) => Counted(t, userId, w) && t.txType == tt
  }

  /** The sum over the counted rows of one type, 0 for none. */
  function TypeTotal(txs: seq<Transaction>, userId: nat, w: Window, tt: TransactionType): int {
    SumBy(Filter(txs, CountedOfType(userId, w, tt)), TxAmount)
  }

  /** `GROUP BY type` with `SUM(amount)`: one row per type that has rows. */
  function TypeGroup(txs: seq<Transaction>, userId: nat, w: Window, tt: TransactionType): seq<(TransactionType, int)> {
    if Filter(txs, CountedOfType(userId, w, tt)) == [] then [] else [(tt, TypeTotal(txs, userId, w, tt))]
  }

  function TypeGroups(txs: seq<Transaction>, userId: nat, w: Window): (r: seq<(TransactionType, int)>)
    ensures forall i, j :: 0 <= i < j < |r| ==> r[i].0 != r[j].0
    ensures forall i :: 0 <= i < |r| ==> r[i].1 == TypeTotal(txs, userId, w, r[i].0)
  {
    TypeGroup(txs, userId, w, Income) + TypeGroup(txs, userId, w, Expense) + TypeGroup(txs, userId, w, Transfer)
  }

  /** A type without a group row has no counted rows, so its total is 0. */
  lemma TypeGroupsCover(txs: seq<Transaction>, userId: nat, w: Window, tt: TransactionType)
    ensures (exists i :: 0 <= i < |TypeGroups(txs, userId, w)| && TypeGroups(txs, userId, w)[i].0 == tt)
            || TypeTotal(txs, userId, w, tt) == 0
  {
    var r := TypeGroups(txs, userId, w);
    if Filter(txs, CountedOfType(userId, w, tt)) != [] {
      var a, b := |TypeGroup(txs, userId, w, Income)|, |TypeGroup(txs, userId, w, Expense)|;
      match tt
      case Income => assert r[0].0 == tt;
      case Expense => assert r[a].0 == tt;
      case Transfer => assert r[a + b].0 == tt;
    }
  }

  datatype Summary = Summary(totalIncome: int, totalExpenses: int, totalBalance: int)

  /** `get_summary`: the group rows go into a dictionary by type name; a
      missing type counts 0, and transfers count in neither total. */
  method GetSummary(txs: seq<Transaction>, userId: nat, w: Window) returns (s: Summary)
    ensures s.totalIncome == TypeTotal(txs, userId, w, Income)
    ensures s.totalExpenses == TypeTotal(txs, userId, w, Expense)
    ensures s.totalBalance == s.totalIncome - s.totalExpenses
  {
    var groups := TypeGroups(txs, userId, w);
    var summary: map<string, int> := map[];
    var i := 0;
    while i < |groups|
      invariant 0 <= i <= |groups|
      invariant forall tt :: TypeName(tt) in summary ==> summary[TypeName(tt)] == TypeTotal(txs, userId, w, tt)
      invariant forall tt :: TypeName(tt) !in summary ==> forall j :: 0 <= j < i ==> groups[j].0 != tt
    {
      summary := summary[TypeName(groups[i].0) := groups[i].1];
      i := i + 1;
    }
    TypeGroupsCover(txs, userId, w, Income);
    TypeGroupsCover(txs, userId, w, Expense);
    assert TypeName(Income) == "income" && TypeName(Expense) == "expense";
    var income := if "income" in summary then summary["income"] else 0;
    var expenses := if "expense" in summary then summary["expense"] else 0;
    s := Summary(income, expenses, income - expenses);
  }

  /** A joined row or a group of the breakdown query: category name and icon
      with an amount. */
  datatype CategoryAmount = CategoryAmount(name: string, icon: Option<string>, amount: int)

  function Amt(c: CategoryAmount): int {
    c.amount
  }

  function KeyOf(c: CategoryAmount): (string, Option<string>) {
    (c.name, c.icon)
  }

  function KeyIs(k: (string, Option<string>)): CategoryAmount -> bool {
    (c: CategoryAmount) => KeyOf(c) == k
  }

  /** The total amount under key `k`. */
  function AmountFor(rows: seq<CategoryAmount>, k: (string, Option<string>)): int {
    SumBy(Filter(rows, KeyIs(k)), Amt)
  }

  function CategoryById(cats: seq<Category>, id: nat): Option<Category> {
    var found := FindFirst(cats, (c: Category) => c.id == id);
    if found.Some? then Some(cats[found.value]) else None
  }

  /** `t` passes the breakdown query's `WHERE` and its inner join: a counted
      expense of the caller whose category row exists. */
  predicate JoinsCategory(cats: seq<Category>, userId: nat, w: Window, t: Transaction) {
    Counted(t, userId, w) && t.txType == Expense && CategoryById(cats, t.categoryId).Some?
  }

  function Joins(cats: seq<Category>, userId: nat, w: Window): Transaction -> bool {
    (t: Transaction) => JoinsCategory(cats, userId, w, t)
  }

  /** `row` is the joined row of `t`: its category's name and icon, and its amount. */
  predicate JoinsAs(cats: seq<Category>, userId: nat, w: Window, t: Transaction, row: CategoryAmount) {
    && JoinsCategory(cats, userId, w, t)
    && row == CategoryAmount(CategoryById(cats, t.categoryId).value.name,
                             CategoryById(cats, t.categoryId).value.icon, t.amount)
  }

  /** `t` joins under the category key `k`. */
  function JoinsUnder(cats: seq<Category>, userId: nat, w: Window, k: (string, Option<string>)): Transaction -> bool {
    (t: Transaction) => JoinsCategory(cats, userId, w, t)
      && (CategoryById(cats, t.categoryId).value.name, CategoryById(cats, t.categoryId).value.icon) == k
  }

  /** The inner join of the caller's counted expenses with their categories;
      an expense whose category row is gone drops out. */
  function Joined(txs: seq<Transaction>, cats: seq<Category>, userId: nat, w: Window): (r: seq<CategoryAmount>)
    ensures |r| == |Filter(txs, Joins(cats, userId, w))|
  {
    if txs == [] then []
    else
      var t := txs[0];
      var rest := Joined(txs[1..], cats, userId, w);
      var c := CategoryById(cats, t.categoryId);
      if Counted(t, userId, w) && t.txType == Expense && c.Some? then
        [CategoryAmount(c.value.name, c.value.icon, t.amount)] + rest
      else rest
  }

  /** A row is joined exactly when some transaction joins as that row. */
  lemma {:induction false} JoinedMembers(txs: seq<Transaction>, cats: seq<Category>, userId: nat, w: Window, row: CategoryAmount)
    ensures row in Joined(txs, cats, userId, w) <==> exists j :: 0 <= j < |txs| && JoinsAs(cats, userId, w, txs[j], row)
  {
    if txs != [] {
      JoinedMembers(txs[1..], cats, userId, w, row);
      if exists j :: 0 <= j < |txs| && JoinsAs(cats, userId, w, txs[j], row) {
        var j :| 0 <= j < |txs| && JoinsAs(cats, userId, w, txs[j], row);
        if j > 0 {
          assert txs[1..][j - 1] == txs[j];
        }
      }
      if exists j :: 0 <= j < |txs[1..]| && JoinsAs(cats, userId, w, txs[1..][j], row) {
        var j :| 0 <= j < |txs[1..]| && JoinsAs(cats, userId, w, txs[1..][j], row);
        assert txs[j + 1] == txs[1..][j];
      }
    }
  }

  /** The joined amount under a category key is the sum of the caller's
      counted expenses whose category has that key. */
  lemma {:induction false} JoinedAmountFor(txs: seq<Transaction>, cats: seq<Category>, userId: nat, w: Window, k: (string, Option<string>))
    ensures AmountFor(Joined(txs, cats, userId, w), k) == SumBy(Filter(txs, JoinsUnder(cats, userId, w, k)), TxAmount)
  {
    if txs != [] {
      JoinedAmountFor(txs[1..], cats, userId, w, k);
      assert txs == [txs[0]] + txs[1..];
      FilterSumCons(txs[0], txs[1..], JoinsUnder(cats, userId, w, k), TxAmount);
      var rest := Joined(txs[1..], cats, userId, w);
      if JoinsCategory(cats, userId, w, txs[0]) {
        var c := CategoryById(cats, txs[0].categoryId).value;
        FilterSumCons(CategoryAmount(c.name, c.icon, txs[0].amount), rest, KeyIs(k), Amt);
      }
    }
  }

  /** The joined rows total the caller's counted expenses that have a category. */
  lemma {:induction false} JoinedTotal(txs: seq<Transaction>, cats: seq<Category>, userId: nat, w: Window)
    ensures SumBy(Joined(txs, cats, userId, w), Amt) == SumBy(Filter(txs, Joins(cats, userId, w)), TxAmount)
  {
    if txs != [] {
      JoinedTotal(txs[1..], cats, userId, w);
      assert txs == [txs[0]] + txs[1..];
      FilterSumCons(txs[0], txs[1..], Joins(cats, userId, w), TxAmount);
    }
  }

  /** Adds one joined row to the groups: into its key's group, or as a new
      group at the end. */
  function AddTo(groups: seq<CategoryAmount>, row: CategoryAmount): (r: seq<CategoryAmount>)
    ensures |r| >= 1
  {
    if groups == [] then [row]
    else if KeyOf(groups[0]) == KeyOf(row) then [groups[0].(amount := groups[0].amount + row.amount)] + groups[1..]
    else [groups[0]] + AddTo(groups[1..], row)
  }

  predicate KeysDistinct(groups: seq<CategoryAmount>) {
    forall i, j :: 0 <= i < j < |groups| ==> KeyOf(groups[i]) != KeyOf(groups[j])
  }

  function Keys(groups: seq<CategoryAmount>): set<(string, Option<string>)> {
    set i | 0 <= i < |groups| :: KeyOf(groups[i])
  }

  /** `GROUP BY name, icon` with `SUM(amount)`, groups in order of first appearance. */
  function GroupRows(rows: seq<CategoryAmount>): (r: seq<CategoryAmount>)
    decreases |rows|
  {
    if rows == [] then [] else AddTo(GroupRows(rows[..|rows| - 1]), rows[|rows| - 1])
  }

  /** The keys of a sequence with one more group in front. */
  lemma ConsKeys(x: CategoryAmount, s: seq<CategoryAmount>)
    ensures Keys([x] + s) == {KeyOf(x)} + Keys(s)
    ensures KeysDistinct([x] + s) <==> KeysDistinct(s) && KeyOf(x) !in Keys(s)
  {
    var r := [x] + s;
    forall k | k in Keys(s) ensures k in Keys(r) {
      var i :| 0 <= i < |s| && KeyOf(s[i]) == k;
      assert r[i + 1] == s[i];
    }
    forall k | k in Keys(r) ensures k in {KeyOf(x)} + Keys(s) {
      var i :| 0 <= i < |r| && KeyOf(r[i]) == k;
      if i > 0 {
        assert r[i] == s[i - 1];
      }
    }
    assert KeyOf(r[0]) in Keys(r);
    if KeysDistinct(r) {
      forall i, j | 0 <= i < j < |s| ensures KeyOf(s[i]) != KeyOf(s[j]) {
        assert r[i + 1] == s[i] && r[j + 1] == s[j];
      }
      forall i | 0 <= i < |s| ensures KeyOf(s[i]) != KeyOf(x) {
        assert r[i + 1] == s[i];
      }
    }
    if KeysDistinct(s) && KeyOf(x) !in Keys(s) {
      forall i, j | 0 <= i < j < |r| ensures KeyOf(r[i]) != KeyOf(r[j]) {
        assert r[j] == s[j - 1];
        if i > 0 {
          assert r[i] == s[i - 1];
        }
      }
    }
  }

  lemma {:induction false} AddToKeys(groups: seq<CategoryAmount>, row: CategoryAmount)
    requires KeysDistinct(groups)
    ensures KeysDistinct(AddTo(groups, row))
    ensures Keys(AddTo(groups, row)) == Keys(groups) + {KeyOf(row)}
  {
    if groups == [] {
      ConsKeys(row, []);
      assert [row] + [] == [row];
    } else {
      var g, rest := groups[0], groups[1..];
      assert groups == [g] + rest;
      ConsKeys(g, rest);
      if KeyOf(g) == KeyOf(row) {
        var merged := g.(amount := g.amount + row.amount);
        ConsKeys(merged, rest);
      } else {
        AddToKeys(rest, row);
        ConsKeys(g, AddTo(rest, row));
      }
    }
  }

  lemma {:induction false} AddToAmount(groups: seq<CategoryAmount>, row: CategoryAmount, k: (string, Option<string>))
    ensures AmountFor(AddTo(groups, row), k) == AmountFor(groups, k) + (if KeyOf(row) == k then row.amount else 0)
    ensures SumBy(AddTo(groups, row), Amt) == SumBy(groups, Amt) + row.amount
  {
    if groups == [] {
    } else if KeyOf(groups[0]) == KeyOf(row) {
      var merged := groups[0].(amount := groups[0].amount + row.amount);
      assert AddTo(groups, row)[1..] == groups[1..];
      assert KeyOf(merged) == KeyOf(groups[0]);
    } else {
      AddToAmount(groups[1..], row, k);
      assert AddTo(groups, row)[1..] == AddTo(groups[1..], row);
    }
  }

  /** Grouping keeps each key's total and the grand total, and gives each key
      one group. */
  lemma {:induction false} GroupRowsSums(rows: seq<CategoryAmount>, k: (string, Option<string>))
    ensures AmountFor(GroupRows(rows), k) == AmountFor(rows, k)
    ensures SumBy(GroupRows(rows), Amt) == SumBy(rows, Amt)
    decreases |rows|
  {
    if rows != [] {
      var init, last := rows[..|rows| - 1], rows[|rows| - 1];
      assert rows == init + [last];
      GroupRowsSums(init, k);
      AddToAmount(GroupRows(init), last, k);
      FilterAppend(init, [last], KeyIs(k));
      SumByAppend(Filter(init, KeyIs(k)), Filter([last], KeyIs(k)), Amt);
      SumByAppend(init, [last], Amt);
    }
  }

  /** Every key of the joined rows has its group, and no other key has one. */
  lemma {:induction false} GroupRowsKeys(rows: seq<CategoryAmount>)
    ensures KeysDistinct(GroupRows(rows))
    ensures Keys(GroupRows(rows)) == Keys(rows)
    decreases |rows|
  {
    if rows != [] {
      var init, last := rows[..|rows| - 1], rows[|rows| - 1];
      GroupRowsKeys(init);
      AddToKeys(GroupRows(init), last);
      assert rows == init + [last];
      KeysSnoc(init, last);
    }
  }

  lemma KeysSnoc(init: seq<CategoryAmount>, last: CategoryAmount)
    ensures Keys(init + [last]) == Keys(init) + {KeyOf(last)}
  {
    var rows := init + [last];
    forall k | k in Keys(rows) ensures k in Keys(init) + {KeyOf(last)} {
      var i :| 0 <= i < |rows| && KeyOf(rows[i]) == k;
      if i < |init| {
        assert rows[i] == init[i];
      }
    }
    forall k | k in Keys(init) ensures k in Keys(rows) {
      var i :| 0 <= i < |init| && KeyOf(init[i]) == k;
      assert rows[i] == init[i];
    }
    assert KeyOf(rows[|init|]) in Keys(rows);
  }

  /** A category's share of the total: `amount / total * 100`, or 0 when the
      total is not positive. */
  datatype Percentage = Zero | Share(part: int, whole: int)

  datatype BreakdownEntry = BreakdownEntry(name: string, icon: Option<string>, amount: int, percentage: Percentage)

  /** The query's rows: the groups, largest amount first (ties in order of
      first appearance). */
  function BreakdownRows(txs: seq<Transaction>, cats: seq<Category>, userId: nat, w: Window): (r: seq<CategoryAmount>)
    ensures SortedDesc(r, Amt)
  {
    SortDescSorted(GroupRows(Joined(txs, cats, userId, w)), Amt);
    SortDesc(GroupRows(Joined(txs, cats, userId, w)), Amt)
  }

  /** `get_category_breakdown`: the total of the rows, then one entry per row
      with its share of that total. */
  method GetCategoryBreakdown(txs: seq<Transaction>, cats: seq<Category>, userId: nat, w: Window)
      returns (totalSpent: int, breakdown: seq<BreakdownEntry>)
    ensures totalSpent == SumBy(Joined(txs, cats, userId, w), Amt)
    ensures totalSpent == SumBy(Filter(txs, Joins(cats, userId, w)), TxAmount)
    ensures |breakdown| == |BreakdownRows(txs, cats, userId, w)|
    ensures forall i :: 0 <= i < |breakdown| ==>
      var row := BreakdownRows(txs, cats, userId, w)[i];
      breakdown[i] == BreakdownEntry(row.name, row.icon, row.amount, if totalSpent > 0 then Share(row.amount, totalSpent) else Zero)
    ensures forall i, j :: 0 <= i < j < |breakdown| ==> breakdown[i].amount >= breakdown[j].amount
    ensures forall i, j :: 0 <= i < j < |breakdown| ==> (breakdown[i].name, breakdown[i].icon) != (breakdown[j].name, breakdown[j].icon)
  {
    var rows := BreakdownRows(txs, cats, userId, w);
    totalSpent := SumBy(rows, Amt);
    BreakdownRowsFacts(txs, cats, userId, w);
    JoinedTotal(txs, cats, userId, w);
    breakdown := [];
    var i := 0;
    while i < |rows|
      invariant 0 <= i <= |rows| && |breakdown| == i
      invariant forall j :: 0 <= j < i ==>
        breakdown[j] == BreakdownEntry(rows[j].name, rows[j].icon, rows[j].amount, if totalSpent > 0 then Share(rows[j].amount, totalSpent) else Zero)
    {
      var percentage := if totalSpent > 0 then Share(rows[i].amount, totalSpent) else Zero;
      breakdown := breakdown + [BreakdownEntry(rows[i].name, rows[i].icon, rows[i].amount, percentage)];
      i := i + 1;
    }
  }

  /** The breakdown rows total what the joined rows total, and name each
      category key of the joined rows exactly once. */
  lemma BreakdownRowsFacts(txs: seq<Transaction>, cats: seq<Category>, userId: nat, w: Window)
    ensures SumBy(BreakdownRows(txs, cats, userId, w), Amt) == SumBy(Joined(txs, cats, userId, w), Amt)
    ensures KeysDistinct(BreakdownRows(txs, cats, userId, w))
    ensures Keys(BreakdownRows(txs, cats, userId, w)) == Keys(Joined(txs, cats, userId, w))
  {
    var joined := Joined(txs, cats, userId, w);
    var groups := GroupRows(joined);
    GroupRowsSums(joined, ("", None));
    SumBySortDesc(groups, Amt, Amt);
    GroupRowsKeys(joined);
    SortKeepsKeys(groups);
  }

  /** Each category's breakdown amount is the sum of its joined rows. */
  lemma BreakdownAmount(txs: seq<Transaction>, cats: seq<Category>, userId: nat, w: Window, k: (string, Option<string>))
    ensures AmountFor(BreakdownRows(txs, cats, userId, w), k) == AmountFor(Joined(txs, cats, userId, w), k)
    ensures AmountFor(BreakdownRows(txs, cats, userId, w), k) == SumBy(Filter(txs, JoinsUnder(cats, userId, w, k)), TxAmount)
  {
    JoinedAmountFor(txs, cats, userId, w, k);
    var groups := GroupRows(Joined(txs, cats, userId, w));
    GroupRowsSums(Joined(txs, cats, userId, w), k);
    SortKeepsAmounts(groups, k);
  }

  lemma {:induction false} InsertKeys(x: CategoryAmount, s: seq<CategoryAmount>)
    requires KeysDistinct(s) && KeyOf(x) !in Keys(s)
    ensures KeysDistinct(InsertDesc(x, s, Amt))
    ensures Keys(InsertDesc(x, s, Amt)) == Keys(s) + {KeyOf(x)}
  {
    if s == [] || Amt(x) >= Amt(s[0]) {
      ConsKeys(x, s);
    } else {
      var h, rest := s[0], s[1..];
      assert s == [h] + rest;
      ConsKeys(h, rest);
      InsertKeys(x, rest);
      assert InsertDesc(x, s, Amt) == [h] + InsertDesc(x, rest, Amt);
      ConsKeys(h, InsertDesc(x, rest, Amt));
    }
  }

  /** Sorting keeps the keys, and keeps them distinct. */
  lemma {:induction false} SortKeepsKeys(groups: seq<CategoryAmount>)
    requires KeysDistinct(groups)
    ensures KeysDistinct(SortDesc(groups, Amt))
    ensures Keys(SortDesc(groups, Amt)) == Keys(groups)
  {
    if groups != [] {
      var g, rest := groups[0], groups[1..];
      assert groups == [g] + rest;
      ConsKeys(g, rest);
      SortKeepsKeys(rest);
      InsertKeys(g, SortDesc(rest, Amt));
    }
  }

  /** Sorting does not change any key's total. */
  lemma SortKeepsAmounts(groups: seq<CategoryAmount>, k: (string, Option<string>))
    ensures AmountFor(SortDesc(groups, Amt), k) == AmountFor(groups, k)
  {
    FilterSumSortDesc(groups, Amt, KeyIs(k), Amt);
  }
}
