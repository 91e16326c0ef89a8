/** The transactions list screen's two derived values: the transactions of the
    active tab, newest first, and those transactions grouped under their day label. */
module TransactionList {
  import opened Wrappers
  import opened Seqs

  const AllTab := "all"

  /** A transaction as the list receives it; `date` is its instant in ms. */
  datatype Transaction = Transaction(id: int, txType: string, amount: int, date: int, categoryId: int)

  function DateOf(t: Transaction): int {
    t.date
  }

  predicate OnTab(t: Transaction, tab: string) {
    tab == AllTab || t.txType == tab
  }

  /** The filter callback `t => t.type === tab`. */
  function TypeIs(tab: string): Transaction -> bool {
    (t: Transaction) => t.txType == tab
  }

  /** The tab filter, before sorting. */
  function Kept(txs: seq<Transaction>, tab: string): (r: seq<Transaction>)
    ensures forall i :: 0 <= i < |r| ==> r[i] in txs && OnTab(r[i], tab)
    ensures forall i :: 0 <= i < |txs| && OnTab(txs[i], tab) ==> txs[i] in r
    ensures tab == AllTab ==> r == txs
  {
    if tab == AllTab then txs else Filter(txs, TypeIs(tab))
  }

  /** `filteredTransactions`: nothing without data; otherwise the tab's
      transactions sorted by date, newest first, by a stable sort of a copy. */
  function FilteredTransactions(data: Option<seq<Transaction>>, tab: string): (r: seq<Transaction>)
    ensures data.None? ==> r == []
    ensures SortedDesc(r, DateOf)
    ensures data.Some? ==> multiset(r) == multiset(Kept(data.value, tab))
    ensures data.Some? ==> forall d :: WithKey(r, DateOf, d) == WithKey(Kept(data.value, tab), DateOf, d)
  {
    match data
    case None => []
    case Some(txs) =>
      SortDescFacts(Kept(txs, tab), DateOf);
      SortDesc(Kept(txs, tab), DateOf)
  }

  /** A transaction is listed exactly when it is in the data and on the tab, and
      as often as it occurs there. */
  lemma FilteredMembership(txs: seq<Transaction>, tab: string, t: Transaction)
    ensures multiset(FilteredTransactions(Some(txs), tab))[t] == if OnTab(t, tab) then multiset(txs)[t] else 0
    ensures t in FilteredTransactions(Some(txs), tab) <==> t in txs && OnTab(t, tab)
  {
    if tab != AllTab {
      FilterMultiset(txs, TypeIs(tab), t);
    }
    assert t in FilteredTransactions(Some(txs), tab) <==> multiset(FilteredTransactions(Some(txs), tab))[t] > 0;
  }

  /** The transactions of `txs` whose day label is `day`, in order. */
  function OnDay(txs: seq<Transaction>, dayLabel: int -> string, day: string): (r: seq<Transaction>)
    ensures |r| <= |txs|
  {
    if txs == [] then []
    else if dayLabel(txs[0].date) == day then [txs[0]] + OnDay(txs[1..], dayLabel, day)
    else OnDay(txs[1..], dayLabel, day)
  }

  /** Each transaction is in the group of its own day and in no other. */
  lemma {:induction false} OnDayMembers(txs: seq<Transaction>, dayLabel: int -> string, day: string, t: Transaction)
    ensures t in OnDay(txs, dayLabel, day) <==> t in txs && dayLabel(t.date) == day
  {
    if txs != [] {
      OnDayMembers(txs[1..], dayLabel, day, t);
      assert t in txs <==> t == txs[0] || t in txs[1..];
    }
  }

  lemma {:induction false} OnDayAppend(txs: seq<Transaction>, tx: Transaction, dayLabel: int -> string, day: string)
    ensures OnDay(txs + [tx], dayLabel, day) == OnDay(txs, dayLabel, day) + (if dayLabel(tx.date) == day then [tx] else [])
  {
    if txs != [] {
      assert (txs + [tx])[1..] == txs[1..] + [tx];
      OnDayAppend(txs[1..], tx, dayLabel, day);
    }
  }

  /** `groups` holds, under each day label of `prefix`, that day's
      transactions in order, and `days` lists the labels once each. */
  ghost predicate Grouped(prefix: seq<Transaction>, dayLabel: int -> string,
                          groups: map<string, seq<Transaction>>, days: seq<string>) {
    && (forall day :: day in groups ==> groups[day] == OnDay(prefix, dayLabel, day) && groups[day] != [])
    && (forall j :: 0 <= j < |prefix| ==> dayLabel(prefix[j].date) in groups)
    && (forall day :: day in groups <==> day in days)
    && (forall a, b :: 0 <= a < b < |days| ==> days[a] != days[b])
  }

  /** Adding a transaction to the group of a day already seen keeps the
      grouping exact. */
  lemma GroupExtend(prefix: seq<Transaction>, tx: Transaction, dayLabel: int -> string,
                    groups: map<string, seq<Transaction>>, days: seq<string>)
    requires Grouped(prefix, dayLabel, groups, days) && dayLabel(tx.date) in groups
    ensures Grouped(prefix + [tx], dayLabel, groups[dayLabel(tx.date) := groups[dayLabel(tx.date)] + [tx]], days)
  {
    var day := dayLabel(tx.date);
    var g := groups[day := groups[day] + [tx]];
    GroupedAppend(prefix, tx, dayLabel, groups, g);
  }

  /** Opening the group of a new day with its first transaction keeps the
      grouping exact. */
  lemma GroupOpen(prefix: seq<Transaction>, tx: Transaction, dayLabel: int -> string,
                  groups: map<string, seq<Transaction>>, days: seq<string>)
    requires Grouped(prefix, dayLabel, groups, days) && dayLabel(tx.date) !in groups
    ensures Grouped(prefix + [tx], dayLabel, groups[dayLabel(tx.date) := [tx]], days + [dayLabel(tx.date)])
  {
    var day := dayLabel(tx.date);
    OnDayEmpty(prefix, dayLabel, day);
    GroupedAppend(prefix, tx, dayLabel, groups, groups[day := [tx]]);
    var ds := days + [day];
    forall a, b | 0 <= a < b < |ds|
      ensures ds[a] != ds[b]
    {
      if b < |days| {
        assert ds[a] == days[a] && ds[b] == days[b];
      } else {
        assert ds[a] == days[a] && ds[b] == day;
      }
    }
  }

  /** A day none of whose transactions is in `txs` has an empty group. */
  lemma OnDayEmpty(txs: seq<Transaction>, dayLabel: int -> string, day: string)
    requires forall j :: 0 <= j < |txs| ==> dayLabel(txs[j].date) != day
    ensures OnDay(txs, dayLabel, day) == []
  {
    if OnDay(txs, dayLabel, day) != [] {
      var t := OnDay(txs, dayLabel, day)[0];
      OnDayMembers(txs, dayLabel, day, t);
    }
  }

  /** The group and coverage half of `Grouped` after appending `tx`, for a map
      that adds `tx` to its day's group. */
  lemma GroupedAppend(prefix: seq<Transaction>, tx: Transaction, dayLabel: int -> string,
                      groups: map<string, seq<Transaction>>, g: map<string, seq<Transaction>>)
    requires forall d :: d in groups ==> groups[d] == OnDay(prefix, dayLabel, d)
    requires forall j :: 0 <= j < |prefix| ==> dayLabel(prefix[j].date) in groups
    requires g.Keys == groups.Keys + {dayLabel(tx.date)}
    requires forall d :: d in g ==> g[d] == OnDay(prefix, dayLabel, d) + (if d == dayLabel(tx.date) then [tx] else [])
    ensures forall d :: d in g ==> g[d] == OnDay(prefix + [tx], dayLabel, d)
    ensures forall j :: 0 <= j < |prefix + [tx]| ==> dayLabel((prefix + [tx])[j].date) in g
  {
    forall d | d in g
      ensures g[d] == OnDay(prefix + [tx], dayLabel, d)
    {
      OnDayAppend(prefix, tx, dayLabel, d);
    }
    forall j | 0 <= j < |prefix + [tx]|
      ensures dayLabel((prefix + [tx])[j].date) in g
    {
      if j < |prefix| {
        assert (prefix + [tx])[j] == prefix[j];
      }
    }
  }

  /** `groupedTransactions`: one group per day label that occurs, holding that
      day's transactions in list order; `days` is the groups' key order. */
  method GroupByDay(txs: seq<Transaction>, dayLabel: int -> string)
      returns (groups: map<string, seq<Transaction>>, days: seq<string>)
    ensures forall day :: day in groups ==> groups[day] == OnDay(txs, dayLabel, day) && groups[day] != []
    ensures forall i :: 0 <= i < |txs| ==> dayLabel(txs[i].date) in groups
    ensures forall i, day :: 0 <= i < |txs| && day in groups ==>
      (txs[i] in groups[day] <==> day == dayLabel(txs[i].date))
    ensures forall day :: day in groups <==> day in days
    ensures forall i, j :: 0 <= i < j < |days| ==> days[i] != days[j]
  {
    groups, days := map[], [];
    var i := 0;
    while i < |txs|
      invariant 0 <= i <= |txs|
      invariant Grouped(txs[..i], dayLabel, groups, days)
    {
      var tx := txs[i];
      var day := dayLabel(tx.date);
      assert txs[..i + 1] == txs[..i] + [tx];
      if day !in groups {
        GroupOpen(txs[..i], tx, dayLabel, groups, days);
        groups := groups[day := [tx]];
        days := days + [day];
      } else {
        GroupExtend(txs[..i], tx, dayLabel, groups, days);
        groups := groups[day := groups[day] + [tx]];
      }
      i := i + 1;
    }
    assert txs[..i] == txs;
    GroupedFacts(txs, dayLabel, groups, days);
  }

  /** A complete grouping puts each transaction in its own day's group and in
      no other. */
  lemma GroupedFacts(txs: seq<Transaction>, dayLabel: int -> string,
                     groups: map<string, seq<Transaction>>, days: seq<string>)
    requires Grouped(txs, dayLabel, groups, days)
    ensures forall i, day :: 0 <= i < |txs| && day in groups ==>
      (txs[i] in groups[day] <==> day == dayLabel(txs[i].date))
  {
    forall j, day | 0 <= j < |txs| && day in groups
      ensures txs[j] in groups[day] <==> day == dayLabel(txs[j].date)
    {
      OnDayMembers(txs, dayLabel, day, txs[j]);
    }
  }
}
