/** The daily recurring-transaction job: every task whose next run date has
    come gets one new transaction copied from its template transaction and, for
    the four known frequencies, a next run date counted from now. Instants are
    seconds; `now` is the job's clock reading. */
module Scheduler {
  import opened Wrappers
  import opened Seqs
  import opened Models
  import TransactionsCrud

  const SecondsPerDay := 86400
  const NotePrefix := "Recurring: "

  /** The days until the next run for each known frequency. */
  function IntervalDays(frequency: string): (days: Option<int>)
    ensures frequency == "daily" <==> days == Some(1)
    ensures frequency == "weekly" <==> days == Some(7)
    ensures frequency == "monthly" <==> days == Some(30)
    ensures frequency == "yearly" <==> days == Some(365)
  {
    if frequency == "daily" then Some(1)
    else if frequency == "weekly" then Some(7)
    else if frequency == "monthly" then Some(30)
    else if frequency == "yearly" then Some(365)
    else None
  }

  /** `next_run_date <= now`; a `NULL` date never compares true. */
  predicate Due(task: RecurringTransaction, now: int) {
    task.nextRunDate.Some? && task.nextRunDate.value <= now
  }

  function WithId(id: Option<nat>): Transaction -> bool {
    (t: Transaction) => id == Some(t.id)
  }

  /** `f"Recurring: {template.note}"`: a missing note prints as `None`. */
  function RecurringNote(note: Option<string>): (text: string)
    ensures NotePrefix <= text
    ensures note.Some? ==> text == NotePrefix + note.value
  {
    NotePrefix + (if note.Some? then note.value else "None")
  }

  /** The transaction a template produces: same owner, category, type and
      amount; prefixed note; dated now; no receipt; not deleted. */
  function Spawn(template: Transaction, id: nat, now: int): (t: Transaction)
    ensures t.id == id && t.userId == template.userId && t.categoryId == template.categoryId
    ensures t.txType == template.txType && t.amount == template.amount
    ensures t.note == Some(RecurringNote(template.note)) && t.date == Some(now)
    ensures t.receiptUrl == None && !t.isDeleted
  {
    Transaction(id, template.userId, template.categoryId, template.txType, template.amount,
                Some(RecurringNote(template.note)), Some(now), None, false)
  }

  /** The task after a run: counted from now, not from its old date; unchanged
      for a frequency the job does not know. */
  function Rescheduled(task: RecurringTransaction, now: int): (r: RecurringTransaction)
    ensures IntervalDays(task.frequency).Some? ==>
      r == task.(nextRunDate := Some(now + IntervalDays(task.frequency).value * SecondsPerDay))
    ensures IntervalDays(task.frequency).None? ==> r == task
  {
    match IntervalDays(task.frequency)
    case Some(days) => task.(nextRunDate := Some(now + days * SecondsPerDay))
    case None => task
  }

  /** One iteration of the job's loop, on the task and the transactions table. */
  function ProcessTask(task: RecurringTransaction, rows: seq<Transaction>, nextId: nat, now: int)
      : (r: (RecurringTransaction, seq<Transaction>, nat))
    ensures !Due(task, now) ==> r == (task, rows, nextId)
    ensures Due(task, now) && FindFirst(rows, WithId(task.templateId)).None? ==> r == (task, rows, nextId)
    ensures Due(task, now) && FindFirst(rows, WithId(task.templateId)).Some? ==>
      var template := rows[FindFirst(rows, WithId(task.templateId)).value];
      r == (Rescheduled(task, now), rows + [Spawn(template, nextId, now)], nextId + 1)
  {
    if !Due(task, now) then (task, rows, nextId)
    else match FindFirst(rows, WithId(task.templateId))
      case None => (task, rows, nextId)
      case Some(i) => (Rescheduled(task, now), rows + [Spawn(rows[i], nextId, now)], nextId + 1)
  }

  /** The first `k` iterations of the loop: the tasks processed so far, the
      transactions table and its next id. */
  function ProcessPrefix(tasks: seq<RecurringTransaction>, rows: seq<Transaction>, nextId: nat, now: int, k: nat)
      : (r: (seq<RecurringTransaction>, seq<Transaction>, nat))
    requires k <= |tasks|
    ensures |r.0| == k
  {
    if k == 0 then ([], rows, nextId)
    else
      var (done, rows1, next1) := ProcessPrefix(tasks, rows, nextId, now, k - 1);
      var (task, rows2, next2) := ProcessTask(tasks[k - 1], rows1, next1, now);
      (done + [task], rows2, next2)
  }

  /** The rows the first `k` iterations leave: the existing transactions stay
      as they were, and every added one has the next free id, is dated now, is
      not deleted and carries the recurring note. */
  lemma {:induction false} ProcessPrefixRows(tasks: seq<RecurringTransaction>, rows: seq<Transaction>, nextId: nat, now: int, k: nat)
    requires k <= |tasks|
    ensures var r := ProcessPrefix(tasks, rows, nextId, now, k);
      && |rows| <= |r.1| <= |rows| + k && r.1[..|rows|] == rows
      && r.2 == nextId + (|r.1| - |rows|)
      && (forall i :: |rows| <= i < |r.1| ==>
            r.1[i].id == nextId + (i - |rows|) && r.1[i].date == Some(now) && !r.1[i].isDeleted
            && r.1[i].note.Some? && NotePrefix <= r.1[i].note.value)
  {
    if k > 0 {
      ProcessPrefixRows(tasks, rows, nextId, now, k - 1);
      var p := ProcessPrefix(tasks, rows, nextId, now, k - 1);
      ProcessPrefixStep(tasks, rows, nextId, now, k - 1);
      ProcessTaskRows(tasks[k - 1], p.1, p.2, now);
      assert p.1[..|rows|] == rows;
    }
  }

  /** One iteration adds at most one row, after the existing ones, with the
      next free id. */
  lemma ProcessTaskRows(task: RecurringTransaction, rows: seq<Transaction>, nextId: nat, now: int)
    ensures var r := ProcessTask(task, rows, nextId, now);
      && (r.1 == rows || r.1 == rows + [r.1[|rows|]]) && r.2 == nextId + (|r.1| - |rows|)
      && (|r.1| > |rows| ==>
            r.1[|rows|].id == nextId && r.1[|rows|].date == Some(now) && !r.1[|rows|].isDeleted
            && r.1[|rows|].note.Some? && NotePrefix <= r.1[|rows|].note.value)
  {
  }

  /** The tasks after the first `k` iterations: each is kept or, when due,
      rescheduled, and one that was not due is kept. */
  lemma {:induction false} ProcessPrefixTasks(tasks: seq<RecurringTransaction>, rows: seq<Transaction>, nextId: nat, now: int, k: nat)
    requires k <= |tasks|
    ensures var r := ProcessPrefix(tasks, rows, nextId, now, k);
      && (forall j :: 0 <= j < k ==> r.0[j] == tasks[j] || (Due(tasks[j], now) && r.0[j] == Rescheduled(tasks[j], now)))
      && (forall j :: 0 <= j < k && !Due(tasks[j], now) ==> r.0[j] == tasks[j])
  {
    if k > 0 {
      ProcessPrefixTasks(tasks, rows, nextId, now, k - 1);
      var p := ProcessPrefix(tasks, rows, nextId, now, k - 1);
      ProcessPrefixStep(tasks, rows, nextId, now, k - 1);
      var step := ProcessTask(tasks[k - 1], p.1, p.2, now);
      var r := ProcessPrefix(tasks, rows, nextId, now, k);
      assert r.0 == p.0 + [step.0];
      forall j | 0 <= j < k
        ensures r.0[j] == tasks[j] || (Due(tasks[j], now) && r.0[j] == Rescheduled(tasks[j], now))
        ensures !Due(tasks[j], now) ==> r.0[j] == tasks[j]
      {
        if j < k - 1 {
          assert r.0[j] == p.0[j];
        } else {
          assert r.0[j] == step.0;
        }
      }
    }
  }

  /** The `recurring_transactions` table. */
  class RecurringTable {
    var rows: seq<RecurringTransaction>

    constructor (seed: seq<RecurringTransaction>)
      ensures rows == seed
    {
      rows := seed;
    }
  }

  /** `process_recurring_transactions`: one pass over the tasks, adding the
      spawned transactions to the table and rescheduling in place. */
  method ProcessRecurring(tasks: RecurringTable, txs: TransactionsCrud.TransactionTable, now: int)
    requires txs.Valid()
    modifies tasks, txs
    ensures txs.Valid()
    ensures (tasks.rows, txs.rows, txs.nextId) == ProcessPrefix(old(tasks.rows), old(txs.rows), old(txs.nextId), now, |old(tasks.rows)|)
  {
    ghost var start := tasks.rows;
    ghost var startRows := txs.rows;
    ghost var startId := txs.nextId;
    var i := 0;
    while i < |tasks.rows|
      invariant |tasks.rows| == |start| && 0 <= i <= |start|
      invariant tasks.rows[i..] == start[i..]
      invariant (tasks.rows[..i], txs.rows, txs.nextId) == ProcessPrefix(start, startRows, startId, now, i)
      invariant txs.Valid()
    {
      ghost var before := tasks.rows;
      assert before[i] == start[i];
      ProcessPrefixStep(start, startRows, startId, now, i);
      RunTask(tasks, txs, i, now);
      assert tasks.rows[..i + 1] == before[..i] + [tasks.rows[i]];
      assert tasks.rows[i + 1..] == before[i + 1..];
      i := i + 1;
    }
    assert tasks.rows[..i] == tasks.rows;
  }

  /** The body of the job's loop for the task at index `i`. */
  method RunTask(tasks: RecurringTable, txs: TransactionsCrud.TransactionTable, i: nat, now: int)
    requires i < |tasks.rows| && txs.Valid()
    modifies tasks, txs
    ensures txs.Valid()
    ensures |tasks.rows| == |old(tasks.rows)|
    ensures forall j :: 0 <= j < |tasks.rows| && j != i ==> tasks.rows[j] == old(tasks.rows[j])
    ensures (tasks.rows[i], txs.rows, txs.nextId) == ProcessTask(old(tasks.rows[i]), old(txs.rows), old(txs.nextId), now)
  {
    var task := tasks.rows[i];
    if Due(task, now) {
      var found := FindFirst(txs.rows, WithId(task.templateId));
      if found.Some? {
        var spawned := Spawn(txs.rows[found.value], txs.nextId, now);
        AppendFreshId(txs.rows, txs.nextId, spawned);
        txs.rows := txs.rows + [spawned];
        txs.nextId := txs.nextId + 1;
        tasks.rows := tasks.rows[i := Rescheduled(task, now)];
      }
    }
  }

  lemma ProcessPrefixStep(tasks: seq<RecurringTransaction>, rows: seq<Transaction>, nextId: nat, now: int, k: nat)
    requires k < |tasks|
    ensures var p := ProcessPrefix(tasks, rows, nextId, now, k);
      var step := ProcessTask(tasks[k], p.1, p.2, now);
      ProcessPrefix(tasks, rows, nextId, now, k + 1) == (p.0 + [step.0], step.1, step.2)
  {
  }

  /** A row whose id is the table's next id keeps the ids distinct. */
  lemma AppendFreshId(rows: seq<Transaction>, nextId: nat, t: Transaction)
    requires forall i, j :: 0 <= i < j < |rows| ==> rows[i].id != rows[j].id
    requires forall i :: 0 <= i < |rows| ==> rows[i].id < nextId
    requires t.id == nextId
    ensures var r := rows + [t];
      (forall i, j :: 0 <= i < j < |r| ==> r[i].id != r[j].id) && (forall i :: 0 <= i < |r| ==> r[i].id < nextId + 1)
  {
  }

  /** A task whose frequency the job does not know gets its transaction but
      stays due, so the next run spawns another. */
  lemma UnknownFrequencyStaysDue(task: RecurringTransaction, rows: seq<Transaction>, nextId: nat, now: int)
    requires Due(task, now) && IntervalDays(task.frequency).None?
    ensures Due(ProcessTask(task, rows, nextId, now).0, now)
  {
  }

  /** A processed task with a known frequency is no longer due at the same
      instant. */
  lemma KnownFrequencyIsNotDueAgain(task: RecurringTransaction, now: int)
    requires IntervalDays(task.frequency).Some?
    ensures !Due(Rescheduled(task, now), now)
  {
  }
}
