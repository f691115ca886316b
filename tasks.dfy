/**
 * `fetchTasks`, the loader of the Notaría, Tubos and Fisio sheets: each row
 * with an activity, a `d/m/y` date and the status "no realizado" becomes a
 * task whose people are found by `extractIdsFromCell` in the assignee column.
 */
module Tasks {
  import opened Wrappers
  import opened Seqs
  import opened Text
  import opened Sorting
  import opened Dates
  import opened Names
  import opened Rows

  /** `{ actividad, ids, fecha }`. */
  datatype Task = Task(actividad: string, ids: seq<string>, fecha: Date)

  /** The `colAct, colEnc, colDate, colStatus` arguments. */
  datatype Columns = Columns(act: nat, enc: nat, date: nat, status: nat)

  /** The columns the Notaría and Tubos sheets are read with. */
  const NotariaColumns := Columns(0, 6, 8, 14)
  const TubosColumns := Columns(0, 6, 8, 14)
  /** The columns of the Fisio sheet. */
  const FisioColumns := Columns(0, 8, 10, 16)

  function Max(a: nat, b: nat): nat {
    if a < b then b else a
  }

  /** `Math.max(colAct, colEnc, colDate, colStatus) + 1`: the padded width. */
  function Width(c: Columns): (w: nat)
    ensures c.act < w && c.enc < w && c.date < w && c.status < w
  {
    Max(Max(c.act, c.enc), Max(c.date, c.status)) + 1
  }

  function FechaOf(t: Task): Date {
    t.fecha
  }

  /** `new Date(y, m - 1, d)` from the parts of `'d/m/y'`, each read with `parseInt`. */
  function DateOfParts(d: string, m: string, y: string): Date {
    MakeDate(ParseInt(y), ParseInt(m), ParseInt(d))
  }

  /** One pass of the loop body: the task a row yields, or `None` where a `continue` skips it. */
  function TaskOfRow(row: seq<string>, c: Columns, m: Mapping): Option<Task>
    requires WellFormed(m)
  {
    var r := Pad(row, Width(c));
    var act := Trim(r[c.act]);
    var parts := Split(r[c.date], '/');
    if act == "" || |parts| != 3 || !StatusOpen(r[c.status]) then None
    else Some(Task(act, ExtractIds(r[c.enc], m), DateOfParts(parts[0], parts[1], parts[2])))
  }

  /**
   * A row yields a task exactly when its trimmed activity is non-empty, its
   * untrimmed date cell has exactly three `/`-parts and its status is open;
   * the task then holds the trimmed activity, the ids found in the assignee
   * cell and the date of the three parts. Cells past the end of the row read
   * as empty.
   */
  lemma TaskOfRowAccepts(row: seq<string>, c: Columns, m: Mapping)
    requires WellFormed(m)
    ensures var parts := Split(Cell(row, c.date), '/');
            TaskOfRow(row, c, m).Some? <==>
              Trim(Cell(row, c.act)) != "" && |parts| == 3 && StatusOpen(Cell(row, c.status))
    ensures var parts := Split(Cell(row, c.date), '/');
            TaskOfRow(row, c, m).Some? ==>
              TaskOfRow(row, c, m).value
              == Task(Trim(Cell(row, c.act)), ExtractIds(Cell(row, c.enc), m), DateOfParts(parts[0], parts[1], parts[2]))
  {
    PadCells(row, Width(c));
  }

  /** The tasks of `rows`, in row order. */
  function Accepted(rows: seq<seq<string>>, c: Columns, m: Mapping): seq<Task>
    requires WellFormed(m)
  {
    if rows == [] then []
    else
      var t := TaskOfRow(rows[|rows| - 1], c, m);
      Accepted(rows[..|rows| - 1], c, m) + (if t.Some? then [t.value] else [])
  }

  /** Every task comes from some row and names each of its people once. */
  lemma {:induction false} AcceptedFromRows(rows: seq<seq<string>>, c: Columns, m: Mapping)
    requires WellFormed(m)
    ensures forall t <- Accepted(rows, c, m) :: exists row <- rows :: TaskOfRow(row, c, m) == Some(t)
    ensures forall t <- Accepted(rows, c, m) :: t.actividad != "" && NoDup(t.ids)
  {
    if rows != [] {
      var init, last := rows[..|rows| - 1], rows[|rows| - 1];
      AcceptedFromRows(init, c, m);
      forall t | t in Accepted(rows, c, m) ensures exists row <- rows :: TaskOfRow(row, c, m) == Some(t) {
        if t in Accepted(init, c, m) {
          var row :| row in init && TaskOfRow(row, c, m) == Some(t);
          assert row in rows;
        } else {
          assert TaskOfRow(last, c, m) == Some(t);
        }
      }
    }
  }

  lemma AcceptedSnoc(rows: seq<seq<string>>, i: nat, c: Columns, m: Mapping)
    requires WellFormed(m) && i < |rows|
    ensures var t := TaskOfRow(rows[i], c, m);
            Accepted(rows[..i + 1], c, m) == Accepted(rows[..i], c, m) + (if t.Some? then [t.value] else [])
  {
    assert rows[..i + 1][..i] == rows[..i];
  }

  /** The loop body of `fetchTasks` up to the bucket choice (index.js:116-124); `None` is a `continue`. */
  method ClassifyRow(row: seq<string>, c: Columns, m: Mapping) returns (t: Option<Task>)
    requires WellFormed(m)
    ensures t == TaskOfRow(row, c, m)
  {
    var padded := PadRow(row, Width(c));
    var act := Trim(padded[c.act]);
    if act == "" {
      return None;
    }
    var ids := ExtractIdsFromCell(padded[c.enc], m);
    var parts := Split(padded[c.date], '/');
    if |parts| != 3 {
      return None;
    }
    var fecha := DateOfParts(parts[0], parts[1], parts[2]);
    if !StatusOpen(padded[c.status]) {
      return None;
    }
    t := Some(Task(act, ids, fecha));
  }

  /** `fetchTasks` (index.js:105-135) once the sheet's rows and today's day number are given. */
  method FetchTasks(rows: seq<seq<string>>, c: Columns, m: Mapping, today: int) returns (b: Buckets<Task>)
    requires WellFormed(m)
    ensures b == Bucketize(Accepted(rows, c, m), FechaOf, today)
  {
    var todays: seq<Task> := [];
    var pending: seq<Task> := [];
    var future: seq<Task> := [];
    ghost var acc: seq<Task> := [];
    for i := 0 to |rows|
      invariant acc == Accepted(rows[..i], c, m)
      invariant todays == InBucket(acc, FechaOf, today, Today)
      invariant pending == InBucket(acc, FechaOf, today, Pending)
      invariant future == InBucket(acc, FechaOf, today, Future)
    {
      var t := ClassifyRow(rows[i], c, m);
      AcceptedSnoc(rows, i, c, m);
      if t.Some? {
        var task := t.value;
        InBucketSnoc(acc, task, FechaOf, today, Today);
        InBucketSnoc(acc, task, FechaOf, today, Pending);
        InBucketSnoc(acc, task, FechaOf, today, Future);
        if task.fecha == Some(today) {
          todays := todays + [task];
        } else if task.fecha.Some? && task.fecha.value < today {
          pending := pending + [task];
        } else {
          future := future + [task];
        }
        acc := acc + [task];
      }
    }
    assert rows[..|rows|] == rows;
    pending := SortBy(pending, FechaOf);
    future := SortBy(future, FechaOf);
    b := Buckets(todays, pending, future);
  }
}
