/**
 * `fetchTareas`, the loader of the department sheet: the first word of
 * column 0 picks the CMMI group, column 1 is the activity, column 7 a
 * comma-separated list of names looked up one by one, column 8 the date and
 * column 13 the status.
 */
module Tareas {
  import opened Wrappers
  import opened Seqs
  import opened Text
  import opened Sorting
  import opened Dates
  import opened Names
  import opened Rows

  /** `GROUPS`, in listing order. */
  const Groups: seq<string> := ["RM", "PP", "PMC", "MA", "PPQA", "CM", "RD", "TS", "PI",
                                "VER", "VAL", "OPF", "OPD", "OT", "IPM", "RKM", "DAR", "REQM", "Departamento"]

  /** The group of a row whose code names none of `Groups`. */
  const Other: string := "Otros"

  /** `[...GROUPS, 'Otros']`: the categories the department listings walk through. */
  function Categories(): seq<string> {
    Groups + [Other]
  }

  /** `gs.reduce((acc, g) => { acc[g.toUpperCase()] = g; return acc; }, {})`. */
  function GroupMapOf(gs: seq<string>): (gm: map<string, string>)
    ensures forall k <- gm :: gm[k] in gs
  {
    if gs == [] then map[]
    else
      var g := gs[|gs| - 1];
      var prev := GroupMapOf(gs[..|gs| - 1]);
      assert forall k <- prev :: prev[k] in gs;
      prev[ToUpper(g) := g]
  }

  /** `groupMap[code] || 'Otros'`. */
  function GroupOf(code: string): (g: string)
    ensures g in Categories()
  {
    var gm := GroupMapOf(Groups);
    if code in gm then gm[code] else Other
  }

  /** The upper-cased codes of `GROUPS`, which are the keys of `groupMap`. */
  function Codes(gs: seq<string>): (cs: seq<string>)
    ensures |cs| == |gs|
    ensures forall i :: 0 <= i < |gs| ==> cs[i] == ToUpper(gs[i])
  {
    if gs == [] then [] else Codes(gs[..|gs| - 1]) + [ToUpper(gs[|gs| - 1])]
  }

  /** With distinct codes, each group is found again under its own code. */
  lemma {:induction false} GroupMapFinds(gs: seq<string>, i: nat)
    requires i < |gs| && NoDup(Codes(gs))
    ensures ToUpper(gs[i]) in GroupMapOf(gs) && GroupMapOf(gs)[ToUpper(gs[i])] == gs[i]
  {
    var n := |gs| - 1;
    var init := gs[..n];
    var prev := GroupMapOf(init);
    var key, last := ToUpper(gs[i]), ToUpper(gs[n]);
    assert GroupMapOf(gs) == prev[last := gs[n]];
    if i < n {
      var cs := Codes(gs);
      assert key in prev && prev[key] == gs[i] by {
        assert Codes(init) == cs[..n];
        NoDupPrefix(cs, n);
        assert init[i] == gs[i];
        GroupMapFinds(init, i);
      }
      assert key != last by {
        assert cs[i] == key && cs[n] == last;
      }
    }
  }

  /** `{ group, actividad, nombres, encargadoIds, fecha }`. */
  datatype Tarea = Tarea(group: string, actividad: string, nombres: seq<string>, encargadoIds: seq<string>, fecha: Date)

  /** `.map(n => n.trim()).filter(Boolean)`. */
  function TrimmedNames(parts: seq<string>): (ns: seq<string>)
    ensures |ns| <= |parts|
    ensures forall n <- ns :: n != ""
  {
    if parts == [] then []
    else
      var n := Trim(parts[0]);
      (if n != "" then [n] else []) + TrimmedNames(parts[1..])
  }

  /** `nombres.map(n => nameToId[n]).filter(Boolean)`: exact-key lookups, misses and empty ids dropped. */
  function LookupIds(ns: seq<string>, ids: map<string, string>): (r: seq<string>)
    ensures |r| <= |ns|
    ensures forall id <- r :: id != "" && exists n <- ns :: n in ids && ids[n] == id
  {
    if ns == [] then []
    else
      var rest := LookupIds(ns[1..], ids);
      assert forall n <- ns[1..] :: n in ns;
      (if ns[0] in ids && ids[ns[0]] != "" then [ids[ns[0]]] else []) + rest
  }

  /** The `i`-th part of a date, `NaN` when `'d/m/y'` has fewer parts (the destructuring gives `undefined`). */
  function Part(parts: seq<string>, i: nat): Option<int> {
    if i < |parts| then ParseInt(parts[i]) else None
  }

  /**
   * The hour-less date of `rawDate.split('/')`. There is no three-part check
   * here: with fewer than three parts the date is Invalid.
   */
  function DateOfRaw(raw: string): (r: Date)
    ensures |Split(raw, '/')| < 3 ==> r.None?
  {
    var parts := Split(raw, '/');
    MakeDate(Part(parts, 2), Part(parts, 1), Part(parts, 0))
  }

  /** The width `fetchTareas` pads every row to. */
  const TareaWidth: nat := 14

  function CodeOf(cell: string): string {
    ToUpper(Split(Trim(cell), ' ')[0])
  }

  /** One pass of the loop body of `fetchTareas`: the task a row yields, or `None` where it `continue`s. */
  function TareaOfRow(row: seq<string>, ids: map<string, string>): (r: Option<Tarea>)
    ensures r.Some? ==> WellFormedTarea(r.value)
  {
    var r := Pad(row, TareaWidth);
    var group := GroupOf(CodeOf(r[0]));
    var act := Trim(r[1]);
    var nombres := TrimmedNames(Split(r[7], ','));
    var raw := Trim(r[8]);
    if act == "" || raw == "" || !StatusOpen(r[13]) then None
    else Some(Tarea(group, act, nombres, LookupIds(nombres, ids), DateOfRaw(raw)))
  }

  /**
   * A row yields a task exactly when its trimmed activity, its trimmed date
   * and its status are present and open (cells past the end of the row read as
   * empty); the task then holds the group of the first word of column 0, the
   * trimmed activity, the names of column 7, the ids those names map to, and
   * the date of column 8.
   */
  lemma TareaOfRowAccepts(row: seq<string>, ids: map<string, string>)
    ensures TareaOfRow(row, ids).Some? <==>
              Trim(Cell(row, 1)) != "" && Trim(Cell(row, 8)) != "" && StatusOpen(Cell(row, 13))
    ensures TareaOfRow(row, ids).Some? ==>
              var t := TareaOfRow(row, ids).value;
              t.group == GroupOf(CodeOf(Cell(row, 0))) && t.actividad == Trim(Cell(row, 1)) &&
              t.nombres == TrimmedNames(Split(Cell(row, 7), ',')) && t.encargadoIds == LookupIds(t.nombres, ids) &&
              t.fecha == DateOfRaw(Trim(Cell(row, 8)))
  {
    PadCells(row, TareaWidth);
  }

  /** What every task of the department sheet satisfies. */
  predicate WellFormedTarea(t: Tarea) {
    t.group in Categories() && t.actividad != "" &&
    |t.encargadoIds| <= |t.nombres| && (t.encargadoIds != [] ==> t.nombres != [])
  }

  function FechaOfTarea(t: Tarea): Date {
    t.fecha
  }

  /** The tasks of the department sheet's rows, in row order. */
  function AcceptedTareas(rows: seq<seq<string>>, ids: map<string, string>): seq<Tarea> {
    if rows == [] then []
    else
      var t := TareaOfRow(rows[|rows| - 1], ids);
      AcceptedTareas(rows[..|rows| - 1], ids) + (if t.Some? then [t.value] else [])
  }

  lemma {:induction false} AcceptedTareasWellFormed(rows: seq<seq<string>>, ids: map<string, string>)
    ensures forall t <- AcceptedTareas(rows, ids) :: WellFormedTarea(t)
  {
    if rows != [] {
      AcceptedTareasWellFormed(rows[..|rows| - 1], ids);
    }
  }

  lemma AcceptedTareasSnoc(rows: seq<seq<string>>, i: nat, ids: map<string, string>)
    requires i < |rows|
    ensures var t := TareaOfRow(rows[i], ids);
            AcceptedTareas(rows[..i + 1], ids) == AcceptedTareas(rows[..i], ids) + (if t.Some? then [t.value] else [])
  {
    assert rows[..i + 1][..i] == rows[..i];
  }

  /** The loop body of `fetchTareas` up to the bucket choice (index.js:165-180); `None` is a `continue`. */
  method ClassifyTareaRow(row: seq<string>, ids: map<string, string>) returns (t: Option<Tarea>)
    ensures t == TareaOfRow(row, ids)
  {
    var padded := PadRow(row, TareaWidth);
    var codeCell := CodeOf(padded[0]);
    var group := GroupOf(codeCell);
    var actividad := Trim(padded[1]);
    if actividad == "" {
      return None;
    }
    var nombres := TrimmedNames(Split(padded[7], ','));
    var encargadoIds := LookupIds(nombres, ids);
    var rawDate := Trim(padded[8]);
    if rawDate == "" {
      return None;
    }
    var fecha := DateOfRaw(rawDate);
    if !StatusOpen(padded[13]) {
      return None;
    }
    t := Some(Tarea(group, actividad, nombres, encargadoIds, fecha));
  }

  /** `fetchTareas` (index.js:150-190) once the sheet's rows and today's day number are given. */
  method FetchTareas(rows: seq<seq<string>>, ids: map<string, string>, today: int) returns (b: Buckets<Tarea>)
    ensures b == Bucketize(AcceptedTareas(rows, ids), FechaOfTarea, today)
  {
    var tasksToday: seq<Tarea> := [];
    var tasksPending: seq<Tarea> := [];
    var tasksFuture: seq<Tarea> := [];
    ghost var acc: seq<Tarea> := [];
    for i := 0 to |rows|
      invariant acc == AcceptedTareas(rows[..i], ids)
      invariant tasksToday == InBucket(acc, FechaOfTarea, today, Today)
      invariant tasksPending == InBucket(acc, FechaOfTarea, today, Pending)
      invariant tasksFuture == InBucket(acc, FechaOfTarea, today, Future)
    {
      var t := ClassifyTareaRow(rows[i], ids);
      AcceptedTareasSnoc(rows, i, ids);
      if t.Some? {
        var obj := t.value;
        InBucketSnoc(acc, obj, FechaOfTarea, today, Today);
        InBucketSnoc(acc, obj, FechaOfTarea, today, Pending);
        InBucketSnoc(acc, obj, FechaOfTarea, today, Future);
        if obj.fecha == Some(today) {
          tasksToday := tasksToday + [obj];
        } else if obj.fecha.Some? && obj.fecha.value < today {
          tasksPending := tasksPending + [obj];
        } else {
          tasksFuture := tasksFuture + [obj];
        }
        acc := acc + [obj];
      }
    }
    assert rows[..|rows|] == rows;
    tasksPending := SortBy(tasksPending, FechaOfTarea);
    tasksFuture := SortBy(tasksFuture, FechaOfTarea);
    b := Buckets(tasksToday, tasksPending, tasksFuture);
  }
}
