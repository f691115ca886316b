/**
 * The six send functions: each loads a sheet, builds the message lines and
 * hands them to a chunker. The channel versions `sendDepartment`,
 * `sendGeneric` and `sendArea` use the inline chunk loop, and the first two
 * send nothing when there is nothing to report. The DM versions
 * `sendDepartmentToUser`, `sendGenericToUser` and `sendAreaToUser` use
 * `sendInChunks`, that is `chunkLines(lines, 2000)`, and always send. What a
 * send delivers is modelled as the sequence of messages, in order.
 */
module Senders {
  import opened Wrappers
  import opened Seqs
  import opened Text
  import opened Sorting
  import opened Dates
  import opened Names
  import opened Rows
  import opened Tasks
  import opened Tareas
  import opened Mentions
  import opened Listing
  import opened Chunker

  /** What `toLocaleDateString` prints for an Invalid Date. */
  const InvalidDate: string := "Invalid Date"

  /**
   * `d.toLocaleDateString('es-MX')`. How the locale prints a valid day is
   * left abstract as `fmt`, which maps a day number to its text.
   */
  function FormatDate(d: Date, fmt: int -> string): string {
    if d.Some? then fmt(d.value) else InvalidDate
  }

  /** `'📋 '`, which opens every report. */
  const Clipboard: string := "\U{1F4CB} "
  /** `'⏳ Pendientes:'`, the pending header of the department and area reports. */
  const PendingPlain: string := "\U{23F3} Pendientes:"
  /** `'⌛ **Pendientes:**'`, the pending header of the Notaría, Tubos and Fisio reports. */
  const PendingBold: string := "\U{231B} **Pendientes:**"
  /** `'— No hay actividades para hoy —'`. */
  const NoActivities: string := "\U{2014} No hay actividades para hoy \U{2014}"
  /** `' — '`, before a date. */
  const Dash: string := " \U{2014} "

  function GroupOfTarea(t: Tarea): string {
    t.group
  }

  // ---------------------------------------------------------------- department

  /** `` `• ${t.actividad}: ${mentionText}` `` with the names-first mention. */
  function DeptTodayItem(t: Tarea): string {
    Bullet + t.actividad + ": " + MentionNamesFirst(t.nombres, t.encargadoIds)
  }

  /** The pending item of `sendDepartment`: the same, then `' - '` and the date. */
  function DeptPendingItem(fmt: int -> string): Tarea -> string {
    t => DeptTodayItem(t) + " - " + FormatDate(t.fecha, fmt)
  }

  /** `` `📋 Actividades para ${fechaLegible}` ``. */
  function DeptTitle(fmt: int -> string, today: int): string {
    Clipboard + "Actividades para " + fmt(today)
  }

  /** The lines `sendDepartment` builds (index.js:202-240). */
  function DepartmentLines(b: Buckets<Tarea>, fmt: int -> string, today: int): seq<string> {
    [DeptTitle(fmt, today)]
    + Sections(Categories(), b.today, GroupOfTarea, DeptTodayItem)
    + (if b.pending != [] then [PendingPlain] + Sections(Categories(), b.pending, GroupOfTarea, DeptPendingItem(fmt)) else [])
  }

  /** The department sheet's buckets for the rows `rows`. */
  function DeptBuckets(rows: seq<seq<string>>, ids: map<string, string>, today: int): Buckets<Tarea> {
    Bucketize(AcceptedTareas(rows, ids), FechaOfTarea, today)
  }

  /** The messages `sendDepartment` sends: none when nothing is due. */
  function DepartmentMessages(rows: seq<seq<string>>, ids: map<string, string>, today: int, fmt: int -> string): seq<string> {
    var b := DeptBuckets(rows, ids, today);
    if b.today == [] && b.pending == [] then [] else ChunkLines(DepartmentLines(b, fmt, today), DiscordLimit)
  }

  /** The lines of `sendDepartment` after the early return. */
  method BuildDepartmentLines(b: Buckets<Tarea>, fmt: int -> string, today: int) returns (lines: seq<string>)
    ensures lines == DepartmentLines(b, fmt, today)
  {
    lines := [DeptTitle(fmt, today)];
    lines := AppendSections(lines, Categories(), b.today, GroupOfTarea, DeptTodayItem);
    ghost var head := lines;
    if b.pending != [] {
      lines := lines + [PendingPlain];
      lines := AppendSections(lines, Categories(), b.pending, GroupOfTarea, DeptPendingItem(fmt));
      ConcatAssoc(head, [PendingPlain], Sections(Categories(), b.pending, GroupOfTarea, DeptPendingItem(fmt)));
    }
  }

  /**
   * `sendDepartment` (index.js:193-262) given the department sheet's rows, the
   * names-to-ids map, today's day number and the date formatter.
   */
  method SendDepartment(rows: seq<seq<string>>, ids: map<string, string>, today: int, fmt: int -> string)
    returns (sent: seq<string>)
    ensures sent == DepartmentMessages(rows, ids, today, fmt)
  {
    var b := FetchTareas(rows, ids, today);
    if b.today == [] && b.pending == [] {
      return [];
    }
    var tasksPending := SortBy(b.pending, FechaOfTarea);
    ResortPending(AcceptedTareas(rows, ids), FechaOfTarea, today);
    var lines := BuildDepartmentLines(Buckets(b.today, tasksPending, b.future), fmt, today);
    sent := SendChunked(lines);
  }

  /** `sendDepartment` is silent exactly when nothing is due today and nothing is overdue. */
  lemma DepartmentQuiet(rows: seq<seq<string>>, ids: map<string, string>, today: int, fmt: int -> string)
    ensures var b := DeptBuckets(rows, ids, today);
            DepartmentMessages(rows, ids, today, fmt) == [] <==> b.today == [] && b.pending == []
  {
    var b := DeptBuckets(rows, ids, today);
    if !(b.today == [] && b.pending == []) {
      assert DeptTitle(fmt, today)[0] == Clipboard[0];
      ChunkLinesNonEmpty(DepartmentLines(b, fmt, today), DiscordLimit);
    }
  }

  /** The twenty category names are distinct. */
  lemma CategoriesDistinct()
    ensures NoDup(Categories())
  {
    var cs := Categories();
    assert forall i :: 0 <= i < |cs| ==> |cs[i]| <= 12;
    forall i, j | 0 <= i < j < |cs| ensures cs[i] != cs[j] {
      assert cs[i][0] != cs[j][0] || |cs[i]| != |cs[j]| || cs[i][1] != cs[j][1] || cs[i][2] != cs[j][2];
    }
  }

  /**
   * The departmental sections list every task due today, and every overdue
   * one, exactly once under its group, with one header per non-empty group.
   */
  lemma DepartmentListsEachOnce(rows: seq<seq<string>>, ids: map<string, string>, today: int, fmt: int -> string)
    ensures var b := DeptBuckets(rows, ids, today);
            multiset(Flatten(FilterAll(Categories(), b.today, GroupOfTarea))) == multiset(b.today) &&
            multiset(Flatten(FilterAll(Categories(), b.pending, GroupOfTarea))) == multiset(b.pending) &&
            |Sections(Categories(), b.today, GroupOfTarea, DeptTodayItem)| ==
              |b.today| + |Occupied(Categories(), b.today, GroupOfTarea)| &&
            |Sections(Categories(), b.pending, GroupOfTarea, DeptPendingItem(fmt))| ==
              |b.pending| + |Occupied(Categories(), b.pending, GroupOfTarea)|
  {
    var ts := AcceptedTareas(rows, ids);
    var b := DeptBuckets(rows, ids, today);
    AcceptedTareasWellFormed(rows, ids);
    BucketizeDates(ts, FechaOfTarea, today);
    CategoriesDistinct();
    SectionsListEachOnce(Categories(), b.today, GroupOfTarea, DeptTodayItem);
    SectionsListEachOnce(Categories(), b.pending, GroupOfTarea, DeptPendingItem(fmt));
  }

  // ---------------------------------------------------------------- Notaría, Tubos, Fisio

  /** The `groupBy` key of a task of these sheets. */
  function GenKeyOf(t: Task): string {
    KeyOf(t.ids)
  }

  /** `` `• ${t.actividad}` ``. */
  function GenTodayItem(t: Task): string {
    Bullet + t.actividad
  }

  /** `` `• ${t.actividad} — ${ds}` ``. */
  function GenPendingItem(fmt: int -> string): Task -> string {
    t => GenTodayItem(t) + Dash + FormatDate(t.fecha, fmt)
  }

  /** `` [`📋 **${title} — ${fechaHoy}**`, ''] ``. */
  function GenericHeader(title: string, fmt: int -> string, today: int): seq<string> {
    [Clipboard + "**" + title + Dash + fmt(today) + "**", ""]
  }

  /** The lines `sendGeneric` builds (index.js:272-326). */
  function GenericLines(title: string, b: Buckets<Task>, fmt: int -> string, today: int): seq<string> {
    GenericHeader(title, fmt, today)
    + Pinned(b.today, GenKeyOf, GenTodayItem)
    + (if b.pending != [] then [PendingBold, ""] + Pinned(b.pending, GenKeyOf, GenPendingItem(fmt)) else [])
  }

  function SheetBuckets(rows: seq<seq<string>>, c: Columns, m: Mapping, today: int): Buckets<Task>
    requires WellFormed(m)
  {
    Bucketize(Accepted(rows, c, m), FechaOf, today)
  }

  /** The messages `sendGeneric` sends: none when nothing is due. */
  function GenericMessages(title: string, rows: seq<seq<string>>, c: Columns, m: Mapping, today: int, fmt: int -> string): seq<string>
    requires WellFormed(m)
  {
    var b := SheetBuckets(rows, c, m, today);
    if b.today == [] && b.pending == [] then [] else ChunkLines(GenericLines(title, b, fmt, today), DiscordLimit)
  }

  method BuildGenericLines(title: string, b: Buckets<Task>, fmt: int -> string, today: int) returns (lines: seq<string>)
    ensures lines == GenericLines(title, b, fmt, today)
  {
    lines := GenericHeader(title, fmt, today);
    lines := EmitPinned(lines, b.today, GenKeyOf, GenTodayItem);
    ghost var head := lines;
    if b.pending != [] {
      lines := lines + [PendingBold, ""];
      lines := EmitPinned(lines, b.pending, GenKeyOf, GenPendingItem(fmt));
      ConcatAssoc(head, [PendingBold, ""], Pinned(b.pending, GenKeyOf, GenPendingItem(fmt)));
    }
  }

  /** `sendGeneric` (index.js:266-340) given the sheet's rows, its columns, the name mapping, today and the formatter. */
  method SendGeneric(title: string, rows: seq<seq<string>>, c: Columns, m: Mapping, today: int, fmt: int -> string)
    returns (sent: seq<string>)
    requires WellFormed(m)
    ensures sent == GenericMessages(title, rows, c, m, today, fmt)
  {
    var b := FetchTasks(rows, c, m, today);
    if b.today == [] && b.pending == [] {
      return [];
    }
    var lines := BuildGenericLines(title, b, fmt, today);
    sent := SendChunked(lines);
  }

  /** `sendGeneric` is silent exactly when nothing is due today and nothing is overdue. */
  lemma GenericQuiet(title: string, rows: seq<seq<string>>, c: Columns, m: Mapping, today: int, fmt: int -> string)
    requires WellFormed(m)
    ensures var b := SheetBuckets(rows, c, m, today);
            GenericMessages(title, rows, c, m, today, fmt) == [] <==> b.today == [] && b.pending == []
  {
    var b := SheetBuckets(rows, c, m, today);
    if !(b.today == [] && b.pending == []) {
      var lines := GenericLines(title, b, fmt, today);
      assert lines[0] == GenericHeader(title, fmt, today)[0];
      assert lines[0][0] == Clipboard[0];
      ChunkLinesNonEmpty(lines, DiscordLimit);
    }
  }

  // ---------------------------------------------------------------- one area

  /** `` `• ${t.actividad}: ${mention}` `` with the ids-first mention. */
  function AreaItem(t: Tarea): string {
    Bullet + t.actividad + ": " + MentionIdsFirst(t.nombres, t.encargadoIds)
  }

  /** The same, then `' — '` and the date. */
  function AreaPendingItem(fmt: int -> string): Tarea -> string {
    t => AreaItem(t) + Dash + FormatDate(t.fecha, fmt)
  }

  /** `` [`📋 Actividades **${area}** para ${hoyStr}`, ''] ``. */
  function AreaHeader(area: string, fmt: int -> string, today: int): seq<string> {
    [Clipboard + "Actividades **" + area + "** para " + fmt(today), ""]
  }

  /** The lines `sendArea` builds (index.js:346-373). */
  function AreaLines(area: string, b: Buckets<Tarea>, fmt: int -> string, today: int): seq<string> {
    var hoy := FilterKey(b.today, GroupOfTarea, area);
    var pen := FilterKey(b.pending, GroupOfTarea, area);
    AreaHeader(area, fmt, today)
    + (if hoy != [] then Items(hoy, AreaItem) else [NoActivities])
    + (if pen != [] then ["", PendingPlain] + Items(pen, AreaPendingItem(fmt)) else [])
  }

  /** The messages `sendArea` sends; it has no early return. */
  function AreaMessages(area: string, rows: seq<seq<string>>, ids: map<string, string>, today: int, fmt: int -> string): seq<string> {
    ChunkLines(AreaLines(area, DeptBuckets(rows, ids, today), fmt, today), DiscordLimit)
  }

  method BuildAreaLines(area: string, b: Buckets<Tarea>, fmt: int -> string, today: int) returns (lines: seq<string>)
    ensures lines == AreaLines(area, b, fmt, today)
  {
    lines := AreaHeader(area, fmt, today);
    var hoy := FilterKey(b.today, GroupOfTarea, area);
    if hoy != [] {
      lines := AppendItems(lines, hoy, AreaItem);
    } else {
      lines := lines + [NoActivities];
    }
    ghost var head := lines;
    var pen := FilterKey(b.pending, GroupOfTarea, area);
    if pen != [] {
      lines := lines + ["", PendingPlain];
      lines := AppendItems(lines, pen, AreaPendingItem(fmt));
      ConcatAssoc(head, ["", PendingPlain], Items(pen, AreaPendingItem(fmt)));
    }
  }

  /** `sendArea` (index.js:343-391). */
  method SendArea(area: string, rows: seq<seq<string>>, ids: map<string, string>, today: int, fmt: int -> string)
    returns (sent: seq<string>)
    ensures sent == AreaMessages(area, rows, ids, today, fmt)
  {
    var b := FetchTareas(rows, ids, today);
    var lines := BuildAreaLines(area, b, fmt, today);
    sent := SendChunked(lines);
  }

  /** Item lines and the placeholder differ in their first character. */
  lemma ItemIsNotPlaceholder(t: Tarea)
    ensures AreaItem(t) != NoActivities
  {
    assert AreaItem(t)[0] == Bullet[0];
    assert NoActivities[0] == '\U{2014}';
  }

  /**
   * The area report shows the placeholder line exactly when the area has no
   * task today, and it is sent even when the area has nothing at all.
   */
  lemma AreaFallback(area: string, rows: seq<seq<string>>, ids: map<string, string>, today: int, fmt: int -> string)
    ensures var b := DeptBuckets(rows, ids, today);
            AreaLines(area, b, fmt, today)[2] == NoActivities <==> FilterKey(b.today, GroupOfTarea, area) == []
    ensures AreaMessages(area, rows, ids, today, fmt) != []
  {
    var b := DeptBuckets(rows, ids, today);
    var lines := AreaLines(area, b, fmt, today);
    var hoy := FilterKey(b.today, GroupOfTarea, area);
    if hoy != [] {
      assert lines[2] == AreaItem(hoy[0]);
      ItemIsNotPlaceholder(hoy[0]);
    }
    assert lines[0][0] == Clipboard[0];
    ChunkLinesNonEmpty(lines, DiscordLimit);
  }

  /** Every task of the area that is due today has its line in the area report. */
  lemma AreaListsToday(area: string, b: Buckets<Tarea>, fmt: int -> string, today: int)
    ensures forall t <- b.today :: t.group == area ==> AreaItem(t) in AreaLines(area, b, fmt, today)
  {
    var hoy := FilterKey(b.today, GroupOfTarea, area);
    var pen := FilterKey(b.pending, GroupOfTarea, area);
    var tail := if pen != [] then ["", PendingPlain] + Items(pen, AreaPendingItem(fmt)) else [];
    FilterKeyMembers(b.today, GroupOfTarea, area);
    forall t | t in b.today && t.group == area ensures AreaItem(t) in AreaLines(area, b, fmt, today) {
      ItemsHas(t, hoy, AreaItem);
      InMiddle(AreaItem(t), AreaHeader(area, fmt, today), Items(hoy, AreaItem), tail);
    }
  }

  /** Every overdue task of the area has its line, with its date, in the area report. */
  lemma AreaListsPending(area: string, b: Buckets<Tarea>, fmt: int -> string, today: int)
    ensures forall t <- b.pending :: t.group == area ==> AreaPendingItem(fmt)(t) in AreaLines(area, b, fmt, today)
  {
    var hoy := FilterKey(b.today, GroupOfTarea, area);
    var pen := FilterKey(b.pending, GroupOfTarea, area);
    var front := AreaHeader(area, fmt, today) + (if hoy != [] then Items(hoy, AreaItem) else [NoActivities]);
    FilterKeyMembers(b.pending, GroupOfTarea, area);
    forall t | t in b.pending && t.group == area ensures AreaPendingItem(fmt)(t) in AreaLines(area, b, fmt, today) {
      var items := Items(pen, AreaPendingItem(fmt));
      ItemsHas(t, pen, AreaPendingItem(fmt));
      InMiddle(AreaPendingItem(fmt)(t), ["", PendingPlain], items, []);
      assert ["", PendingPlain] + items + [] == ["", PendingPlain] + items;
      InMiddle(AreaPendingItem(fmt)(t), front, ["", PendingPlain] + items, []);
      assert front + (["", PendingPlain] + items) + [] == AreaLines(area, b, fmt, today);
    }
  }

  // ---------------------------------------------------------------- the DM copies

  /** The lines `sendDepartmentToUser` builds (index.js:437-467). */
  function DepartmentToUserLines(b: Buckets<Tarea>, fmt: int -> string, today: int): seq<string> {
    [DeptTitle(fmt, today), ""]
    + Sections(Categories(), b.today, GroupOfTarea, AreaItem)
    + (if b.pending != [] then ["", PendingPlain] + Sections(Categories(), b.pending, GroupOfTarea, AreaPendingItem(fmt)) else [])
  }

  method BuildDepartmentToUserLines(b: Buckets<Tarea>, fmt: int -> string, today: int) returns (lines: seq<string>)
    ensures lines == DepartmentToUserLines(b, fmt, today)
  {
    lines := [DeptTitle(fmt, today), ""];
    lines := AppendSections(lines, Categories(), b.today, GroupOfTarea, AreaItem);
    ghost var head := lines;
    if b.pending != [] {
      lines := lines + ["", PendingPlain];
      lines := AppendSections(lines, Categories(), b.pending, GroupOfTarea, AreaPendingItem(fmt));
      ConcatAssoc(head, ["", PendingPlain], Sections(Categories(), b.pending, GroupOfTarea, AreaPendingItem(fmt)));
    }
  }

  /** `sendDepartmentToUser` (index.js:434-471): no early return, and `sendInChunks` chunks at 2000. */
  method SendDepartmentToUser(rows: seq<seq<string>>, ids: map<string, string>, today: int, fmt: int -> string)
    returns (sent: seq<string>)
    ensures sent == ChunkLines(DepartmentToUserLines(DeptBuckets(rows, ids, today), fmt, today), DiscordLimit)
  {
    var b := FetchTareas(rows, ids, today);
    var lines := BuildDepartmentToUserLines(b, fmt, today);
    sent := ChunkLinesLoop(lines, DiscordLimit);
  }

  /**
   * Although documented as sending "the same lines" as `sendDepartment`, the
   * DM copy never does: it has a blank second line where the channel version
   * has a bold group header, the pending header, or nothing.
   */
  lemma DepartmentToUserDiffers(b: Buckets<Tarea>, fmt: int -> string, today: int)
    ensures DepartmentToUserLines(b, fmt, today) != DepartmentLines(b, fmt, today)
  {
    var dm := DepartmentToUserLines(b, fmt, today);
    var ch := DepartmentLines(b, fmt, today);
    assert |dm| >= 2 && dm[1] == "" by {
      assert dm[..2] == [DeptTitle(fmt, today), ""];
    }
    if |ch| >= 2 {
      assert ch[1] != "" by {
        var s := Sections(Categories(), b.today, GroupOfTarea, DeptTodayItem);
        var tail := if b.pending != [] then [PendingPlain] + Sections(Categories(), b.pending, GroupOfTarea, DeptPendingItem(fmt)) else [];
        assert ch == [DeptTitle(fmt, today)] + s + tail;
        if s != [] {
          SectionsOpenBold(Categories(), b.today, GroupOfTarea, DeptTodayItem);
          assert ch[1] == s[0];
        } else {
          assert ch == [DeptTitle(fmt, today)] + tail;
          assert ch[1] == PendingPlain;
          assert PendingPlain[0] != ' ';
        }
      }
    }
  }

  /** The lines `sendGenericToUser` builds (index.js:479-510): the same layout, but not pinned. */
  function GenericToUserLines(title: string, b: Buckets<Task>, fmt: int -> string, today: int): seq<string> {
    GenericHeader(title, fmt, today)
    + Unpinned(b.today, GenKeyOf, GenTodayItem)
    + (if b.pending != [] then [PendingBold, ""] + Unpinned(b.pending, GenKeyOf, GenPendingItem(fmt)) else [])
  }

  method BuildGenericToUserLines(title: string, b: Buckets<Task>, fmt: int -> string, today: int) returns (lines: seq<string>)
    ensures lines == GenericToUserLines(title, b, fmt, today)
  {
    lines := GenericHeader(title, fmt, today);
    lines := EmitUnpinned(lines, b.today, GenKeyOf, GenTodayItem);
    ghost var head := lines;
    if b.pending != [] {
      lines := lines + [PendingBold, ""];
      lines := EmitUnpinned(lines, b.pending, GenKeyOf, GenPendingItem(fmt));
      ConcatAssoc(head, [PendingBold, ""], Unpinned(b.pending, GenKeyOf, GenPendingItem(fmt)));
    }
  }

  /** `sendGenericToUser` (index.js:476-513). */
  method SendGenericToUser(title: string, rows: seq<seq<string>>, c: Columns, m: Mapping, today: int, fmt: int -> string)
    returns (sent: seq<string>)
    requires WellFormed(m)
    ensures sent == ChunkLines(GenericToUserLines(title, SheetBuckets(rows, c, m, today), fmt, today), DiscordLimit)
  {
    var b := FetchTasks(rows, c, m, today);
    var lines := BuildGenericToUserLines(title, b, fmt, today);
    sent := ChunkLinesLoop(lines, DiscordLimit);
  }

  /** Without pinning, the DM copy opens its first block with the key of the first task due today. */
  lemma GenericToUserOpensFirstKey(title: string, b: Buckets<Task>, fmt: int -> string, today: int)
    requires b.today != []
    ensures GenericToUserLines(title, b, fmt, today)[2] == GenKeyOf(b.today[0])
  {
    UnpinnedOpensFirstKey(b.today, GenKeyOf, GenTodayItem);
    var u := Unpinned(b.today, GenKeyOf, GenTodayItem);
    var rest := if b.pending != [] then [PendingBold, ""] + Unpinned(b.pending, GenKeyOf, GenPendingItem(fmt)) else [];
    ThirdOf(GenericHeader(title, fmt, today), u, rest);
  }

  /** The channel version opens with `**SIN ASIGNAR**` whenever a task due today has no one assigned. */
  lemma GenericOpensUnassigned(title: string, b: Buckets<Task>, fmt: int -> string, today: int)
    requires exists t <- b.today :: t.ids == []
    ensures GenericLines(title, b, fmt, today)[2] == Bold(Unassigned)
  {
    var t :| t in b.today && t.ids == [];
    assert GenKeyOf(t) == UnassignedKey;
    PinnedOpensUnassigned(b.today, GenKeyOf, GenTodayItem);
    var p := Pinned(b.today, GenKeyOf, GenTodayItem);
    var n := |FilterKey(b.today, GenKeyOf, UnassignedKey)| + 2;
    assert p[0] == p[..n][0];
    var rest := if b.pending != [] then [PendingBold, ""] + Pinned(b.pending, GenKeyOf, GenPendingItem(fmt)) else [];
    ThirdOf(GenericHeader(title, fmt, today), p, rest);
  }

  /** The lines `sendAreaToUser` builds (index.js:521-549). */
  function AreaToUserLines(area: string, b: Buckets<Tarea>, fmt: int -> string, today: int): seq<string> {
    var hoy := FilterKey(b.today, GroupOfTarea, area);
    var pen := FilterKey(b.pending, GroupOfTarea, area);
    AreaHeader(area, fmt, today)
    + (if hoy != [] then Items(hoy, AreaItem) + [""] else [NoActivities, ""])
    + (if pen != [] then [PendingPlain] + Items(pen, AreaPendingItem(fmt)) else [])
  }

  method BuildAreaToUserLines(area: string, b: Buckets<Tarea>, fmt: int -> string, today: int) returns (lines: seq<string>)
    ensures lines == AreaToUserLines(area, b, fmt, today)
  {
    lines := AreaHeader(area, fmt, today);
    ghost var top := lines;
    var hoy := FilterKey(b.today, GroupOfTarea, area);
    if hoy != [] {
      lines := AppendItems(lines, hoy, AreaItem);
      lines := lines + [""];
      ConcatAssoc(top, Items(hoy, AreaItem), [""]);
    } else {
      lines := lines + [NoActivities, ""];
    }
    ghost var head := lines;
    var pen := FilterKey(b.pending, GroupOfTarea, area);
    if pen != [] {
      lines := lines + [PendingPlain];
      lines := AppendItems(lines, pen, AreaPendingItem(fmt));
      ConcatAssoc(head, [PendingPlain], Items(pen, AreaPendingItem(fmt)));
    }
  }

  /** `sendAreaToUser` (index.js:518-552). */
  method SendAreaToUser(area: string, rows: seq<seq<string>>, ids: map<string, string>, today: int, fmt: int -> string)
    returns (sent: seq<string>)
    ensures sent == ChunkLines(AreaToUserLines(area, DeptBuckets(rows, ids, today), fmt, today), DiscordLimit)
  {
    var b := FetchTareas(rows, ids, today);
    var lines := BuildAreaToUserLines(area, b, fmt, today);
    sent := ChunkLinesLoop(lines, DiscordLimit);
  }

  /** The DM copies always send at least one message. */
  lemma ToUserNeverQuiet(area: string, title: string, db: Buckets<Tarea>, gb: Buckets<Task>, fmt: int -> string, today: int)
    ensures ChunkLines(DepartmentToUserLines(db, fmt, today), DiscordLimit) != []
    ensures ChunkLines(GenericToUserLines(title, gb, fmt, today), DiscordLimit) != []
    ensures ChunkLines(AreaToUserLines(area, db, fmt, today), DiscordLimit) != []
  {
    var d := DepartmentToUserLines(db, fmt, today);
    var g := GenericToUserLines(title, gb, fmt, today);
    var a := AreaToUserLines(area, db, fmt, today);
    assert d[0][0] == Clipboard[0];
    assert g[0] == GenericHeader(title, fmt, today)[0];
    assert g[0][0] == Clipboard[0];
    assert a[0] == AreaHeader(area, fmt, today)[0];
    assert a[0][0] == Clipboard[0];
    ChunkLinesNonEmpty(d, DiscordLimit);
    ChunkLinesNonEmpty(g, DiscordLimit);
    ChunkLinesNonEmpty(a, DiscordLimit);
  }
}
