/**
 * `sendMyPending`: the direct message listing, for the person who asks, their
 * own tasks of today, the overdue ones and the future ones, each part walking
 * through the department sheet and then the Notaría, Tubos and Fisio sheets.
 */
module Mine {
  import opened Seqs
  import opened Dates
  import opened Names
  import opened Rows
  import opened Tasks
  import opened Tareas
  import opened Listing
  import opened Senders

  /** One entry of `genericConfigs`: a title, the sheet's rows and the columns it is read with. */
  datatype Sheet = Sheet(title: string, rows: seq<seq<string>>, cols: Columns)

  /** A place the listing looks in, with its tasks already split into buckets. */
  datatype Source = Source(title: string, b: Buckets<Task>)

  /** `genericConfigs`, given the rows each of its three sheets holds. */
  function Configs(notaria: seq<seq<string>>, tubos: seq<seq<string>>, fisio: seq<seq<string>>): seq<Sheet> {
    [Sheet("Notar\U{00ED}a", notaria, NotariaColumns),
     Sheet("Tubos", tubos, TubosColumns),
     Sheet("Fisio", fisio, FisioColumns)]
  }

  const DeptSource: string := "Departamento"

  /** The fields of a department task the listing reads: activity, people's ids and date. */
  function View(t: Tarea): Task {
    Task(t.actividad, t.encargadoIds, t.fecha)
  }

  function Views(ts: seq<Tarea>): (vs: seq<Task>)
    ensures |vs| == |ts|
    ensures forall i :: 0 <= i < |ts| ==> vs[i] == View(ts[i])
  {
    if ts == [] then [] else [View(ts[0])] + Views(ts[1..])
  }

  function ViewBuckets(b: Buckets<Tarea>): Buckets<Task> {
    Buckets(Views(b.today), Views(b.pending), Views(b.future))
  }

  /** The bucket `w` of `b`: `tasksToday`, `tasksPending` or `tasksFuture`. */
  function Pick<T>(b: Buckets<T>, w: Bucket): seq<T> {
    match w
    case Today => b.today
    case Pending => b.pending
    case Future => b.future
  }

  /** The sources of one part, in the order the listing walks them: the department first, then each sheet. */
  function SheetSources(sheets: seq<Sheet>, m: Mapping, today: int): (r: seq<Source>)
    requires WellFormed(m)
    ensures |r| == |sheets|
    ensures forall i :: 0 <= i < |sheets| ==>
              r[i] == Source(sheets[i].title, SheetBuckets(sheets[i].rows, sheets[i].cols, m, today))
  {
    if sheets == [] then []
    else
      var rest := SheetSources(sheets[1..], m, today);
      assert forall i :: 1 <= i < |sheets| ==> sheets[1..][i - 1] == sheets[i];
      [Source(sheets[0].title, SheetBuckets(sheets[0].rows, sheets[0].cols, m, today))] + rest
  }

  function Sources(dept: Buckets<Tarea>, sheets: seq<Sheet>, m: Mapping, today: int): seq<Source>
    requires WellFormed(m)
  {
    [Source(DeptSource, ViewBuckets(dept))] + SheetSources(sheets, m, today)
  }

  function Owns(user: string): Task -> bool {
    (t: Task) => user in t.ids
  }

  /** `ts.filter(t => t.ids.includes(userId))`. */
  function MineOf(ts: seq<Task>, user: string): seq<Task> {
    FilterKey(ts, Owns(user), true)
  }

  /** The filter keeps exactly the tasks whose ids hold the user. */
  lemma MineOfMembers(ts: seq<Task>, user: string)
    ensures forall t <- MineOf(ts, user) :: t in ts && user in t.ids
    ensures forall t <- ts :: user in t.ids ==> t in MineOf(ts, user)
  {
    FilterKeyMembers(ts, Owns(user), true);
  }

  /** `• ${t.actividad}`, the item of today's part. */
  function PlainItem(t: Task): string {
    Bullet + t.actividad
  }

  /** `• [${fecha}] ${t.actividad}`, the item of the pending and future parts. */
  function DatedItem(fmt: int -> string): Task -> string {
    (t: Task) => Bullet + "[" + FormatDate(t.fecha, fmt) + "] " + t.actividad
  }

  function Render(w: Bucket, fmt: int -> string): Task -> string {
    if w == Today then PlainItem else DatedItem(fmt)
  }

  /** Every item line opens with the bullet, so none is a bold title or a blank line. */
  lemma RenderIsItem(w: Bucket, fmt: int -> string, t: Task)
    ensures |Render(w, fmt)(t)| >= 2 && Render(w, fmt)(t)[..2] == Bullet
    ensures !IsBold(Render(w, fmt)(t)) && Render(w, fmt)(t) != ""
  {
    var s := Render(w, fmt)(t);
    if w == Today {
      assert s == Bullet + t.actividad;
    } else {
      assert s == Bullet + ("[" + FormatDate(t.fecha, fmt) + "] " + t.actividad);
    }
    assert s[..2] == Bullet;
    assert s[0] == '\U{2022}';
  }

  /** The title, one item per task and a blank line; nothing when the user has no task there. */
  function Block(title: string, ts: seq<Task>, render: Task -> string): (r: seq<string>)
    ensures r == [] <==> ts == []
    ensures ts != [] ==> |r| == |ts| + 2 && r[0] == Bold(title) && r[|r| - 1] == ""
  {
    if ts == [] then [] else [Bold(title)] + Items(ts, render) + [""]
  }

  function SourceBlock(s: Source, w: Bucket, user: string, fmt: int -> string): seq<string> {
    Block(s.title, MineOf(Pick(s.b, w), user), Render(w, fmt))
  }

  function BlockOf(w: Bucket, user: string, fmt: int -> string): Source -> seq<string> {
    s => SourceBlock(s, w, user, fmt)
  }

  /** The blocks of one part, source after source. */
  function Blocks(srcs: seq<Source>, w: Bucket, user: string, fmt: int -> string): seq<string> {
    ConcatMap(srcs, BlockOf(w, user, fmt))
  }

  function Heading(w: Bucket): string {
    match w
    case Today => "\U{1F4CB} **Tus actividades para HOY**"
    case Pending => "\U{231B} **Tus actividades PENDIENTES**"
    case Future => "\U{1F916} **Tus actividades FUTURAS**"
  }

  /** What a part says when the user has nothing there; the last part adds no blank line. */
  function Fallback(w: Bucket): seq<string> {
    match w
    case Today => ["\U{2705} No tienes actividades para hoy.", ""]
    case Pending => ["\U{2705} \U{00A1}No tienes actividades pendientes!", ""]
    case Future => ["\U{2705} No tienes actividades en el futuro."]
  }

  /** One part: its heading and a blank line, then the blocks or the fallback. */
  function PartLines(srcs: seq<Source>, w: Bucket, user: string, fmt: int -> string): seq<string> {
    var bl := Blocks(srcs, w, user, fmt);
    [Heading(w), ""] + bl + (if bl == [] then Fallback(w) else [])
  }

  /** The lines `sendMyPending` collects: today's part, the pending part and the future part. */
  function MyPendingLines(srcs: seq<Source>, user: string, fmt: int -> string): seq<string> {
    PartLines(srcs, Today, user, fmt) + PartLines(srcs, Pending, user, fmt) + PartLines(srcs, Future, user, fmt)
  }

  /** The user owns some task of bucket `w` in some source. */
  ghost predicate OwnsSome(srcs: seq<Source>, w: Bucket, user: string) {
    exists i, t :: 0 <= i < |srcs| && t in Pick(srcs[i].b, w) && user in t.ids
  }

  lemma BlocksSnoc(srcs: seq<Source>, i: nat, w: Bucket, user: string, fmt: int -> string)
    requires i < |srcs|
    ensures Blocks(srcs[..i + 1], w, user, fmt) == Blocks(srcs[..i], w, user, fmt) + SourceBlock(srcs[i], w, user, fmt)
  {
    ConcatMapSnoc(srcs, i, BlockOf(w, user, fmt));
  }

  /** The department's block comes first, then those of the sheets. */
  lemma BlocksCons(d: Source, rest: seq<Source>, w: Bucket, user: string, fmt: int -> string)
    ensures Blocks([d] + rest, w, user, fmt) == SourceBlock(d, w, user, fmt) + Blocks(rest, w, user, fmt)
  {
    ConcatMapCons(d, rest, BlockOf(w, user, fmt));
  }

  /** A source's block is empty exactly when the user owns none of that bucket's tasks there. */
  lemma SourceBlockEmpty(s: Source, w: Bucket, user: string, fmt: int -> string)
    ensures SourceBlock(s, w, user, fmt) == [] <==> forall t <- Pick(s.b, w) :: user !in t.ids
  {
    var mine := MineOf(Pick(s.b, w), user);
    MineOfMembers(Pick(s.b, w), user);
    if mine != [] {
      assert mine[0] in mine;
    }
  }

  /** A part has no block exactly when the user owns none of its tasks. */
  lemma BlocksEmpty(srcs: seq<Source>, w: Bucket, user: string, fmt: int -> string)
    ensures Blocks(srcs, w, user, fmt) == [] <==> !OwnsSome(srcs, w, user)
  {
    ConcatMapEmpty(srcs, BlockOf(w, user, fmt));
    forall i | 0 <= i < |srcs|
      ensures SourceBlock(srcs[i], w, user, fmt) == [] <==> forall t <- Pick(srcs[i].b, w) :: user !in t.ids
    {
      SourceBlockEmpty(srcs[i], w, user, fmt);
    }
  }

  /** A task the user owns has its item in its source's block. */
  lemma SourceBlockHas(s: Source, t: Task, w: Bucket, user: string, fmt: int -> string)
    requires t in Pick(s.b, w) && user in t.ids
    ensures Render(w, fmt)(t) in SourceBlock(s, w, user, fmt)
  {
    var mine := MineOf(Pick(s.b, w), user);
    MineOfMembers(Pick(s.b, w), user);
    ItemsHas(t, mine, Render(w, fmt));
    InMiddle(Render(w, fmt)(t), [Bold(s.title)], Items(mine, Render(w, fmt)), [""]);
  }

  /** Each task of bucket `w` that the user owns, in any source, has its item in that part. */
  lemma BlocksListMine(srcs: seq<Source>, w: Bucket, user: string, fmt: int -> string)
    ensures forall i, t :: 0 <= i < |srcs| && t in Pick(srcs[i].b, w) && user in t.ids ==>
              Render(w, fmt)(t) in Blocks(srcs, w, user, fmt)
  {
    forall i, t | 0 <= i < |srcs| && t in Pick(srcs[i].b, w) && user in t.ids
      ensures Render(w, fmt)(t) in Blocks(srcs, w, user, fmt)
    {
      SourceBlockHas(srcs[i], t, w, user, fmt);
      ConcatMapHas(srcs, i, BlockOf(w, user, fmt), Render(w, fmt)(t));
    }
  }

  /** The lines of one source's block are its title, a blank line or the item of a task the user owns there. */
  lemma BlockOnlyMine(s: Source, w: Bucket, user: string, fmt: int -> string)
    ensures forall l <- SourceBlock(s, w, user, fmt) ::
              l == "" || l == Bold(s.title) || exists t <- Pick(s.b, w) :: user in t.ids && l == Render(w, fmt)(t)
  {
    var mine := MineOf(Pick(s.b, w), user);
    MineOfMembers(Pick(s.b, w), user);
    if mine != [] {
      var items := Items(mine, Render(w, fmt));
      assert SourceBlock(s, w, user, fmt) == [Bold(s.title)] + items + [""];
      forall l | l in items
        ensures exists t <- Pick(s.b, w) :: user in t.ids && l == Render(w, fmt)(t)
      {
        var j :| 0 <= j < |items| && items[j] == l;
        assert mine[j] in mine;
      }
    }
  }

  /** Every item line of a part belongs to a task of that bucket which the user owns. */
  lemma BlocksOnlyMine(srcs: seq<Source>, w: Bucket, user: string, fmt: int -> string)
    ensures forall l <- Blocks(srcs, w, user, fmt) :: l == "" || IsBold(l) ||
              exists i, t :: 0 <= i < |srcs| && t in Pick(srcs[i].b, w) && user in t.ids && l == Render(w, fmt)(t)
  {
    forall l | l in Blocks(srcs, w, user, fmt)
      ensures l == "" || IsBold(l) ||
              exists i, t :: 0 <= i < |srcs| && t in Pick(srcs[i].b, w) && user in t.ids && l == Render(w, fmt)(t)
    {
      ConcatMapFrom(srcs, BlockOf(w, user, fmt), l);
      var i :| 0 <= i < |srcs| && l in BlockOf(w, user, fmt)(srcs[i]);
      BlockOnlyMine(srcs[i], w, user, fmt);
      if !(l == "" || IsBold(l)) {
        var t :| t in Pick(srcs[i].b, w) && user in t.ids && l == Render(w, fmt)(t);
      }
    }
  }

  /** A part's blocks open with a bold title. */
  lemma BlocksOpenBold(srcs: seq<Source>, w: Bucket, user: string, fmt: int -> string)
    ensures Blocks(srcs, w, user, fmt) != [] ==> IsBold(Blocks(srcs, w, user, fmt)[0])
  {
    ConcatMapFirst(srcs, BlockOf(w, user, fmt), IsBold);
  }

  /** A fallback opens with a check mark, not with a bold title. */
  lemma FallbackNotBold(w: Bucket)
    ensures Fallback(w) != [] && !IsBold(Fallback(w)[0])
  {
    match w
    case Today =>
      assert Fallback(w)[0][0] == '\U{2705}';
    case Pending =>
      assert Fallback(w)[0][0] == '\U{2705}';
    case Future =>
      assert Fallback(w)[0][0] == '\U{2705}';
  }

  /** A part shows its fallback exactly when the user owns none of its tasks. */
  lemma PartFallback(srcs: seq<Source>, w: Bucket, user: string, fmt: int -> string)
    ensures PartLines(srcs, w, user, fmt) == [Heading(w), ""] + Fallback(w) <==> !OwnsSome(srcs, w, user)
  {
    BlocksEmpty(srcs, w, user, fmt);
    var bl := Blocks(srcs, w, user, fmt);
    if bl != [] {
      BlocksOpenBold(srcs, w, user, fmt);
      FallbackNotBold(w);
      var p := PartLines(srcs, w, user, fmt);
      assert p == [Heading(w), ""] + bl;
      assert p[2] == bl[0];
      assert ([Heading(w), ""] + Fallback(w))[2] == Fallback(w)[0];
    }
  }

  /** For a user who owns no task anywhere, the listing is the three headings with their fallbacks. */
  lemma NothingForUser(srcs: seq<Source>, user: string, fmt: int -> string)
    requires forall i, t :: 0 <= i < |srcs| && (t in srcs[i].b.today || t in srcs[i].b.pending || t in srcs[i].b.future) ==>
               user !in t.ids
    ensures MyPendingLines(srcs, user, fmt) ==
              [Heading(Today), "", "\U{2705} No tienes actividades para hoy.", "",
               Heading(Pending), "", "\U{2705} \U{00A1}No tienes actividades pendientes!", "",
               Heading(Future), "", "\U{2705} No tienes actividades en el futuro."]
  {
    BlocksEmpty(srcs, Today, user, fmt);
    BlocksEmpty(srcs, Pending, user, fmt);
    BlocksEmpty(srcs, Future, user, fmt);
  }

  /** `if (mine.length) { lines.push(`**${title}**`); mine.forEach(...); lines.push(''); }`. */
  method AppendBlock(lines: seq<string>, title: string, ts: seq<Task>, render: Task -> string) returns (out: seq<string>)
    ensures out == lines + Block(title, ts, render)
  {
    out := lines;
    if ts != [] {
      out := out + [Bold(title)];
      out := AppendItems(out, ts, render);
      out := out + [""];
      ConcatAssoc(lines, [Bold(title)], Items(ts, render));
      ConcatAssoc(lines, [Bold(title)] + Items(ts, render), [""]);
    }
  }

  /** One sheet in one part: a fresh `fetchTasks`, the user's tasks of the bucket, and their block. */
  method AppendSheet(lines: seq<string>, sheet: Sheet, m: Mapping, today: int, w: Bucket, user: string, fmt: int -> string,
                     ghost src: Source)
    returns (out: seq<string>, found: bool)
    requires WellFormed(m) && src == Source(sheet.title, SheetBuckets(sheet.rows, sheet.cols, m, today))
    ensures out == lines + SourceBlock(src, w, user, fmt)
    ensures found <==> |SourceBlock(src, w, user, fmt)| > 0
  {
    var b := FetchTasks(sheet.rows, sheet.cols, m, today);
    var mine := MineOf(Pick(b, w), user);
    found := mine != [];
    out := AppendBlock(lines, sheet.title, mine, Render(w, fmt));
  }

  /** The walk over `genericConfigs` in one part. */
  method AppendSheetBlocks(lines: seq<string>, sheets: seq<Sheet>, m: Mapping, today: int,
                           w: Bucket, user: string, fmt: int -> string) returns (out: seq<string>, has: bool)
    requires WellFormed(m)
    ensures out == lines + Blocks(SheetSources(sheets, m, today), w, user, fmt)
    ensures has <==> Blocks(SheetSources(sheets, m, today), w, user, fmt) != []
  {
    ghost var srcs := SheetSources(sheets, m, today);
    out := lines;
    has := false;
    for i := 0 to |sheets|
      invariant out == lines + Blocks(srcs[..i], w, user, fmt)
      invariant has <==> |Blocks(srcs[..i], w, user, fmt)| > 0
    {
      ghost var front := Blocks(srcs[..i], w, user, fmt);
      ghost var blk := SourceBlock(srcs[i], w, user, fmt);
      var found;
      out, found := AppendSheet(out, sheets[i], m, today, w, user, fmt, srcs[i]);
      if found {
        has := true;
      }
      assert Blocks(srcs[..i + 1], w, user, fmt) == front + blk by {
        BlocksSnoc(srcs, i, w, user, fmt);
      }
      ConcatAssoc(lines, front, blk);
    }
    assert srcs[..|sheets|] == srcs;
  }

  /**
   * One part of `sendMyPending` (index.js:682-708, 711-740, 743-771): the
   * heading, the department's block, the sheets' blocks, and the fallback when
   * the `has` flag stayed false.
   */
  method AppendPart(lines: seq<string>, dept: Buckets<Tarea>, sheets: seq<Sheet>, m: Mapping, today: int,
                    w: Bucket, user: string, fmt: int -> string) returns (out: seq<string>)
    requires WellFormed(m)
    ensures out == lines + PartLines(Sources(dept, sheets, m, today), w, user, fmt)
  {
    ghost var d := Source(DeptSource, ViewBuckets(dept));
    ghost var rest := SheetSources(sheets, m, today);
    out := lines + [Heading(w), ""];
    var myDept := MineOf(Views(Pick(dept, w)), user);
    var hasDept := myDept != [];
    assert Pick(d.b, w) == Views(Pick(dept, w));
    out := AppendBlock(out, DeptSource, myDept, Render(w, fmt));
    var hasSheets;
    out, hasSheets := AppendSheetBlocks(out, sheets, m, today, w, user, fmt);
    ghost var bl := Blocks([d] + rest, w, user, fmt);
    BlocksCons(d, rest, w, user, fmt);
    ConcatAssoc(lines + [Heading(w), ""], SourceBlock(d, w, user, fmt), Blocks(rest, w, user, fmt));
    if !(hasDept || hasSheets) {
      out := out + Fallback(w);
    }
    ConcatAssoc(lines, [Heading(w), ""], bl);
    ConcatAssoc(lines, [Heading(w), ""] + bl, if bl == [] then Fallback(w) else []);
  }

  /**
   * `sendMyPending` (index.js:678-773) up to its final send: the department
   * sheet is loaded once, each of the three sheets once per part.
   */
  method MyPending(deptRows: seq<seq<string>>, ids: map<string, string>, notaria: seq<seq<string>>,
                   tubos: seq<seq<string>>, fisio: seq<seq<string>>, m: Mapping, user: string,
                   today: int, fmt: int -> string) returns (lines: seq<string>)
    requires WellFormed(m)
    ensures lines == MyPendingLines(Sources(DeptBuckets(deptRows, ids, today), Configs(notaria, tubos, fisio), m, today),
                                    user, fmt)
  {
    var dept := FetchTareas(deptRows, ids, today);
    var sheets := Configs(notaria, tubos, fisio);
    ghost var srcs := Sources(dept, sheets, m, today);
    lines := AppendPart([], dept, sheets, m, today, Today, user, fmt);
    assert lines == PartLines(srcs, Today, user, fmt);
    lines := AppendPart(lines, dept, sheets, m, today, Pending, user, fmt);
    lines := AppendPart(lines, dept, sheets, m, today, Future, user, fmt);
  }
}
