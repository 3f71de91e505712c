/** The timetable cell decoder: one scraped timetable slot (`<td>`) becomes at most one
    lesson record. The markup is abstracted as the list of unclassed `<div>` layers of the
    cell, each holding its `<span>` markers (text and CSS class names) and its own text,
    plus the text of the optional warning panel. */
module TimetableParser {
  import opened Wrappers
  import opened Seqs
  import opened Text

  const ClassPlanned := "x-treelabel-ppl"
  const ClassRealized := "x-treelabel-rlz"
  const ClassChanges := "x-treelabel-zas"
  const ClassMovedOrCanceled := "x-treelabel-inv"

  /** Date-times and dates are passed through untouched; any comparable value will do. */
  type DateTime = int
  type Date = int

  /** A `<span>` marker: its text and its set of CSS class names. */
  datatype Span = Span(text: string, classes: set<string>)

  /** An unclassed `<div>` layer: its spans in document order and its own text. */
  datatype Layer = Layer(spans: seq<Span>, ownText: string)

  /** One timetable slot as scraped: its identity and its markup. */
  datatype TimetableCell = TimetableCell(
    number: int,
    start: DateTime,
    end: DateTime,
    date: Date,
    layers: seq<Layer>,
    warning: Option<string>)

  /** The lesson record. */
  datatype Timetable = Timetable(
    number: int,
    start: DateTime,
    end: DateTime,
    date: Date,
    subject: string,
    subjectOld: string,
    group: string,
    room: string,
    roomOld: string,
    teacher: string,
    teacherOld: string,
    info: string,
    changes: bool,
    canceled: bool)

  /** `Timetable(number, start, end, date)` with every other field at its default. */
  function NewTimetable(number: int, start: DateTime, end: DateTime, date: Date): Timetable {
    Timetable(number, start, end, date, "", "", "", "", "", "", "", "", false, false)
  }

  /** The two records describe the same slot. */
  predicate SameSlot(a: Timetable, b: Timetable) {
    a.number == b.number && a.start == b.start && a.end == b.end && a.date == b.date
  }

  /** The record's old subject, teacher and room are those of `b`. */
  predicate SameOldFields(a: Timetable, b: Timetable) {
    a.subjectOld == b.subjectOld && a.teacherOld == b.teacherOld && a.roomOld == b.roomOld
  }

  /** `selectFirst("span")?.hasClass(c) == true`: there is a first span and it has class `c`. */
  predicate FirstHasClass(spans: seq<Span>, c: string) {
    |spans| > 0 && c in spans[0].classes
  }

  /** `last()?.hasClass(c) == true`. */
  predicate LastHasClass(spans: seq<Span>, c: string) {
    |spans| > 0 && c in Last(spans).classes
  }

  /** `selectFirst("span")?.attr("class")?.isEmpty() == true`: a first span without classes. */
  predicate FirstIsUnclassed(spans: seq<Span>) {
    |spans| > 0 && spans[0].classes == {}
  }

  /** `select(".c").size`: how many spans carry class `c`. */
  function CountWithClass(spans: seq<Span>, c: string): nat {
    |Filter(spans, (x: Span) => c in x.classes)|
  }

  // ---------------------------------------------------------------- text of a span

  /** The subject half of `getLessonAndGroupInfoFromSpan`: the text before the first " [". */
  function SubjectOf(text: string): string {
    SubstringBefore(text, " [")
  }

  /** The group half of `getLessonAndGroupInfoFromSpan`: the last " ["-separated piece
      without a trailing "]", or "" when the text has no "[". */
  function GroupOf(text: string): string {
    if Contains(text, "[") then RemoveSuffix(Last(Split(text, " [")), "]") else ""
  }

  /** `getFormattedLessonInfo`: one surrounding pair of parentheses removed, null as "". */
  function FormatInfo(info: Option<string>): string {
    match info
    case None => ""
    case Some(s) => RemoveSurrounding(s, "(", ")")
  }

  /** `stripLessonInfo`: drops two boilerplate phrases, every " ," and a leading ", ". */
  function StripLessonInfo(info: string): string {
    var a := ReplaceAll(info, "okienko dla uczniów", "");
    var b := ReplaceAll(a, "zmiana organizacji zajęć", "");
    var c := ReplaceAll(b, " ,", "");
    RemovePrefix(c, ", ")
  }

  // ---------------------------------------------------------------- templates of one layer

  /** The extraction templates a layer's spans can select. `Simple` carries the extra
      offset of its info span. */
  datatype Template =
    | Light
    | Simple(infoExtraOffset: nat)
    | Group
    | SimpleWithReplacement
    | GroupWithReplacement
    | Unrecognized

  /** The number of spans the template reads from. */
  function SpansNeeded(t: Template): nat {
    match t
    case Light => 2
    case Simple(_) => 3
    case Group => 4
    case SimpleWithReplacement => 6
    case GroupWithReplacement => 8
    case Unrecognized => 0
  }

  /** The dispatch of `getLessonInfo` on the span count and classes of a layer. Every
      template it selects finds all the spans it reads. */
  function TemplateFor(spans: seq<Span>): (t: Template)
    ensures SpansNeeded(t) <= |spans|
    ensures t == Unrecognized || |spans| in {2, 3, 4, 5, 7, 9}
  {
    var n := |spans|;
    if n == 2 then Light
    else if n == 3 then Simple(0)
    else if n == 4 && LastHasClass(spans, ClassRealized) then Simple(0)
    else if n == 4 then Group
    else if n == 5 && FirstHasClass(spans, ClassChanges) && CountWithClass(spans, ClassRealized) == 2 then Simple(1)
    else if n == 5 && LastHasClass(spans, ClassRealized) then Group
    else if n == 7 then SimpleWithReplacement
    else if n == 9 then GroupWithReplacement
    else Unrecognized
  }

  /** `getLessonLight`. */
  function LessonLight(lesson: Timetable, spans: seq<Span>, info: string): Timetable
    requires |spans| >= 2
  {
    var first := spans[0].classes;
    var isCanceled := ClassMovedOrCanceled in first;
    lesson.(
      subject := SubjectOf(spans[0].text),
      group := GroupOf(spans[0].text),
      room := spans[1].text,
      info := FormatInfo(Some(info)),
      canceled := isCanceled,
      changes := (!IsBlank(info) && !isCanceled) || ClassChanges in first)
  }

  /** `getLesson`: the teacher and room follow `offset` group spans; the info is the span
      `3 + offset + infoExtraOffset` when there is one, else the change text. */
  function LessonPlain(lesson: Timetable, spans: seq<Span>, offset: nat, infoExtraOffset: nat, changes: string): Timetable
    requires |spans| >= 3 + offset
  {
    var first := spans[0].classes;
    var isCanceled := ClassMovedOrCanceled in first;
    var infoIndex := 3 + offset + infoExtraOffset;
    lesson.(
      subject := SubjectOf(spans[0].text),
      group := GroupOf(spans[0].text),
      teacher := spans[1 + offset].text,
      room := spans[2 + offset].text,
      info := FormatInfo(Some(if infoIndex < |spans| then spans[infoIndex].text else changes)),
      canceled := isCanceled,
      changes := (!IsBlank(changes) && !isCanceled) || ClassChanges in first)
  }

  /** `getLessonWithReplacement`: old subject, teacher and room first, then the new ones. */
  function LessonWithReplacement(lesson: Timetable, spans: seq<Span>, o: nat): Timetable
    requires |spans| >= 6 + 2 * o
  {
    lesson.(
      subject := SubjectOf(spans[3 + o].text),
      subjectOld := SubjectOf(spans[0].text),
      group := GroupOf(spans[3 + o].text),
      teacher := spans[4 + o * 2].text,
      teacherOld := spans[1 + o].text,
      room := spans[5 + o * 2].text,
      roomOld := spans[2 + o].text,
      info := FormatInfo(Some(Last(spans).text)) + ", poprzednio: " + SubjectOf(spans[0].text),
      changes := true)
  }

  /** The template applied to a layer, as `getSimpleLesson`, `getGroupLesson` and their
      replacement variants call the builders. */
  function ApplyTemplate(t: Template, lesson: Timetable, layer: Layer): Timetable
    requires SpansNeeded(t) <= |layer.spans|
  {
    match t
    case Light => LessonLight(lesson, layer.spans, layer.ownText)
    case Simple(e) => LessonPlain(lesson, layer.spans, 0, e, layer.ownText)
    case Group => LessonPlain(lesson, layer.spans, 1, 0, "")
    case SimpleWithReplacement => LessonWithReplacement(lesson, layer.spans, 0)
    case GroupWithReplacement => LessonWithReplacement(lesson, layer.spans, 1)
    case Unrecognized => lesson
  }

  /** `getLessonInfo`: the record `lesson` completed from one layer. It describes the same
      slot, and it only ever sets old fields when it also sets `changes`. */
  function LessonInfo(lesson: Timetable, layer: Layer): (r: Timetable)
    ensures SameSlot(r, lesson)
    ensures r.changes || SameOldFields(r, lesson)
  {
    ApplyTemplate(TemplateFor(layer.spans), lesson, layer)
  }

  // ---------------------------------------------------------------- shapes of a cell

  /** How the layers of a cell combine, after the first-match-wins checks of
      `addLessonDetails`. */
  datatype Shape =
    | NoLesson                            // no layer, or more than three
    | Alone(index: nat)                   // one layer decoded on its own
    | MovedPlanned                        // layer 1 is a moved plan, layer 0 replaces it
    | Substituted(current: nat, prior: nat) // the current layer supersedes the old one
    | PreviouslyPlanned                   // layer 0 is a moved plan, layer 1 is unclassed

  /** `addLessonDetails`' choice of shape. Every layer it names exists. */
  function ClassifyLayers(layers: seq<Layer>): (s: Shape)
    ensures s.NoLesson? <==> |layers| == 0 || |layers| >= 4
    ensures s.Alone? ==> s.index < |layers|
    ensures s.Substituted? ==> s.current < |layers| && s.prior < |layers| && s.current != s.prior
    ensures s.MovedPlanned? || s.PreviouslyPlanned? ==> |layers| == 2
  {
    var n := |layers|;
    if n == 1 then Alone(0)
    else if n == 2 && FirstHasClass(layers[1].spans, ClassMovedOrCanceled) then
      if FirstHasClass(layers[1].spans, ClassPlanned) then MovedPlanned else Alone(1)
    else if n == 2 && FirstHasClass(layers[1].spans, ClassChanges) then Substituted(1, 0)
    else if n == 2 && FirstHasClass(layers[0].spans, ClassMovedOrCanceled)
                   && FirstHasClass(layers[0].spans, ClassPlanned)
                   && FirstIsUnclassed(layers[1].spans) then PreviouslyPlanned
    else if n == 2 then Alone(1)
    else if n == 3 then
      if FirstHasClass(layers[0].spans, ClassChanges)
         && FirstHasClass(layers[1].spans, ClassMovedOrCanceled)
         && FirstHasClass(layers[2].spans, ClassMovedOrCanceled) then Substituted(0, 1)
      else if FirstHasClass(layers[0].spans, ClassMovedOrCanceled)
              && FirstHasClass(layers[1].spans, ClassMovedOrCanceled)
              && FirstHasClass(layers[2].spans, ClassChanges) then Substituted(2, 0)
      else Alone(1)
    else NoLesson
  }

  /** `current` with the subject, teacher and room of `prior` as its old fields. */
  function WithOld(current: Timetable, prior: Timetable): Timetable {
    current.(changes := true, subjectOld := prior.subject, teacherOld := prior.teacher, roomOld := prior.room)
  }

  /** The `when` of `addLessonDetails`, before the warning is merged. */
  function Decoded(lesson: Timetable, layers: seq<Layer>, capitalise: string -> string): Option<Timetable> {
    match ClassifyLayers(layers)
    case NoLesson => None
    case Alone(k) => Some(LessonInfo(lesson, layers[k]))
    case MovedPlanned =>
      var current := LessonInfo(lesson, layers[0]);
      var prior := LessonInfo(lesson, layers[1]);
      var merged := StripLessonInfo(FormatInfo(Some(current.info)) + ", " + prior.info);
      Some(WithOld(current, prior).(info := capitalise(ReplaceAll(merged, current.subject + " ", ""))))
    case Substituted(c, o) =>
      var current := LessonInfo(lesson, layers[c]);
      var prior := LessonInfo(lesson, layers[o]);
      Some(WithOld(current, prior).(canceled := false))
    case PreviouslyPlanned =>
      var current := LessonInfo(lesson, layers[1]);
      var prior := LessonInfo(lesson, layers[0]);
      Some(WithOld(current, prior).(canceled := false, info := "Poprzednio: " + prior.subject + " (" + prior.info + ")"))
  }

  /** The `?.let` of `addLessonDetails`: the warning panel's text merged into `info`. */
  function MergeWarning(lesson: Timetable, warning: Option<string>): Timetable {
    match warning
    case None => lesson
    case Some(w) => if IsBlank(lesson.info) then lesson.(info := w) else lesson.(info := lesson.info + ": " + w)
  }

  /** `addLessonDetails`. */
  function LessonDetails(lesson: Timetable, layers: seq<Layer>, warning: Option<string>, capitalise: string -> string): Option<Timetable> {
    match Decoded(lesson, layers, capitalise)
    case None => None
    case Some(t) => Some(MergeWarning(t, warning))
  }

  /** `getTimetable`: the decoded lesson of one cell, or none. `capitalise` stands for the
      string function of the same name that the decoder calls. */
  function GetTimetable(cell: TimetableCell, capitalise: string -> string): Option<Timetable> {
    LessonDetails(NewTimetable(cell.number, cell.start, cell.end, cell.date), cell.layers, cell.warning, capitalise)
  }

  /** The record a layer decodes to on its own, starting from the cell's fresh record. */
  function LayerLesson(cell: TimetableCell, k: nat): Timetable
    requires k < |cell.layers|
  {
    LessonInfo(NewTimetable(cell.number, cell.start, cell.end, cell.date), cell.layers[k])
  }
}
