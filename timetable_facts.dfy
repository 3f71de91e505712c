/** What the timetable cell decoder promises: the precedence of the layer checks, the
    span-count dispatch, the flags, the subject/group split, the info formatting and the
    warning merge. */
module TimetableFacts {
  import opened Wrappers
  import opened Seqs
  import opened Text
  import opened TimetableParser

  // ---------------------------------------------------------------- text of a span

  /** No occurrence of the two-character `d` in `x` starts inside its prefix `a` when `a`
      has none of its own and the character after `a` is not `d[1]`. */
  lemma NoOccurrenceBefore(x: string, a: string, d: string)
    requires |d| == 2 && a <= x && |x| > |a|
    requires !Contains(a, d) && x[|a|] != d[1]
    ensures forall j :: 0 <= j < |a| ==> !OccursAt(x, d, j)
  {
    forall j | 0 <= j < |a| ensures !OccursAt(x, d, j) {
      if j + 2 <= |a| {
        assert x[..|a|] == a;
        OccursInPrefix(x, d, |a|, j);
      } else if j + 2 <= |x| {
        assert x[j..j + 2][1] == x[j + 1];
      }
    }
  }

  /** A two-character `d` of two distinct characters, right after a text without `d`,
      is the first occurrence of `d`. */
  lemma FirstOccurrenceAfter(a: string, d: string, tail: string)
    requires |d| == 2 && d[0] != d[1] && !Contains(a, d)
    ensures IndexOf(a + d + tail, d) == Some(|a|)
  {
    var x := a + d + tail;
    assert x[|a|..|a| + 2] == d;
    assert x[..|a|] == a;
    assert x[|a|] == d[0];
    NoOccurrenceBefore(x, a, d);
    IndexOfFirst(x, d, |a|);
  }

  /** Appending a character other than `d[1]` to a text without the two-character `d`
      does not create an occurrence. */
  lemma NoOccurrenceWithEnd(g: string, d: string, e: char)
    requires |d| == 2 && e != d[1] && !Contains(g, d)
    ensures !Contains(g + [e], d)
  {
    var x := g + [e];
    assert x[..|g|] == g;
    NoOccurrenceBefore(x, g, d);
  }

  /** Splitting `a + d + tail` at its first `d`, when `tail` has none. */
  lemma SplitOnce(a: string, d: string, tail: string)
    requires |d| == 2 && d[0] != d[1] && !Contains(a, d) && !Contains(tail, d)
    ensures SubstringBefore(a + d + tail, d) == a
    ensures Split(a + d + tail, d) == [a, tail]
  {
    var x := a + d + tail;
    FirstOccurrenceAfter(a, d, tail);
    assert x[..|a|] == a;
    assert x[|a| + 2..] == tail;
    SplitAt(x, d, |a|);
    SplitNone(tail, d);
  }

  /** The subject/group split for any delimiter `d` and closing character `e`. */
  lemma SplitRoundTrip(subject: string, group: string, d: string, e: char)
    requires |d| == 2 && d[0] != d[1] && e != d[1]
    requires !Contains(subject, d) && !Contains(group, d)
    ensures var x := subject + d + (group + [e]);
      && SubstringBefore(x, d) == subject
      && Split(x, d) == [subject, group + [e]]
      && OccursAt(x, d[1..], |subject| + 1)
  {
    var x := subject + d + (group + [e]);
    NoOccurrenceWithEnd(group, d, e);
    SplitOnce(subject, d, group + [e]);
    assert x[|subject| + 1..|subject| + 2] == d[1..];
  }

  /** Writing a subject and a group as "subject [group]" and splitting the text again gives
      both back, as long as neither contains " [". */
  lemma SubjectGroupRoundTrip(subject: string, group: string)
    requires !Contains(subject, " [") && !Contains(group, " [")
    ensures SubjectOf(subject + " [" + group + "]") == subject
    ensures GroupOf(subject + " [" + group + "]") == group
  {
    SplitRoundTrip(subject, group, " [", ']');
    assert " ["[1..] == "[";
    assert subject + " [" + group + "]" == subject + " [" + (group + [']']);
  }

  /** Text without "[" is all subject and no group. */
  lemma NoBracketNoGroup(text: string)
    requires !Contains(text, "[")
    ensures SubjectOf(text) == text
    ensures GroupOf(text) == ""
  {
    if Contains(text, " [") {
      var i := IndexOf(text, " [").value;
      assert text[i + 1..i + 2] == "[";
      assert OccursAt(text, "[", i + 1);
      assert false;
    }
  }

  /** `getFormattedLessonInfo` removes exactly one surrounding pair of parentheses and
      leaves any other text alone; null becomes "". */
  lemma FormatInfoStripsOnePair(inner: string, s: string)
    ensures FormatInfo(Some("(" + inner + ")")) == inner
    ensures !StartsWith(s, "(") || !EndsWith(s, ")") || |s| < 2 ==> FormatInfo(Some(s)) == s
    ensures FormatInfo(None) == ""
  {
    var w := "(" + inner + ")";
    assert w[1..|w| - 1] == inner;
  }

  /** `stripLessonInfo` only deletes: its result is never longer than the info. */
  lemma StripLessonInfoShortens(info: string)
    ensures |StripLessonInfo(info)| <= |info|
  {
    var a := ReplaceAll(info, "okienko dla uczniów", "");
    var b := ReplaceAll(a, "zmiana organizacji zajęć", "");
    ReplaceAllDeletes(info, "okienko dla uczniów");
    ReplaceAllDeletes(a, "zmiana organizacji zajęć");
    ReplaceAllDeletes(b, " ,");
  }

  /** Info without the two boilerplate phrases and without " ," that does not start with
      ", " is left as it is. */
  lemma StripLessonInfoKeepsPlain(info: string)
    requires !Contains(info, "okienko dla uczniów") && !Contains(info, "zmiana organizacji zajęć")
    requires !Contains(info, " ,") && !StartsWith(info, ", ")
    ensures StripLessonInfo(info) == info
  {
    ReplaceAllAbsent(info, "okienko dla uczniów", "");
    ReplaceAllAbsent(info, "zmiana organizacji zajęć", "");
    ReplaceAllAbsent(info, " ,", "");
  }

  // ---------------------------------------------------------------- one layer

  /** The span-count dispatch of `getLessonInfo`, each template with the exact shapes
      that select it. */
  lemma TemplateDispatch(spans: seq<Span>)
    ensures var n := |spans|; var t := TemplateFor(spans);
      && (t == Light <==> n == 2)
      && (t == Simple(0) <==> n == 3 || (n == 4 && LastHasClass(spans, ClassRealized)))
      && (t == Simple(1) <==> n == 5 && FirstHasClass(spans, ClassChanges) && CountWithClass(spans, ClassRealized) == 2)
      && (t == Group <==>
            || (n == 4 && !LastHasClass(spans, ClassRealized))
            || (n == 5 && LastHasClass(spans, ClassRealized)
                && !(FirstHasClass(spans, ClassChanges) && CountWithClass(spans, ClassRealized) == 2)))
      && (t == SimpleWithReplacement <==> n == 7)
      && (t == GroupWithReplacement <==> n == 9)
      && (t == Unrecognized <==>
            || n !in {2, 3, 4, 5, 7, 9}
            || (n == 5 && !LastHasClass(spans, ClassRealized)
                && !(FirstHasClass(spans, ClassChanges) && CountWithClass(spans, ClassRealized) == 2)))
  {
  }

  /** A layer no template recognises leaves the record as it was. */
  lemma UnrecognizedLayerKeepsLesson(lesson: Timetable, layer: Layer)
    requires TemplateFor(layer.spans) == Unrecognized
    ensures LessonInfo(lesson, layer) == lesson
  {
  }

  /** The change text a template receives: the layer's own text, except for group
      lessons, which are given "". */
  function ChangeText(t: Template, layer: Layer): string {
    if t == Group then "" else layer.ownText
  }

  /** For the light, simple and group templates, `canceled` holds exactly when the first
      span is marked moved-or-canceled, and `changes` exactly when the change text is not
      blank and the lesson is not canceled, or the first span is marked changed. */
  lemma PlainTemplateFlags(lesson: Timetable, layer: Layer)
    requires var t := TemplateFor(layer.spans); t.Light? || t.Simple? || t.Group?
    ensures var r := LessonInfo(lesson, layer);
            var first := layer.spans[0].classes;
      && (r.canceled <==> ClassMovedOrCanceled in first)
      && (r.changes <==> (!IsBlank(ChangeText(TemplateFor(layer.spans), layer)) && !r.canceled) || ClassChanges in first)
      && SameOldFields(r, lesson)
  {
  }

  /** Group lessons are changed exactly when their first span is marked changed. */
  lemma GroupChangesOnlyFromMarker(lesson: Timetable, layer: Layer)
    requires TemplateFor(layer.spans) == Group
    ensures LessonInfo(lesson, layer).changes <==> ClassChanges in layer.spans[0].classes
  {
    PlainTemplateFlags(lesson, layer);
  }

  /** Where the info of each plain template comes from. */
  lemma PlainTemplateInfo(lesson: Timetable, layer: Layer)
    ensures var n := |layer.spans|; var t := TemplateFor(layer.spans); var r := LessonInfo(lesson, layer);
      && (t == Light ==> r.info == FormatInfo(Some(layer.ownText)))
      && (n == 3 ==> r.info == FormatInfo(Some(layer.ownText)))
      && (n == 4 && t == Simple(0) ==> r.info == FormatInfo(Some(layer.spans[3].text)))
      && (n == 4 && t == Group ==> r.info == "")
      && (n == 5 && (t == Simple(1) || t == Group) ==> r.info == FormatInfo(Some(layer.spans[4].text)))
  {
  }

  /** Where teacher and room come from in the plain templates: the group template skips
      one span, the light template has a room and no teacher. */
  lemma PlainTemplateFields(lesson: Timetable, layer: Layer)
    ensures var t := TemplateFor(layer.spans); var r := LessonInfo(lesson, layer); var s := layer.spans;
      && (t.Light? || t.Simple? || t.Group? ==>
            r.subject == SubjectOf(s[0].text) && r.group == GroupOf(s[0].text))
      && (t.Light? ==> r.room == s[1].text && r.teacher == lesson.teacher)
      && (t.Simple? ==> r.teacher == s[1].text && r.room == s[2].text)
      && (t.Group? ==> r.teacher == s[2].text && r.room == s[3].text)
  {
  }

  /** The replacement templates: old subject, teacher and room from the spans at 0, 1 + o
      and 2 + o, the new ones from 3 + o, 4 + 2o and 5 + 2o; always changed; the info
      names the old subject; `canceled` is left as it was. */
  lemma ReplacementTemplateFields(lesson: Timetable, layer: Layer)
    requires var t := TemplateFor(layer.spans); t.SimpleWithReplacement? || t.GroupWithReplacement?
    ensures var o := if TemplateFor(layer.spans).SimpleWithReplacement? then 0 else 1;
            var s := layer.spans; var r := LessonInfo(lesson, layer);
      && |s| == 7 + 2 * o
      && r.subjectOld == SubjectOf(s[0].text)
      && r.teacherOld == s[1 + o].text
      && r.roomOld == s[2 + o].text
      && r.subject == SubjectOf(s[3 + o].text)
      && r.group == GroupOf(s[3 + o].text)
      && r.teacher == s[4 + 2 * o].text
      && r.room == s[5 + 2 * o].text
      && r.info == FormatInfo(Some(s[|s| - 1].text)) + ", poprzednio: " + SubjectOf(s[0].text)
      && r.changes
      && r.canceled == lesson.canceled
  {
  }

  // ---------------------------------------------------------------- whole cells

  /** A cell decodes to no lesson exactly when it has no layer or more than three. */
  lemma AbsentIffLayerCount(cell: TimetableCell, capitalise: string -> string)
    ensures GetTimetable(cell, capitalise).None? <==> |cell.layers| == 0 || |cell.layers| >= 4
  {
  }

  /** The number, start, end and date of the slot are copied into the lesson unchanged. */
  lemma SlotPassesThrough(cell: TimetableCell, capitalise: string -> string)
    ensures var r := GetTimetable(cell, capitalise);
      r.Some? ==>
        && r.value.number == cell.number && r.value.start == cell.start
        && r.value.end == cell.end && r.value.date == cell.date
  {
  }

  /** Old subject, teacher or room are only ever reported together with `changes`. */
  lemma OldFieldsImplyChanges(cell: TimetableCell, capitalise: string -> string)
    ensures var r := GetTimetable(cell, capitalise);
      r.Some? && (r.value.subjectOld != "" || r.value.teacherOld != "" || r.value.roomOld != "") ==> r.value.changes
  {
  }

  /** The warning panel only touches `info`: blank info becomes the warning text, other
      info gets ": " and the warning appended. */
  lemma WarningMerge(cell: TimetableCell, warning: string, capitalise: string -> string)
    ensures var plain := GetTimetable(cell.(warning := None), capitalise);
            var warned := GetTimetable(cell.(warning := Some(warning)), capitalise);
      && (plain.None? <==> warned.None?)
      && (plain.Some? ==>
            warned.value == plain.value.(info := if IsBlank(plain.value.info) then warning
                                                 else plain.value.info + ": " + warning))
  {
  }

  /** `r` takes its current fields from `current` and its old fields from `prior`, and is
      reported changed and not canceled. */
  predicate SupersededBy(r: Timetable, current: Timetable, prior: Timetable) {
    && SameSlot(r, current)
    && r.subject == current.subject && r.group == current.group
    && r.teacher == current.teacher && r.room == current.room
    && r.subjectOld == prior.subject && r.teacherOld == prior.teacher && r.roomOld == prior.room
    && r.changes && !r.canceled
  }

  /** A one-layer cell is that layer decoded on its own. */
  lemma OneLayer(cell: TimetableCell, capitalise: string -> string)
    requires |cell.layers| == 1 && cell.warning.None?
    ensures GetTimetable(cell, capitalise) == Some(LayerLesson(cell, 0))
  {
  }

  /** Two layers, the second planned and then moved or canceled: the first layer is the
      lesson, the second its old state, and the two infos are merged. */
  lemma TwoLayersMovedPlanned(cell: TimetableCell, capitalise: string -> string)
    requires |cell.layers| == 2 && cell.warning.None?
    requires FirstHasClass(cell.layers[1].spans, ClassMovedOrCanceled)
    requires FirstHasClass(cell.layers[1].spans, ClassPlanned)
    ensures var r := GetTimetable(cell, capitalise);
            var current := LayerLesson(cell, 0);
            var prior := LayerLesson(cell, 1);
      && r.Some?
      && SameSlot(r.value, current)
      && r.value.subject == current.subject && r.value.group == current.group
      && r.value.teacher == current.teacher && r.value.room == current.room
      && r.value.canceled == current.canceled
      && r.value.subjectOld == prior.subject && r.value.teacherOld == prior.teacher
      && r.value.roomOld == prior.room
      && r.value.changes
      && r.value.info == capitalise(ReplaceAll(
           StripLessonInfo(FormatInfo(Some(current.info)) + ", " + prior.info), current.subject + " ", ""))
  {
  }

  /** Two layers, the second moved or canceled but not planned: the second layer alone.
      This check comes before the changed-marker check, so it wins even when the second
      layer is also marked changed. */
  lemma TwoLayersMovedOnly(cell: TimetableCell, capitalise: string -> string)
    requires |cell.layers| == 2 && cell.warning.None?
    requires FirstHasClass(cell.layers[1].spans, ClassMovedOrCanceled)
    requires !FirstHasClass(cell.layers[1].spans, ClassPlanned)
    ensures GetTimetable(cell, capitalise) == Some(LayerLesson(cell, 1))
  {
  }

  /** Two layers, the second marked changed (and not moved): the second layer supersedes
      the first. */
  lemma TwoLayersChanged(cell: TimetableCell, capitalise: string -> string)
    requires |cell.layers| == 2 && cell.warning.None?
    requires !FirstHasClass(cell.layers[1].spans, ClassMovedOrCanceled)
    requires FirstHasClass(cell.layers[1].spans, ClassChanges)
    ensures var r := GetTimetable(cell, capitalise);
      && r.Some?
      && SupersededBy(r.value, LayerLesson(cell, 1), LayerLesson(cell, 0))
      && r.value.info == LayerLesson(cell, 1).info
  {
  }

  /** Two layers, the first planned and then moved, the second without classes: the
      second layer supersedes the first and the info names the previous lesson. */
  lemma TwoLayersPreviouslyPlanned(cell: TimetableCell, capitalise: string -> string)
    requires |cell.layers| == 2 && cell.warning.None?
    requires FirstHasClass(cell.layers[0].spans, ClassMovedOrCanceled)
    requires FirstHasClass(cell.layers[0].spans, ClassPlanned)
    requires FirstIsUnclassed(cell.layers[1].spans)
    ensures var r := GetTimetable(cell, capitalise);
            var prior := LayerLesson(cell, 0);
      && r.Some?
      && SupersededBy(r.value, LayerLesson(cell, 1), prior)
      && r.value.info == "Poprzednio: " + prior.subject + " (" + prior.info + ")"
  {
  }

  /** Any other two-layer cell is its second layer alone. */
  lemma TwoLayersFallback(cell: TimetableCell, capitalise: string -> string)
    requires |cell.layers| == 2 && cell.warning.None?
    requires !FirstHasClass(cell.layers[1].spans, ClassMovedOrCanceled)
    requires !FirstHasClass(cell.layers[1].spans, ClassChanges)
    requires !(FirstHasClass(cell.layers[0].spans, ClassMovedOrCanceled)
               && FirstHasClass(cell.layers[0].spans, ClassPlanned)
               && FirstIsUnclassed(cell.layers[1].spans))
    ensures GetTimetable(cell, capitalise) == Some(LayerLesson(cell, 1))
  {
  }

  /** Three layers marked changed, moved, moved: the first supersedes the second. */
  lemma ThreeLayersChangedFirst(cell: TimetableCell, capitalise: string -> string)
    requires |cell.layers| == 3 && cell.warning.None?
    requires FirstHasClass(cell.layers[0].spans, ClassChanges)
    requires FirstHasClass(cell.layers[1].spans, ClassMovedOrCanceled)
    requires FirstHasClass(cell.layers[2].spans, ClassMovedOrCanceled)
    ensures var r := GetTimetable(cell, capitalise);
      && r.Some?
      && SupersededBy(r.value, LayerLesson(cell, 0), LayerLesson(cell, 1))
      && r.value.info == LayerLesson(cell, 0).info
  {
  }

  /** Three layers marked moved, moved, changed (and not also matching the pattern
      above): the third supersedes the first. */
  lemma ThreeLayersChangedLast(cell: TimetableCell, capitalise: string -> string)
    requires |cell.layers| == 3 && cell.warning.None?
    requires FirstHasClass(cell.layers[0].spans, ClassMovedOrCanceled)
    requires FirstHasClass(cell.layers[1].spans, ClassMovedOrCanceled)
    requires FirstHasClass(cell.layers[2].spans, ClassChanges)
    requires !(FirstHasClass(cell.layers[0].spans, ClassChanges)
               && FirstHasClass(cell.layers[2].spans, ClassMovedOrCanceled))
    ensures var r := GetTimetable(cell, capitalise);
      && r.Some?
      && SupersededBy(r.value, LayerLesson(cell, 2), LayerLesson(cell, 0))
      && r.value.info == LayerLesson(cell, 2).info
  {
  }

  /** Any other three-layer cell is its middle layer alone. */
  lemma ThreeLayersFallback(cell: TimetableCell, capitalise: string -> string)
    requires |cell.layers| == 3 && cell.warning.None?
    requires !(FirstHasClass(cell.layers[0].spans, ClassChanges)
               && FirstHasClass(cell.layers[1].spans, ClassMovedOrCanceled)
               && FirstHasClass(cell.layers[2].spans, ClassMovedOrCanceled))
    requires !(FirstHasClass(cell.layers[0].spans, ClassMovedOrCanceled)
               && FirstHasClass(cell.layers[1].spans, ClassMovedOrCanceled)
               && FirstHasClass(cell.layers[2].spans, ClassChanges))
    ensures GetTimetable(cell, capitalise) == Some(LayerLesson(cell, 1))
  {
  }
}
