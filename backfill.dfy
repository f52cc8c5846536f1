/** The `generate-course-embeddings` edge function: it selects the courses
    whose embedding is NULL, walks them in consecutive batches of five with a
    two-second pause between batches, and for each course builds a labelled
    text, requests its embedding through the retry helper and writes it to
    the course's row. A failure of one course is counted and never stops the
    walk.

    The provider's outcomes and the database's answers to the updates are
    parameters, indexed by the position of the course in the selection. The
    pauses are recorded, not waited. */
module EmbeddingBackfill {
  import opened Wrappers
  import opened JsText
  import opened LabelledTemplate
  import opened OpenAIRetry
  import opened Catalog

  const CourseLabels: seq<string> := [
    "Title: ", "University: ", "Field: ", "Description: ", "Key Subjects: ", "Career Prospects: "]
  /** Indentation of the lines of the template literal, and of its closing
      backtick. */
  const CourseIndent: string := "            "
  const CourseClosing: string := "          "
  const ListSeparator: string := ", "
  const BatchSize: nat := 5
  const PauseMillis: nat := 2000
  const AllEmbeddedMessage: string := "All courses already have embeddings"

  function CourseValues(c: Course): seq<string> {
    [c.title, c.university, c.field, c.description, Join(c.keySubjects, ListSeparator), Join(c.careerProspects, ListSeparator)]
  }

  /** `courseText`: the trimmed template literal. */
  function CourseText(c: Course): string {
    Render(CourseLabels, CourseValues(c), CourseIndent, CourseClosing)
  }

  /** No line break in a course's text fields or list entries. */
  predicate SingleLineFields(c: Course) {
    && '\n' !in c.title && '\n' !in c.university && '\n' !in c.field && '\n' !in c.description
    && (forall i :: 0 <= i < |c.keySubjects| ==> '\n' !in c.keySubjects[i])
    && (forall i :: 0 <= i < |c.careerProspects| ==> '\n' !in c.careerProspects[i])
  }

  /** The course text consists of six labelled lines in the fixed order, the
      two lists joined by ", "; the inner lines keep their indentation and
      only the end of the last line is trimmed. */
  lemma CourseTextLines(c: Course)
    requires SingleLineFields(c)
    ensures Split(CourseText(c), '\n') == [
      "Title: " + c.title,
      CourseIndent + "University: " + c.university,
      CourseIndent + "Field: " + c.field,
      CourseIndent + "Description: " + c.description,
      CourseIndent + "Key Subjects: " + Join(c.keySubjects, ", "),
      TrimEnd(CourseIndent + "Career Prospects: " + Join(c.careerProspects, ", "))]
  {
    CourseWellFormed(c);
    RenderLines(CourseLabels, CourseValues(c), CourseIndent, CourseClosing);
    CourseExpectedLines(c);
  }

  lemma CourseWellFormed(c: Course)
    requires SingleLineFields(c)
    ensures WellFormed(CourseLabels, CourseValues(c), CourseIndent, CourseClosing)
  {
    var V := CourseValues(c);
    CourseLabelsReadable();
    JoinAvoids(c.keySubjects, ListSeparator, '\n');
    JoinAvoids(c.careerProspects, ListSeparator, '\n');
    assert AllWhitespace(CourseIndent) && AllWhitespace(CourseClosing);
    assert forall i :: 0 <= i < 6 ==> '\n' !in V[i];
  }

  lemma CourseLabelsReadable()
    ensures forall i :: 0 <= i < |CourseLabels| ==>
      CourseLabels[i] != [] && !IsWhitespace(CourseLabels[i][0]) && '\n' !in CourseLabels[i]
  {
    FirstCourseLabelsReadable();
    LastCourseLabelsReadable();
  }

  lemma FirstCourseLabelsReadable()
    ensures forall i :: 0 <= i < 3 ==>
      CourseLabels[i] != [] && !IsWhitespace(CourseLabels[i][0]) && '\n' !in CourseLabels[i]
  {
    var L := CourseLabels;
    assert L[0][0] == 'T' && L[1][0] == 'U' && L[2][0] == 'F';
    assert '\n' !in L[0] && '\n' !in L[1] && '\n' !in L[2];
  }

  lemma LastCourseLabelsReadable()
    ensures forall i :: 3 <= i < 6 ==>
      CourseLabels[i] != [] && !IsWhitespace(CourseLabels[i][0]) && '\n' !in CourseLabels[i]
  {
    var L := CourseLabels;
    assert L[3][0] == 'D' && L[4][0] == 'K' && L[5][0] == 'C';
    assert '\n' !in L[3] && '\n' !in L[4] && '\n' !in L[5];
  }

  lemma CourseExpectedLines(c: Course)
    ensures ExpectedLines("", CourseLabels, CourseValues(c), CourseIndent) == [
      "Title: " + c.title,
      CourseIndent + "University: " + c.university,
      CourseIndent + "Field: " + c.field,
      CourseIndent + "Description: " + c.description,
      CourseIndent + "Key Subjects: " + Join(c.keySubjects, ", "),
      TrimEnd(CourseIndent + "Career Prospects: " + Join(c.careerProspects, ", "))]
  {
    SixLines(CourseLabels, CourseValues(c), CourseIndent);
  }

  /** `.update({embedding}).eq('id', id)`: every row with that id gets the
      embedding. */
  function SetEmbedding(rows: seq<Course>, id: string, embedding: Embedding): (r: seq<Course>)
    ensures |r| == |rows|
  {
    seq(|rows|, i requires 0 <= i < |rows| => if rows[i].id == id then rows[i].(embedding := Some(embedding)) else rows[i])
  }

  /** The update touches only the embedding column, and only of the rows
      whose id matches. */
  lemma SetEmbeddingEffect(rows: seq<Course>, id: string, embedding: Embedding)
    ensures var r := SetEmbedding(rows, id, embedding);
      && (forall i :: 0 <= i < |rows| ==> r[i].(embedding := rows[i].embedding) == rows[i])
      && (forall i :: 0 <= i < |rows| ==> r[i].embedding == if rows[i].id == id then Some(embedding) else rows[i].embedding)
  {
  }

  /** The `courses` table. */
  class CourseTable {
    var rows: seq<Course>

    constructor (rows: seq<Course>)
      ensures this.rows == rows
    {
      this.rows := rows;
    }

    method UpdateEmbedding(id: string, embedding: Embedding)
      modifies this
      ensures rows == SetEmbedding(old(rows), id, embedding)
    {
      rows := SetEmbedding(rows, id, embedding);
    }
  }

  /** What the outside world answers, and how the helper is called:
      `provider(k)` is the provider for the embedding request of the `k`-th
      selected course, `updateError(k)` the database's answer to its update,
      and `maxRetries` the helper's retry bound (the function relies on the
      default, `DefaultMaxRetries`; every statement here holds for any
      bound). */
  datatype World = World(provider: nat -> nat -> Outcome, updateError: nat -> Option<string>, maxRetries: nat)

  /** A request the function issues, or a pause between batches. */
  datatype Event =
    | Embed(course: nat, input: string, fetches: nat, waits: seq<nat>)
    | Update(id: string, embedding: Embedding)
    | Pause(millis: nat)

  /** The JSON reply: nothing to do, the two counters, or status 500. */
  datatype BackfillResponse =
    | AllEmbedded(message: string)
    | Processed(coursesProcessed: nat, failures: nat, message: string)
    | Failed(error: string)

  function SuccessMessage(n: nat): string {
    "Successfully generated embeddings for " + NatToString(n) + " courses"
  }

  function EmbeddingOf(courses: seq<Course>, k: nat, w: World): Trace
    requires k < |courses|
  {
    Request(w.provider(k), w.maxRetries)
  }

  /** Course `k` bumps `successCount`: its embedding came back and its update
      succeeded; otherwise it bumps `failureCount`. */
  predicate Succeeded(courses: seq<Course>, k: nat, w: World)
    requires k < |courses|
  {
    EmbeddingOf(courses, k, w).reply.Returned? && w.updateError(k).None?
  }

  /** The requests made for course `k`: the embedding request, and the
      update when an embedding came back. */
  function CourseEvents(courses: seq<Course>, k: nat, w: World): seq<Event>
    requires k < |courses|
  {
    var t := EmbeddingOf(courses, k, w);
    [Embed(k, CourseText(courses[k]), t.fetches, t.waits)]
      + (if t.reply.Returned? then [Update(courses[k].id, t.reply.body)] else [])
  }

  /** `courses.slice(i, i + 5)` ends here. */
  function BatchEnd(i: nat, n: nat): nat {
    if i + BatchSize <= n then i + BatchSize else n
  }

  /** The requests made for each selected course, in selection order. */
  function PerCourse(courses: seq<Course>, w: World): (per: seq<seq<Event>>)
    ensures |per| == |courses|
  {
    seq(|courses|, k requires 0 <= k < |courses| => CourseEvents(courses, k, w))
  }

  /** The requests of the courses `lo..hi-1`, course by course. */
  function Between(per: seq<seq<Event>>, lo: nat, hi: nat): seq<Event>
    requires lo <= hi <= |per|
    decreases hi
  {
    if lo == hi then [] else Between(per, lo, hi - 1) + per[hi - 1]
  }

  /** The batch schedule from course `i` on: a batch of (at most) five
      courses, a pause when more courses follow, and the schedule of the
      rest. */
  function Batches(per: seq<seq<Event>>, i: nat): seq<Event>
    requires i <= |per|
    decreases |per| - i
  {
    if |per| - i <= BatchSize then Between(per, i, |per|)
    else Between(per, i, i + BatchSize) + [Pause(PauseMillis)] + Batches(per, i + BatchSize)
  }

  /** The reference run of the batch loop. */
  function Events(courses: seq<Course>, w: World): seq<Event> {
    Batches(PerCourse(courses, w), 0)
  }

  /** The per-course requests, as the loops see them: course `k`'s entry is
      what its turn of the inner loop issues. */
  lemma Requests(courses: seq<Course>, w: World) returns (per: seq<seq<Event>>)
    ensures |per| == |courses| && Events(courses, w) == Batches(per, 0)
    ensures forall k {:trigger CourseEvents(courses, k, w)} :: 0 <= k < |courses| ==> per[k] == CourseEvents(courses, k, w)
  {
    per := PerCourse(courses, w);
  }

  /** `successCount` after the first `k` courses. */
  function SuccessCount(courses: seq<Course>, k: nat, w: World): (r: nat)
    requires k <= |courses|
    ensures r <= k
  {
    if k == 0 then 0 else SuccessCount(courses, k - 1, w) + (if Succeeded(courses, k - 1, w) then 1 else 0)
  }

  /** The table after the first `k` courses were processed. */
  function Backfilled(rows: seq<Course>, courses: seq<Course>, k: nat, w: World): (r: seq<Course>)
    requires k <= |courses|
    ensures |r| == |rows|
  {
    if k == 0 then rows
    else
      var r := Backfilled(rows, courses, k - 1, w);
      if Succeeded(courses, k - 1, w) then SetEmbedding(r, courses[k - 1].id, EmbeddingOf(courses, k - 1, w).reply.body) else r
  }

  /** The handler body: the key check, the selection of the courses whose
      embedding is NULL, and the batch loops over them. */
  method GenerateCourseEmbeddings(table: CourseTable, hasApiKey: bool, selectError: Option<string>, w: World)
    returns (response: BackfillResponse, log: seq<Event>)
    modifies table
    ensures var courses := SelectByEmbedding(old(table.rows), false);
      if !hasApiKey || selectError.Some? || |courses| == 0 then
        && response == (if !hasApiKey then Failed(MissingKeyMessage)
                        else if selectError.Some? then Failed(selectError.value)
                        else AllEmbedded(AllEmbeddedMessage))
        && log == [] && table.rows == old(table.rows)
      else
        var successes := SuccessCount(courses, |courses|, w);
        && response == Processed(successes, |courses| - successes, SuccessMessage(successes))
        && log == Events(courses, w)
        && table.rows == Backfilled(old(table.rows), courses, |courses|, w)
  {
    log := [];
    if !hasApiKey {
      response := Failed(MissingKeyMessage);
      return;
    }
    if selectError.Some? {
      response := Failed(selectError.value);
      return;
    }
    var courses := SelectByEmbedding(table.rows, false);
    if |courses| == 0 {
      response := AllEmbedded(AllEmbeddedMessage);
      return;
    }
    var successCount, failureCount;
    successCount, failureCount, log := ProcessAll(table, courses, w);
    response := Processed(successCount, failureCount, SuccessMessage(successCount));
  }

  /** The outer loop: `i` steps by five over the selection, and a pause
      follows every batch but the last. */
  method ProcessAll(table: CourseTable, courses: seq<Course>, w: World)
    returns (successCount: nat, failureCount: nat, log: seq<Event>)
    modifies table
    ensures successCount == SuccessCount(courses, |courses|, w) && failureCount == |courses| - successCount
    ensures log == Events(courses, w)
    ensures table.rows == Backfilled(old(table.rows), courses, |courses|, w)
  {
    ghost var rows0 := table.rows;
    ghost var per := Requests(courses, w);
    var n := |courses|;
    successCount, failureCount, log := 0, 0, [];
    var i := 0;
    ghost var done := 0;
    while i < n
      invariant done <= n && (i < n ==> done == i) && (i >= n ==> done == n)
      invariant successCount == SuccessCount(courses, done, w) && failureCount == done - successCount
      invariant table.rows == Backfilled(rows0, courses, done, w)
      invariant Events(courses, w) == log + Batches(per, done)
      decreases n - i
    {
      var end := BatchEnd(i, n);
      ghost var before := log;
      successCount, failureCount, log := ProcessBatch(table, courses, i, end, w, successCount, failureCount, log, rows0, per);
      if i + BatchSize < n {
        log := log + [Pause(PauseMillis)];
      }
      ScheduleStep(per, i, Events(courses, w), before, log);
      i := i + BatchSize;
      done := end;
    }
  }

  /** The inner loop: `for (const course of courses.slice(i, end))`,
      every course bumping one of the two counters. */
  method ProcessBatch(table: CourseTable, courses: seq<Course>, i: nat, end: nat, w: World,
                      successes: nat, failures: nat, logged: seq<Event>,
                      ghost rows0: seq<Course>, ghost per: seq<seq<Event>>)
    returns (successCount: nat, failureCount: nat, log: seq<Event>)
    requires i <= end <= |courses| == |per|
    requires forall k {:trigger CourseEvents(courses, k, w)} :: i <= k < end ==> per[k] == CourseEvents(courses, k, w)
    requires successes == SuccessCount(courses, i, w) && failures == i - successes
    requires table.rows == Backfilled(rows0, courses, i, w)
    modifies table
    ensures successCount == SuccessCount(courses, end, w) && failureCount == end - successCount
    ensures table.rows == Backfilled(rows0, courses, end, w)
    ensures log == logged + Between(per, i, end)
  {
    successCount, failureCount, log := successes, failures, logged;
    var k := i;
    while k < end
      invariant i <= k <= end
      invariant successCount == SuccessCount(courses, k, w) && failureCount == k - successCount
      invariant table.rows == Backfilled(rows0, courses, k, w)
      invariant log == logged + Between(per, i, k)
    {
      var stored, events := ProcessCourse(table, courses, k, w, rows0);
      CountStep(courses, k, w, stored, successCount, failureCount);
      LogStep(per, i, k, logged, log, events);
      log := log + events;
      if stored {
        successCount := successCount + 1;
      } else {
        failureCount := failureCount + 1;
      }
      k := k + 1;
    }
  }

  /** The body of the inner loop for course `k`: build its text, request its
      embedding, and on success write it to the row with the course's id.
      `stored` tells which counter the course bumps. */
  method ProcessCourse(table: CourseTable, courses: seq<Course>, k: nat, w: World, ghost rows0: seq<Course>)
    returns (stored: bool, events: seq<Event>)
    requires k < |courses| && table.rows == Backfilled(rows0, courses, k, w)
    modifies table
    ensures stored == Succeeded(courses, k, w)
    ensures events == CourseEvents(courses, k, w)
    ensures table.rows == Backfilled(rows0, courses, k + 1, w)
  {
    var course := courses[k];
    var text := CourseText(course);
    var reply, fetches, waits := MakeRequest(w.provider(k), w.maxRetries);
    events := [Embed(k, text, fetches, waits)];
    stored := false;
    if reply.Returned? {
      events := events + [Update(course.id, reply.body)];
      if w.updateError(k).None? {
        table.UpdateEmbedding(course.id, reply.body);
        stored := true;
      }
    }
  }

  /** One turn of the outer loop extends the recorded prefix of the run by
      one batch and the pause after it. */
  lemma ScheduleStep(per: seq<seq<Event>>, i: nat, run: seq<Event>, before: seq<Event>, after: seq<Event>)
    requires i < |per| && run == before + Batches(per, i)
    requires after == before + Between(per, i, BatchEnd(i, |per|))
                     + (if i + BatchSize < |per| then [Pause(PauseMillis)] else [])
    ensures run == after + Batches(per, BatchEnd(i, |per|))
  {
    var batch := Between(per, i, BatchEnd(i, |per|));
    if i + BatchSize < |per| {
      var rest := Batches(per, i + BatchSize);
      AppendAssoc(before, batch + [Pause(PauseMillis)], rest);
      AppendAssoc(before, batch, [Pause(PauseMillis)]);
    } else {
      assert Batches(per, |per|) == [];
      assert after + [] == after;
    }
  }

  /** One course moves the counters to those of the next prefix. */
  lemma CountStep(courses: seq<Course>, k: nat, w: World, stored: bool, successes: nat, failures: nat)
    requires k < |courses| && stored == Succeeded(courses, k, w)
    requires successes == SuccessCount(courses, k, w) && failures == k - successes
    ensures (if stored then successes + 1 else successes) == SuccessCount(courses, k + 1, w)
    ensures (if stored then failures else failures + 1) == k + 1 - SuccessCount(courses, k + 1, w)
  {
  }

  lemma LogStep(per: seq<seq<Event>>, i: nat, k: nat, logged: seq<Event>, log: seq<Event>, events: seq<Event>)
    requires i <= k < |per| && log == logged + Between(per, i, k) && events == per[k]
    ensures log + events == logged + Between(per, i, k + 1)
  {
    AppendAssoc(logged, Between(per, i, k), events);
  }

  lemma AppendAssoc<T>(a: seq<T>, b: seq<T>, c: seq<T>)
    ensures (a + b) + c == a + (b + c)
  {
  }
}
