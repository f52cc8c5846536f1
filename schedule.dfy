/** What the batch loop of the embedding backfill promises about the run it
    produces: the courses are requested in selection order, as consecutive
    batches of five (the last possibly shorter), with one pause between
    consecutive batches and none after the last; every course bumps exactly
    one counter; and a row that already had an embedding is never written. */
module BackfillSchedule {
  import opened Wrappers
  import opened OpenAIRetry
  import opened Catalog
  import opened EmbeddingBackfill

  predicate NoPause(s: seq<Event>) {
    forall i :: 0 <= i < |s| ==> !s[i].Pause?
  }

  /** The run cut at its pauses: the requests made between two pauses. */
  function SplitAtPauses(s: seq<Event>): (r: seq<seq<Event>>)
    ensures |r| >= 1
  {
    if s == [] then [[]]
    else
      var rest := SplitAtPauses(s[1..]);
      if s[0].Pause? then [[]] + rest else [[s[0]] + rest[0]] + rest[1..]
  }

  function CountPauses(s: seq<Event>): nat {
    if s == [] then 0 else (if s[0].Pause? then 1 else 0) + CountPauses(s[1..])
  }

  /** The courses of the embedding requests, in the order they are made. */
  function EmbeddedCourses(s: seq<Event>): seq<nat> {
    if s == [] then [] else (if s[0].Embed? then [s[0].course] else []) + EmbeddedCourses(s[1..])
  }

  /** The positions `lo..hi-1`, ascending. */
  function Span(lo: nat, hi: nat): (r: seq<nat>)
    ensures |r| == if lo <= hi then hi - lo else 0
    decreases hi
  {
    if hi <= lo then [] else Span(lo, hi - 1) + [hi - 1]
  }

  /** What every course's entry looks like: exactly one embedding request,
      for that course, and no pause. */
  predicate Shaped(per: seq<seq<Event>>) {
    forall k :: 0 <= k < |per| ==> NoPause(per[k]) && EmbeddedCourses(per[k]) == [k]
  }

  /** The batches of the run from course `i` on: the requests of each slice
      of five courses, the last slice possibly shorter. */
  function BatchList(per: seq<seq<Event>>, i: nat): (r: seq<seq<Event>>)
    requires i <= |per|
    ensures |r| >= 1
    decreases |per| - i
  {
    if |per| - i <= BatchSize then [Between(per, i, |per|)]
    else [Between(per, i, i + BatchSize)] + BatchList(per, i + BatchSize)
  }

  /** The number of slices of five that cover `m` courses: ceil(m / 5). */
  function BatchCount(m: nat): nat {
    (m + BatchSize - 1) / BatchSize
  }

  // Lemmas about the event sequences

  lemma {:induction false} SplitWithoutPause(a: seq<Event>)
    requires NoPause(a)
    ensures SplitAtPauses(a) == [a]
  {
    if a != [] {
      SplitWithoutPause(a[1..]);
      assert [a[0]] + a[1..] == a;
    }
  }

  lemma {:induction false} SplitAtPause(a: seq<Event>, b: seq<Event>)
    requires NoPause(a)
    ensures SplitAtPauses(a + [Pause(PauseMillis)] + b) == [a] + SplitAtPauses(b)
  {
    if a == [] {
      assert a + [Pause(PauseMillis)] + b == [Pause(PauseMillis)] + b;
      assert ([Pause(PauseMillis)] + b)[1..] == b;
    } else {
      assert (a + [Pause(PauseMillis)] + b)[1..] == a[1..] + [Pause(PauseMillis)] + b;
      SplitAtPause(a[1..], b);
      assert [a[0]] + a[1..] == a;
    }
  }

  /** Cutting at the pauses yields one piece more than there are pauses. */
  lemma {:induction false} SplitCountsPauses(s: seq<Event>)
    ensures |SplitAtPauses(s)| == CountPauses(s) + 1
  {
    if s != [] {
      SplitCountsPauses(s[1..]);
    }
  }

  lemma {:induction false} EmbeddedCoursesAppend(a: seq<Event>, b: seq<Event>)
    ensures EmbeddedCourses(a + b) == EmbeddedCourses(a) + EmbeddedCourses(b)
  {
    if a == [] {
      assert a + b == b;
    } else {
      var head := if a[0].Embed? then [a[0].course] else [];
      assert (a + b)[0] == a[0];
      assert (a + b)[1..] == a[1..] + b;
      assert EmbeddedCourses(a + b) == head + EmbeddedCourses(a[1..] + b);
      EmbeddedCoursesAppend(a[1..], b);
      assert EmbeddedCourses(a) == head + EmbeddedCourses(a[1..]);
    }
  }

  lemma {:induction false} NoPauseAppend(a: seq<Event>, b: seq<Event>)
    requires NoPause(a) && NoPause(b)
    ensures NoPause(a + b)
  {
    assert forall i :: 0 <= i < |a + b| ==> (a + b)[i] == if i < |a| then a[i] else b[i - |a|];
  }

  lemma {:induction false} SpanAppend(lo: nat, mid: nat, hi: nat)
    requires lo <= mid <= hi
    ensures Span(lo, mid) + Span(mid, hi) == Span(lo, hi)
    decreases hi
  {
    if mid < hi {
      SpanAppend(lo, mid, hi - 1);
    } else {
      assert Span(mid, hi) == [];
    }
  }

  // Lemmas about the schedule over per-course entries

  lemma {:induction false} BetweenShape(per: seq<seq<Event>>, lo: nat, hi: nat)
    requires lo <= hi <= |per| && Shaped(per)
    ensures NoPause(Between(per, lo, hi))
    ensures EmbeddedCourses(Between(per, lo, hi)) == Span(lo, hi)
    decreases hi
  {
    if lo < hi {
      BetweenShape(per, lo, hi - 1);
      NoPauseAppend(Between(per, lo, hi - 1), per[hi - 1]);
      EmbeddedCoursesAppend(Between(per, lo, hi - 1), per[hi - 1]);
    }
  }

  /** The run, cut at its pauses, is exactly the list of batches. */
  lemma {:induction false} SegmentsAreBatches(per: seq<seq<Event>>, i: nat)
    requires i <= |per| && Shaped(per)
    ensures SplitAtPauses(Batches(per, i)) == BatchList(per, i)
    decreases |per| - i
  {
    if |per| - i <= BatchSize {
      BetweenShape(per, i, |per|);
      SplitWithoutPause(Between(per, i, |per|));
    } else {
      BetweenShape(per, i, i + BatchSize);
      SegmentsAreBatches(per, i + BatchSize);
      SplitAtPause(Between(per, i, i + BatchSize), Batches(per, i + BatchSize));
    }
  }

  /** Batch `j` holds the requests of courses `i + 5j` up to the next
      multiple of five or the end; all batches but the last are full, and
      the last is not empty when there is a course left. */
  lemma {:induction false} BatchListShape(per: seq<seq<Event>>, i: nat)
    requires i < |per|
    ensures var b := BatchList(per, i);
      && |b| == BatchCount(|per| - i)
      && (forall j :: 0 <= j < |b| ==> i + BatchSize * j < |per| && b[j] == Between(per, i + BatchSize * j, BatchEnd(i + BatchSize * j, |per|)))
      && (forall j :: 0 <= j < |b| - 1 ==> BatchEnd(i + BatchSize * j, |per|) == i + BatchSize * j + BatchSize)
    decreases |per| - i
  {
    var b := BatchList(per, i);
    if |per| - i > BatchSize {
      BatchListShape(per, i + BatchSize);
      var b' := BatchList(per, i + BatchSize);
      assert b == [Between(per, i, i + BatchSize)] + b';
      forall j | 1 <= j < |b|
        ensures i + BatchSize * j < |per| && b[j] == Between(per, i + BatchSize * j, BatchEnd(i + BatchSize * j, |per|))
      {
        assert b[j] == b'[j - 1];
        assert i + BatchSize + BatchSize * (j - 1) == i + BatchSize * j;
      }
      forall j | 1 <= j < |b| - 1
        ensures BatchEnd(i + BatchSize * j, |per|) == i + BatchSize * j + BatchSize
      {
        assert i + BatchSize + BatchSize * (j - 1) == i + BatchSize * j;
      }
    }
  }

  lemma {:induction false} BatchesInOrder(per: seq<seq<Event>>, i: nat)
    requires i <= |per| && Shaped(per)
    ensures EmbeddedCourses(Batches(per, i)) == Span(i, |per|)
    decreases |per| - i
  {
    if |per| - i <= BatchSize {
      BetweenShape(per, i, |per|);
    } else {
      var batch := Between(per, i, i + BatchSize);
      BetweenShape(per, i, i + BatchSize);
      BatchesInOrder(per, i + BatchSize);
      EmbeddedCoursesAppend(batch + [Pause(PauseMillis)], Batches(per, i + BatchSize));
      EmbeddedCoursesAppend(batch, [Pause(PauseMillis)]);
      assert EmbeddedCourses([Pause(PauseMillis)]) == [];
      assert batch + [] == batch;
      SpanAppend(i, i + BatchSize, |per|);
    }
  }

  lemma {:induction false} BetweenEndsWithCourse(per: seq<seq<Event>>, lo: nat, hi: nat)
    requires lo < hi <= |per| && Shaped(per)
    ensures var s := Between(per, lo, hi); s != [] && !s[|s| - 1].Pause?
  {
    var last := per[hi - 1];
    assert EmbeddedCourses(last) == [hi - 1];
    assert last != [];
    assert !last[|last| - 1].Pause?;
  }

  lemma {:induction false} BatchesEndWithCourse(per: seq<seq<Event>>, i: nat)
    requires i < |per| && Shaped(per)
    ensures var s := Batches(per, i); s != [] && !s[|s| - 1].Pause?
    decreases |per| - i
  {
    if |per| - i <= BatchSize {
      BetweenEndsWithCourse(per, i, |per|);
    } else {
      BatchesEndWithCourse(per, i + BatchSize);
    }
  }

  // The run of the handler

  /** Every course's entry is one embedding request for it, possibly followed
      by its update. */
  lemma PerCourseShaped(courses: seq<Course>, w: World)
    ensures Shaped(PerCourse(courses, w))
  {
    var per := PerCourse(courses, w);
    forall k | 0 <= k < |per| ensures NoPause(per[k]) && EmbeddedCourses(per[k]) == [k] {
      var e := per[k];
      assert e == CourseEvents(courses, k, w);
      var t := EmbeddingOf(courses, k, w);
      var embed := Embed(k, CourseText(courses[k]), t.fetches, t.waits);
      if t.reply.Returned? {
        var update := Update(courses[k].id, t.reply.body);
        assert e == [embed, update];
        assert e[1..] == [update] && e[1..][1..] == [];
        assert EmbeddedCourses([update]) == [];
        assert EmbeddedCourses(e) == [k] + EmbeddedCourses([update]);
      } else {
        assert e == [embed] && e[1..] == [];
        assert EmbeddedCourses(e) == [k] + EmbeddedCourses([]);
      }
    }
  }

  /** The run cut at its pauses is ceil(n/5) batches: batch `j` holds the
      requests of courses `5j` up to `min(5j + 5, n)`, every batch but the
      last has five courses, and there is one pause fewer than batches. */
  lemma RunIsBatched(courses: seq<Course>, w: World)
    requires |courses| > 0
    ensures var run, n := Events(courses, w), |courses|;
      var segs := SplitAtPauses(run);
      && |segs| == BatchCount(n)
      && CountPauses(run) == BatchCount(n) - 1
      && (forall j :: 0 <= j < |segs| ==> BatchSize * j < n && segs[j] == Between(PerCourse(courses, w), BatchSize * j, BatchEnd(BatchSize * j, n)))
      && (forall j :: 0 <= j < |segs| - 1 ==> BatchEnd(BatchSize * j, n) == BatchSize * j + BatchSize)
  {
    var per := PerCourse(courses, w);
    PerCourseShaped(courses, w);
    SegmentsAreBatches(per, 0);
    BatchListShape(per, 0);
    SplitCountsPauses(Events(courses, w));
  }

  /** The embedding requests are made once per course, in selection order. */
  lemma CoursesInOrder(courses: seq<Course>, w: World)
    ensures EmbeddedCourses(Events(courses, w)) == Span(0, |courses|)
  {
    PerCourseShaped(courses, w);
    BatchesInOrder(PerCourse(courses, w), 0);
  }

  /** The run never ends with a pause. */
  lemma NoTrailingPause(courses: seq<Course>, w: World)
    requires |courses| > 0
    ensures var run := Events(courses, w); run != [] && !run[|run| - 1].Pause?
  {
    PerCourseShaped(courses, w);
    BatchesEndWithCourse(PerCourse(courses, w), 0);
  }

  /** Twelve courses come in batches of 5, 5 and 2 with two pauses. */
  lemma TwelveCourses(courses: seq<Course>, w: World)
    requires |courses| == 12
    ensures var run := Events(courses, w);
      && |SplitAtPauses(run)| == 3 && CountPauses(run) == 2
      && BatchEnd(0, 12) == 5 && BatchEnd(5, 12) == 10 && BatchEnd(10, 12) == 12
  {
    RunIsBatched(courses, w);
  }

  // The counters

  /** `successCount` is the number of courses that succeeded, so it reaches
      `k` exactly when all of the first `k` succeeded and stays 0 exactly
      when none did. */
  lemma {:induction false} SuccessCountExtremes(courses: seq<Course>, k: nat, w: World)
    requires k <= |courses|
    ensures SuccessCount(courses, k, w) == k <==> forall j :: 0 <= j < k ==> Succeeded(courses, j, w)
    ensures SuccessCount(courses, k, w) == 0 <==> forall j :: 0 <= j < k ==> !Succeeded(courses, j, w)
  {
    if k > 0 {
      SuccessCountExtremes(courses, k - 1, w);
    }
  }

  /** With exactly one failing course, `successCount` is one short. */
  lemma {:induction false} OneFailure(courses: seq<Course>, k: nat, f: nat, w: World)
    requires f < k <= |courses|
    requires !Succeeded(courses, f, w)
    requires forall j :: 0 <= j < k && j != f ==> Succeeded(courses, j, w)
    ensures SuccessCount(courses, k, w) == k - 1
  {
    if k - 1 == f {
      SuccessCountExtremes(courses, f, w);
    } else {
      OneFailure(courses, k - 1, f, w);
    }
  }

  /** Twelve courses of which exactly one fails: 11 processed, 1 failure. */
  lemma TwelveWithOneFailure(courses: seq<Course>, f: nat, w: World)
    requires |courses| == 12 && f < 12
    requires !Succeeded(courses, f, w)
    requires forall j :: 0 <= j < 12 && j != f ==> Succeeded(courses, j, w)
    ensures SuccessCount(courses, 12, w) == 11 && 12 - SuccessCount(courses, 12, w) == 1
  {
    OneFailure(courses, 12, f, w);
  }

  // The table

  /** Processing courses that are rows without an embedding never writes a
      row that has one, because ids are unique. */
  lemma {:induction false} EmbeddedRowsUntouched(rows: seq<Course>, courses: seq<Course>, k: nat, w: World)
    requires UniqueIds(rows) && k <= |courses|
    requires forall i :: 0 <= i < |courses| ==> courses[i] in rows && !HasEmbedding(courses[i])
    ensures forall j :: 0 <= j < |rows| && HasEmbedding(rows[j]) ==> Backfilled(rows, courses, k, w)[j] == rows[j]
  {
    if k > 0 {
      EmbeddedRowsUntouched(rows, courses, k - 1, w);
      var before := Backfilled(rows, courses, k - 1, w);
      if Succeeded(courses, k - 1, w) {
        forall j | 0 <= j < |rows| && HasEmbedding(rows[j]) ensures Backfilled(rows, courses, k, w)[j] == rows[j] {
          UntouchedStep(rows, before, courses[k - 1], EmbeddingOf(courses, k - 1, w).reply.body, j);
        }
      }
    }
  }

  /** The backfill never re-embeds a course: the rows that had an embedding
      before the run are unchanged after it. */
  lemma NeverReembedded(rows: seq<Course>, w: World)
    requires UniqueIds(rows)
    ensures var courses := SelectByEmbedding(rows, false);
      forall j :: 0 <= j < |rows| && HasEmbedding(rows[j]) ==> Backfilled(rows, courses, |courses|, w)[j] == rows[j]
  {
    var courses := SelectByEmbedding(rows, false);
    forall i | 0 <= i < |courses| ensures courses[i] in rows && !HasEmbedding(courses[i]) {
      SelectedIff(rows, false, courses[i]);
    }
    EmbeddedRowsUntouched(rows, courses, |courses|, w);
  }

  /** An update by the id of a row without an embedding leaves a row with one
      as it was. */
  lemma UntouchedStep(rows: seq<Course>, before: seq<Course>, c: Course, embedding: Embedding, j: nat)
    requires UniqueIds(rows) && |before| == |rows| && j < |rows|
    requires c in rows && !HasEmbedding(c)
    requires HasEmbedding(rows[j]) && before[j] == rows[j]
    ensures SetEmbedding(before, c.id, embedding)[j] == rows[j]
  {
    SetEmbeddingEffect(before, c.id, embedding);
    var m :| 0 <= m < |rows| && rows[m] == c;
    assert m != j;
  }

  /** After the first `k` courses only the embedding column has changed; a
      row whose id is that of a processed course holds what that course's
      turn stored, and every other row is as it was. */
  lemma {:induction false} BackfilledRows(rows: seq<Course>, courses: seq<Course>, k: nat, w: World)
    requires k <= |courses| && UniqueIds(courses)
    ensures var b := Backfilled(rows, courses, k, w);
      && (forall j :: 0 <= j < |rows| ==> b[j].(embedding := rows[j].embedding) == rows[j])
      && (forall j, m :: 0 <= j < |rows| && 0 <= m < k && courses[m].id == rows[j].id ==>
            b[j].embedding == if Succeeded(courses, m, w) then Some(EmbeddingOf(courses, m, w).reply.body) else rows[j].embedding)
      && (forall j :: 0 <= j < |rows| && (forall m :: 0 <= m < k ==> courses[m].id != rows[j].id) ==> b[j] == rows[j])
    decreases k
  {
    if k > 0 {
      BackfilledRows(rows, courses, k - 1, w);
      var before := Backfilled(rows, courses, k - 1, w);
      var b := Backfilled(rows, courses, k, w);
      var c := courses[k - 1];
      if Succeeded(courses, k - 1, w) {
        var e := EmbeddingOf(courses, k - 1, w).reply.body;
        assert b == SetEmbedding(before, c.id, e);
        SetEmbeddingEffect(before, c.id, e);
        forall j | 0 <= j < |rows| ensures b[j].(embedding := rows[j].embedding) == rows[j] {
          assert before[j].(embedding := rows[j].embedding) == rows[j];
        }
        forall j, m | 0 <= j < |rows| && 0 <= m < k && courses[m].id == rows[j].id
          ensures b[j].embedding == if Succeeded(courses, m, w) then Some(EmbeddingOf(courses, m, w).reply.body) else rows[j].embedding
        {
        }
      } else {
        assert b == before;
        forall j | 0 <= j < |rows| && c.id == rows[j].id ensures b[j] == rows[j] {
          assert forall m :: 0 <= m < k - 1 ==> courses[m].id != rows[j].id;
        }
      }
    }
  }

  /** After backfilling `courses` into `rows`: no column but `embedding`
      changes in any row, and the row of each course holds the embedding
      its request returned when the course succeeded and stays NULL when it
      failed. */
  ghost predicate StoresExactly(rows: seq<Course>, courses: seq<Course>, w: World)
  {
    && (forall j :: 0 <= j < |rows| ==>
          Backfilled(rows, courses, |courses|, w)[j].(embedding := rows[j].embedding) == rows[j])
    && (forall k, j :: 0 <= k < |courses| && 0 <= j < |rows| && rows[j].id == courses[k].id ==>
          Backfilled(rows, courses, |courses|, w)[j].embedding
            == if Succeeded(courses, k, w) then Some(EmbeddingOf(courses, k, w).reply.body) else None)
  }

  /** The backfill stores exactly what succeeded: the courses it selects
      are rows of the table, and `StoresExactly` holds of them. */
  lemma BackfillStoresSuccesses(rows: seq<Course>, w: World)
    requires UniqueIds(rows)
    ensures forall k :: 0 <= k < |SelectByEmbedding(rows, false)| ==> SelectByEmbedding(rows, false)[k] in rows
    ensures StoresExactly(rows, SelectByEmbedding(rows, false), w)
  {
    var courses := SelectByEmbedding(rows, false);
    SelectKeepsUniqueIds(rows, false);
    forall k | 0 <= k < |courses| ensures courses[k] in rows && !HasEmbedding(courses[k]) {
      SelectedIff(rows, false, courses[k]);
    }
    StoresSuccesses(rows, courses, w);
  }

  /** `StoresExactly` for any selection of distinct rows without an
      embedding. */
  lemma StoresSuccesses(rows: seq<Course>, courses: seq<Course>, w: World)
    requires UniqueIds(rows) && UniqueIds(courses)
    requires forall k :: 0 <= k < |courses| ==> courses[k] in rows && !HasEmbedding(courses[k])
    ensures StoresExactly(rows, courses, w)
  {
    var b := Backfilled(rows, courses, |courses|, w);
    BackfilledRows(rows, courses, |courses|, w);
    forall k, j | 0 <= k < |courses| && 0 <= j < |rows| && rows[j].id == courses[k].id
      ensures b[j].embedding == if Succeeded(courses, k, w) then Some(EmbeddingOf(courses, k, w).reply.body) else None
    {
      var m :| 0 <= m < |rows| && rows[m] == courses[k];
      assert m == j;
      assert rows[j].embedding == None;
    }
  }
}
