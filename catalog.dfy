/** The `courses` table shared by both edge functions. */
module Catalog {
  import opened Wrappers
  import opened OpenAIRetry

  /** One row of `courses`; `embedding` is SQL NULL until the backfill
      writes it. */
  datatype Course = Course(
    id: string,
    title: string,
    university: string,
    field: string,
    description: string,
    keySubjects: seq<string>,
    careerProspects: seq<string>,
    entryRequirements: string,
    duration: string,
    location: string,
    averageSalary: string,
    employmentRate: string,
    embedding: Option<Embedding>)

  predicate HasEmbedding(c: Course) {
    c.embedding.Some?
  }

  /** `id` is the table's primary key. */
  predicate UniqueIds(rows: seq<Course>) {
    forall i, j :: 0 <= i < j < |rows| ==> rows[i].id != rows[j].id
  }

  /** The rows a query filtered on the embedding column returns, in table
      order: `.not('embedding', 'is', null)` when `withEmbedding`, else
      `.is('embedding', null)`. */
  function SelectByEmbedding(rows: seq<Course>, withEmbedding: bool): (r: seq<Course>)
    ensures forall c :: multiset(r)[c] == if HasEmbedding(c) == withEmbedding then multiset(rows)[c] else 0
    ensures forall i :: 0 <= i < |r| ==> HasEmbedding(r[i]) == withEmbedding
    ensures |r| <= |rows|
  {
    if rows == [] then []
    else
      var rest := SelectByEmbedding(rows[1..], withEmbedding);
      assert rows == [rows[0]] + rows[1..];
      assert multiset(rows) == multiset{rows[0]} + multiset(rows[1..]);
      if HasEmbedding(rows[0]) == withEmbedding then
        assert multiset([rows[0]] + rest) == multiset{rows[0]} + multiset(rest);
        [rows[0]] + rest
      else rest
  }

  /** A row is selected exactly when it is in the table and its embedding
      column matches the filter. */
  lemma SelectedIff(rows: seq<Course>, withEmbedding: bool, c: Course)
    ensures c in SelectByEmbedding(rows, withEmbedding) <==> c in rows && HasEmbedding(c) == withEmbedding
  {
    var r := SelectByEmbedding(rows, withEmbedding);
    assert c in r <==> multiset(r)[c] > 0;
    assert c in rows <==> multiset(rows)[c] > 0;
  }

  /** No row matches the filter, so the query returns no row. */
  lemma {:induction false} NoneSelected(rows: seq<Course>, withEmbedding: bool)
    requires forall i :: 0 <= i < |rows| ==> HasEmbedding(rows[i]) != withEmbedding
    ensures SelectByEmbedding(rows, withEmbedding) == []
  {
    if rows != [] {
      NoneSelected(rows[1..], withEmbedding);
    }
  }

  /** Selecting rows keeps their ids unique. */
  lemma {:induction false} SelectKeepsUniqueIds(rows: seq<Course>, withEmbedding: bool)
    requires UniqueIds(rows)
    ensures UniqueIds(SelectByEmbedding(rows, withEmbedding))
  {
    if rows != [] {
      var tail := rows[1..];
      assert UniqueIds(tail) by {
        forall i, j | 0 <= i < j < |tail| ensures tail[i].id != tail[j].id {
          assert tail[i] == rows[i + 1] && tail[j] == rows[j + 1];
        }
      }
      SelectKeepsUniqueIds(tail, withEmbedding);
      var rest := SelectByEmbedding(tail, withEmbedding);
      if HasEmbedding(rows[0]) == withEmbedding {
        forall j | 0 <= j < |rest| ensures rest[j].id != rows[0].id {
          SelectedIff(tail, withEmbedding, rest[j]);
          var m :| 0 <= m < |tail| && tail[m] == rest[j];
          assert rows[m + 1] == rest[j];
        }
        ConsUniqueIds(rows[0], rest);
      }
    }
  }

  lemma ConsUniqueIds(c: Course, rest: seq<Course>)
    requires UniqueIds(rest)
    requires forall j :: 0 <= j < |rest| ==> rest[j].id != c.id
    ensures UniqueIds([c] + rest)
  {
    var r := [c] + rest;
    assert forall j :: 0 < j < |r| ==> r[j] == rest[j - 1];
  }
}
