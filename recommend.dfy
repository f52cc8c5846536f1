/** The `generate-course-recommendations` edge function: profile text,
    student embedding via the retry helper, saving the student response,
    loading the courses that have an embedding, ranking them, saving the top
    five as recommendation rows, and formatting the reply.

    Everything the function talks to is a parameter: the provider's outcome
    per attempt, what the database answers to each write and read, and the
    similarity of two embeddings (cosine similarity, kept abstract). The
    database is a value passed through the call; `effects` records, in order,
    the requests the function issues. */
module RecommendationPipeline {
  import opened Wrappers
  import opened JsText
  import opened LabelledTemplate
  import opened OpenAIRetry
  import opened Catalog
  import opened Ranking

  /** The six answers of the assessment, as the request body carries them. */
  datatype StudentResponses = StudentResponses(
    currentProgram: string,
    favoriteSubjects: string,
    difficultSubjects: string,
    strengths: string,
    taskPreference: string,
    careerInterests: string)

  const ProfileLabels: seq<string> := [
    "Current Program: ", "Favorite Subjects: ", "Difficult Subjects: ",
    "Strengths: ", "Task Preference: ", "Career Interests: "]
  /** Indentation of the lines of the template literal, and of its closing
      backtick. */
  const ProfileIndent: string := "      "
  const ProfileClosing: string := "    "

  function ProfileValues(p: StudentResponses): seq<string> {
    [p.currentProgram, p.favoriteSubjects, p.difficultSubjects, p.strengths, p.taskPreference, p.careerInterests]
  }

  /** `descriptiveText`: the trimmed template literal. */
  function DescriptiveText(p: StudentResponses): string {
    Render(ProfileLabels, ProfileValues(p), ProfileIndent, ProfileClosing)
  }

  /** The profile text consists of six labelled lines in the fixed order;
      the inner lines keep their indentation and only the end of the last
      line is trimmed. */
  lemma DescriptiveTextLines(p: StudentResponses)
    requires forall i :: 0 <= i < 6 ==> '\n' !in ProfileValues(p)[i]
    ensures Split(DescriptiveText(p), '\n') == [
      "Current Program: " + p.currentProgram,
      ProfileIndent + "Favorite Subjects: " + p.favoriteSubjects,
      ProfileIndent + "Difficult Subjects: " + p.difficultSubjects,
      ProfileIndent + "Strengths: " + p.strengths,
      ProfileIndent + "Task Preference: " + p.taskPreference,
      TrimEnd(ProfileIndent + "Career Interests: " + p.careerInterests)]
  {
    ProfileWellFormed(p);
    RenderLines(ProfileLabels, ProfileValues(p), ProfileIndent, ProfileClosing);
    ProfileExpectedLines(p);
  }

  lemma ProfileExpectedLines(p: StudentResponses)
    ensures ExpectedLines("", ProfileLabels, ProfileValues(p), ProfileIndent) == [
      "Current Program: " + p.currentProgram,
      ProfileIndent + "Favorite Subjects: " + p.favoriteSubjects,
      ProfileIndent + "Difficult Subjects: " + p.difficultSubjects,
      ProfileIndent + "Strengths: " + p.strengths,
      ProfileIndent + "Task Preference: " + p.taskPreference,
      TrimEnd(ProfileIndent + "Career Interests: " + p.careerInterests)]
  {
    SixLines(ProfileLabels, ProfileValues(p), ProfileIndent);
  }

  lemma ProfileWellFormed(p: StudentResponses)
    requires forall i :: 0 <= i < 6 ==> '\n' !in ProfileValues(p)[i]
    ensures WellFormed(ProfileLabels, ProfileValues(p), ProfileIndent, ProfileClosing)
  {
    ProfileLabelsReadable();
    assert AllWhitespace(ProfileIndent) && AllWhitespace(ProfileClosing);
  }

  lemma ProfileLabelsReadable()
    ensures forall i :: 0 <= i < |ProfileLabels| ==>
      ProfileLabels[i] != [] && !IsWhitespace(ProfileLabels[i][0]) && '\n' !in ProfileLabels[i]
  {
    FirstProfileLabelsReadable();
    LastProfileLabelsReadable();
  }

  lemma FirstProfileLabelsReadable()
    ensures forall i :: 0 <= i < 3 ==>
      ProfileLabels[i] != [] && !IsWhitespace(ProfileLabels[i][0]) && '\n' !in ProfileLabels[i]
  {
    var L := ProfileLabels;
    assert L[0][0] == 'C' && L[1][0] == 'F' && L[2][0] == 'D';
    assert '\n' !in L[0] && '\n' !in L[1] && '\n' !in L[2];
  }

  lemma LastProfileLabelsReadable()
    ensures forall i :: 3 <= i < 6 ==>
      ProfileLabels[i] != [] && !IsWhitespace(ProfileLabels[i][0]) && '\n' !in ProfileLabels[i]
  {
    var L := ProfileLabels;
    assert L[3][0] == 'S' && L[4][0] == 'T' && L[5][0] == 'C';
    assert '\n' !in L[3] && '\n' !in L[4] && '\n' !in L[5];
  }

  /** A row of `student_responses`. */
  datatype SavedResponse = SavedResponse(id: string, answers: StudentResponses, embedding: Embedding)

  /** A row of `recommendations`. */
  datatype RecommendationRow = RecommendationRow(studentResponseId: string, courseId: string, similarityScore: real)

  datatype Db = Db(courses: seq<Course>, studentResponses: seq<SavedResponse>, recommendations: seq<RecommendationRow>)

  /** The answer of the database to an insert that returns the new row. */
  datatype InsertResult = Inserted(id: string) | InsertError(message: string)

  /** Everything outside the function: whether `OPENAI_API_KEY` is set, what
      each fetch of the embedding endpoint yields, what the database answers
      to the three queries, and the cosine similarity of two vectors. */
  datatype Env = Env(
    hasApiKey: bool,
    provider: nat -> OpenAIRetry.Outcome,
    saveResponse: InsertResult,
    coursesError: Option<string>,
    recommendationsError: Option<string>,
    similarity: (Embedding, Embedding) -> real)

  /** One candidate with its similarity to the student. */
  datatype Scored = Scored(course: Course, similarity: real)

  /** One entry of the reply's `recommendations`. */
  datatype FormattedRecommendation = FormattedRecommendation(
    id: string,
    title: string,
    university: string,
    field: string,
    matchPercentage: int,
    duration: string,
    location: string,
    description: string,
    keySubjects: seq<string>,
    careerProspects: seq<string>,
    entryRequirements: string,
    averageSalary: string,
    employmentRate: string,
    similarityScore: real)

  /** The JSON body of the reply: `success: true` with the list and the new
      response id, or `success: false` with an error message. */
  datatype ResponseBody =
    | Recommendations(recommendations: seq<FormattedRecommendation>, studentResponseId: string)
    | Error(error: string)

  datatype HttpResponse = HttpResponse(status: nat, body: ResponseBody)

  /** A request the function issues to one of its collaborators. */
  datatype Effect =
    | EmbeddingRequest(input: string, fetches: nat, waits: seq<nat>)
    | InsertStudentResponse(answers: StudentResponses, embedding: Embedding)
    | SelectCourses
    | InsertRecommendations(rows: seq<RecommendationRow>)

  datatype CallResult = CallResult(response: HttpResponse, db: Db, effects: seq<Effect>)

  const TopCount: nat := 5
  const NoEmbeddingsMessage: string :=
    "No courses have embeddings " + "generated yet. Please run " + "the course embedding " + "generation first."
  /** What reading `.data` of `undefined` throws; unreachable with three
      retries (see `OpenAIRetry.RequestBounds`). */
  const UndefinedBodyMessage: string := "Cannot read properties of " + "undefined (reading 'data')"

  /** `Math.round(similarity * 100)`: the nearest integer, halves rounded up. */
  function MatchPercentage(similarity: real): (r: int)
    ensures (r as real) - 0.5 <= similarity * 100.0 < (r as real) + 0.5
  {
    (similarity * 100.0 + 0.5).Floor
  }

  function Format(s: Scored): FormattedRecommendation {
    var c := s.course;
    FormattedRecommendation(
      c.id, c.title, c.university, c.field, MatchPercentage(s.similarity),
      c.duration, c.location, c.description, c.keySubjects, c.careerProspects,
      c.entryRequirements, c.averageSalary, c.employmentRate, s.similarity)
  }

  /** `courses.map(course => ({course, similarity: cosineSimilarity(...)}))`. */
  function ScoreCandidates(candidates: seq<Course>, student: Embedding, similarity: (Embedding, Embedding) -> real): (r: seq<Scored>)
    requires forall i :: 0 <= i < |candidates| ==> HasEmbedding(candidates[i])
    ensures |r| == |candidates|
    ensures forall i :: 0 <= i < |candidates| && HasEmbedding(candidates[i]) ==>
      r[i].course == candidates[i] && r[i].similarity == similarity(student, candidates[i].embedding.value)
  {
    seq(|candidates|, i requires 0 <= i < |candidates| && HasEmbedding(candidates[i]) =>
      Scored(candidates[i], similarity(student, candidates[i].embedding.value)))
  }

  function Similarities(scored: seq<Scored>): (r: seq<real>)
    ensures |r| == |scored| && forall i :: 0 <= i < |r| ==> r[i] == scored[i].similarity
  {
    seq(|scored|, i requires 0 <= i < |scored| => scored[i].similarity)
  }

  /** The positions, among the candidates, of the entries that the sort and
      `.slice(0, 5)` keep, best first. */
  function TopPositions(scored: seq<Scored>): (order: seq<nat>)
    ensures InRange(order, |scored|)
  {
    TopKSelects(Similarities(scored), TopCount);
    TopK(Similarities(scored), TopCount)
  }

  function TopRecommendations(scored: seq<Scored>): (top: seq<Scored>)
    ensures |top| == |TopPositions(scored)|
    ensures forall i :: 0 <= i < |top| ==> top[i] == scored[TopPositions(scored)[i]]
  {
    var order := TopPositions(scored);
    seq(|order|, i requires 0 <= i < |order| => scored[order[i]])
  }

  /** `topRecommendations.map(rec => ({student_response_id, course_id,
      similarity_score}))`. */
  function RecommendationRows(id: string, top: seq<Scored>): (rows: seq<RecommendationRow>)
    ensures |rows| == |top|
  {
    seq(|top|, i requires 0 <= i < |top| => RecommendationRow(id, top[i].course.id, top[i].similarity))
  }

  function FormatAll(top: seq<Scored>): (r: seq<FormattedRecommendation>)
    ensures |r| == |top|
  {
    seq(|top|, i requires 0 <= i < |top| => Format(top[i]))
  }

  /** The candidates: the courses that have an embedding, in table order. */
  function Candidates(courses: seq<Course>): seq<Course> {
    SelectByEmbedding(courses, true)
  }

  function Fail(status: nat, message: string, db: Db, effects: seq<Effect>): CallResult {
    CallResult(HttpResponse(status, Error(message)), db, effects)
  }

  /** The position each kind of request has in the pipeline. */
  function Stage(e: Effect): nat {
    match e
    case EmbeddingRequest(_, _, _) => 0
    case InsertStudentResponse(_, _) => 1
    case SelectCourses => 2
    case InsertRecommendations(_) => 3
  }

  /** The requests issued form a prefix of: embed, save the response,
      select the courses, save the recommendations. */
  predicate InPipelineOrder(effects: seq<Effect>) {
    forall i :: 0 <= i < |effects| ==> Stage(effects[i]) == i
  }

  /** The reply is well-shaped: a list exactly on status 200, and status 200,
      400 or 500. */
  predicate Shaped(r: HttpResponse) {
    && (r.body.Recommendations? <==> r.status == 200)
    && r.status in {200, 400, 500}
  }

  /** The handler body (everything inside its `try`; every thrown error
      becomes status 500 with the error's message). */
  function Handle(req: StudentResponses, env: Env, db: Db): (out: CallResult)
    ensures InPipelineOrder(out.effects) && Shaped(out.response)
    ensures out.db.courses == db.courses
    ensures db.studentResponses <= out.db.studentResponses
    ensures |out.db.studentResponses| <= |db.studentResponses| + 1
    ensures out.db.studentResponses != db.studentResponses ==> |out.effects| >= 3
    ensures out.db.recommendations != db.recommendations ==> out.response.status == 200
    ensures out.response.status == 200 ==>
      && |out.effects| == 4
      && out.db.studentResponses == db.studentResponses
           + [SavedResponse(out.response.body.studentResponseId, req, out.effects[1].embedding)]
  {
    if !env.hasApiKey then Fail(500, MissingKeyMessage, db, [])
    else
      var t := Request(env.provider, DefaultMaxRetries);
      var embed := EmbeddingRequest(DescriptiveText(req), t.fetches, t.waits);
      match t.reply
      case Undefined => Fail(500, UndefinedBodyMessage, db, [embed])
      case Rethrown(f) => Fail(500, Message(f), db, [embed])
      case Returned(studentEmbedding) => SaveAndRank(req, studentEmbedding, env, db, embed)
  }

  /** Steps 3 to 8: save the student response, then rank. */
  function SaveAndRank(req: StudentResponses, studentEmbedding: Embedding, env: Env, db: Db, embed: Effect): (out: CallResult)
    requires embed.EmbeddingRequest?
    ensures InPipelineOrder(out.effects) && Shaped(out.response)
    ensures |out.effects| >= 2 && out.effects[0] == embed
    ensures out.effects[1] == InsertStudentResponse(req, studentEmbedding)
    ensures out.db.courses == db.courses
    ensures out.db.studentResponses == db.studentResponses
         || (env.saveResponse.Inserted? && |out.effects| >= 3
             && out.db.studentResponses == db.studentResponses + [SavedResponse(env.saveResponse.id, req, studentEmbedding)])
    ensures out.response.status == 200 ==> env.saveResponse.Inserted? && out.response.body.studentResponseId == env.saveResponse.id
    ensures out.db.recommendations != db.recommendations ==> out.response.status == 200
  {
    var insert := InsertStudentResponse(req, studentEmbedding);
    match env.saveResponse
    case InsertError(m) => Fail(500, m, db, [embed, insert])
    case Inserted(id) =>
      var db1 := db.(studentResponses := db.studentResponses + [SavedResponse(id, req, studentEmbedding)]);
      Rank(id, studentEmbedding, env, db1, [embed, insert, SelectCourses])
  }

  /** Steps 4 to 8: read the candidates, rank them, save and format the top
      five. */
  function Rank(id: string, studentEmbedding: Embedding, env: Env, db: Db, done: seq<Effect>): (out: CallResult)
    requires |done| == 3 && InPipelineOrder(done)
    ensures InPipelineOrder(out.effects) && Shaped(out.response)
    ensures 3 <= |out.effects| <= 4 && out.effects[..3] == done
    ensures out.db.courses == db.courses && out.db.studentResponses == db.studentResponses
    ensures out.db.recommendations != db.recommendations ==> out.response.status == 200
    ensures out.response.status == 200 ==> |out.effects| == 4 && out.response.body.studentResponseId == id
  {
    if env.coursesError.Some? then Fail(500, env.coursesError.value, db, done)
    else
      var candidates := Candidates(db.courses);
      if |candidates| == 0 then Fail(400, NoEmbeddingsMessage, db, done)
      else
        var top := TopRecommendations(ScoreCandidates(candidates, studentEmbedding, env.similarity));
        var rows := RecommendationRows(id, top);
        var db' := if env.recommendationsError.None? then db.(recommendations := db.recommendations + rows) else db;
        CallResult(HttpResponse(200, Recommendations(FormatAll(top), id)), db', done + [InsertRecommendations(rows)])
  }

  /** The embedding request that a call with an API key makes. */
  function StudentEmbedding(env: Env): Trace {
    Request(env.provider, DefaultMaxRetries)
  }

  /** The early exits: without an API key nothing is requested; an embedding
      request that fails after its retries ends the call with the error's
      message before anything is saved. */
  lemma EarlyFailures(req: StudentResponses, env: Env, db: Db)
    ensures var out := Handle(req, env, db);
      && (!env.hasApiKey ==> out == CallResult(HttpResponse(500, Error(MissingKeyMessage)), db, []))
      && (env.hasApiKey && StudentEmbedding(env).reply.Rethrown? ==>
            && out.response == HttpResponse(500, Error(Message(StudentEmbedding(env).reply.failure)))
            && out.effects == [EmbeddingRequest(DescriptiveText(req), StudentEmbedding(env).fetches, StudentEmbedding(env).waits)]
            && out.db == db)
  {
  }

  /** A provider that answers every attempt with HTTP 429: the function waits
      2 s and 4 s, gives up after the third fetch and replies with status
      500 and the rate-limit error. */
  lemma RateLimitedThrice(req: StudentResponses, env: Env, db: Db)
    requires env.hasApiKey
    requires forall a :: env.provider(a) == Response(429, "Too Many Requests", [])
    ensures Handle(req, env, db)
         == CallResult(HttpResponse(500, Error("OpenAI API error: " + "429 Too Many Requests")), db,
                       [EmbeddingRequest(DescriptiveText(req), 3, [2000, 4000])])
  {
    ThreeRateLimits(env.provider);
    RateLimitMessage();
  }

  /** A failed save of the student response ends the call with status 500
      before any course is read, and leaves the database as it was. */
  lemma SaveFailureAborts(req: StudentResponses, env: Env, db: Db)
    requires env.hasApiKey && StudentEmbedding(env).reply.Returned?
    requires env.saveResponse.InsertError?
    ensures var out := Handle(req, env, db);
      && out.response == HttpResponse(500, Error(env.saveResponse.message))
      && |out.effects| == 2 && SelectCourses !in out.effects
      && out.db == db
  {
    var out := Handle(req, env, db);
    assert out.effects[0].EmbeddingRequest? && out.effects[1].InsertStudentResponse?;
  }

  /** Status 400 happens exactly when the response was saved, the course
      query succeeded and no course has an embedding. */
  lemma BadRequestExactly(req: StudentResponses, env: Env, db: Db)
    ensures Handle(req, env, db).response.status == 400
        <==> && env.hasApiKey && StudentEmbedding(env).reply.Returned?
             && env.saveResponse.Inserted? && env.coursesError.None?
             && Candidates(db.courses) == []
  {
  }

  /** With no course embedded yet the call fails with status 400 and saves no
      recommendation, while the student response it already saved stays. */
  lemma NoCandidatesIsDistinctFailure(req: StudentResponses, env: Env, db: Db)
    requires env.hasApiKey && StudentEmbedding(env).reply.Returned?
    requires env.saveResponse.Inserted? && env.coursesError.None?
    requires forall i :: 0 <= i < |db.courses| ==> !HasEmbedding(db.courses[i])
    ensures var out := Handle(req, env, db);
      && out.response == HttpResponse(400, Error(NoEmbeddingsMessage))
      && |out.effects| == 3
      && out.db.recommendations == db.recommendations
      && out.db.studentResponses == db.studentResponses
           + [SavedResponse(env.saveResponse.id, req, StudentEmbedding(env).reply.body)]
  {
    NoneSelected(db.courses, true);
  }

  /** A call that gets as far as ranking: the reply lists the formatted top
      entries of the scored candidates with the new response id, the fourth
      request inserts their rows, and the rows are kept exactly when that
      insert succeeds; its failure changes nothing about the reply. */
  lemma RankedReply(req: StudentResponses, env: Env, db: Db)
    requires env.hasApiKey && StudentEmbedding(env).reply.Returned?
    requires env.saveResponse.Inserted? && env.coursesError.None?
    requires Candidates(db.courses) != []
    ensures var out := Handle(req, env, db);
      var id := env.saveResponse.id;
      var emb := StudentEmbedding(env).reply.body;
      var top := TopRecommendations(ScoreCandidates(Candidates(db.courses), emb, env.similarity));
      && out.response == HttpResponse(200, Recommendations(FormatAll(top), id))
      && out.effects[3] == InsertRecommendations(RecommendationRows(id, top))
      && out.db.studentResponses == db.studentResponses + [SavedResponse(id, req, emb)]
      && out.db.recommendations
         == db.recommendations + (if env.recommendationsError.None? then RecommendationRows(id, top) else [])
  {
  }

  /** Every scored candidate is a course of the table that has an
      embedding; courses without one are never scored. */
  lemma OnlyEmbeddedAreScored(courses: seq<Course>, emb: Embedding, similarity: (Embedding, Embedding) -> real)
    ensures var scored := ScoreCandidates(Candidates(courses), emb, similarity);
      forall i :: 0 <= i < |scored| ==> scored[i].course in courses && HasEmbedding(scored[i].course)
  {
    var cs := Candidates(courses);
    forall i | 0 <= i < |cs| ensures cs[i] in courses && HasEmbedding(cs[i]) {
      SelectedIff(courses, true, cs[i]);
    }
  }

  /** The top list: min(5, #candidates) distinct candidates, non-increasing
      by similarity, equal similarities in candidate order, and none scoring
      below a candidate that was left out. */
  lemma TopRecommendationsRanked(scored: seq<Scored>)
    ensures var top := TopRecommendations(scored);
      var pos := TopPositions(scored);
      && |top| == Min(TopCount, |scored|)
      && Distinct(pos)
      && (forall i, j :: 0 <= i < j < |top| ==> top[i].similarity >= top[j].similarity)
      && (forall i, j :: 0 <= i < j < |top| && top[i].similarity == top[j].similarity ==> pos[i] < pos[j])
      && (forall i, u :: 0 <= i < |top| && 0 <= u < |scored| && u !in pos ==> top[i].similarity >= scored[u].similarity)
  {
    var scores := Similarities(scored);
    TopKSelects(scores, TopCount);
  }

  /** Whatever stable sort the engine uses, the kept positions are the first
      five of its result. */
  lemma TopIsPrefixOfStableSort(scored: seq<Scored>, order: seq<nat>)
    requires IsStableDescendingSort(Similarities(scored), order)
    ensures TopPositions(scored) == order[..Min(TopCount, |scored|)]
  {
    StableSortIsUnique(Similarities(scored), order);
  }

  /** Rows and reply entries correspond one to one, in rank order: each row
      carries the response id and the course id and similarity of the entry
      at the same position, whose match percentage is that similarity
      rounded. */
  lemma RowsMatchReply(id: string, top: seq<Scored>)
    ensures var rows := RecommendationRows(id, top);
      var recs := FormatAll(top);
      && |rows| == |recs| == |top|
      && forall i :: 0 <= i < |top| ==>
           && rows[i] == RecommendationRow(id, recs[i].id, recs[i].similarityScore)
           && recs[i].id == top[i].course.id && recs[i].similarityScore == top[i].similarity
           && (recs[i].matchPercentage as real) - 0.5 <= top[i].similarity * 100.0 < (recs[i].matchPercentage as real) + 0.5
  {
  }
}
