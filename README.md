# Course compass: a Dafny model of the recommendation engine

This project models the recommendation engine of a course-advice web
application, together with the small pieces of sequential logic in its user
interface:

- **The retry helper** `makeOpenAIRequest` (module `OpenAIRetry`). Both edge
  functions define it, with identical code. It is an imperative loop
  (`MakeRequest`) proved equal to a reference function `Request`. Lemmas then
  establish:
  - at most `maxRetries` fetches;
  - the first ok body is returned;
  - the 2^a·1000 ms and 2^a·500 ms backoffs;
  - the last failure is rethrown without a wait.
- **The recommendation function** `generate-course-recommendations`
  (`RecommendationPipeline`, with `Ranking`, `LabelledTemplate` and `JsText`).
  It is a pure function from the request, the environment and the database to
  the reply, the new database and the ordered list of requests issued. It
  covers:
  - the six-line profile text;
  - the embedding request;
  - saving the student response;
  - the candidate filter and the 400 failure;
  - the stable descending sort and the top five;
  - the recommendation rows and the formatted list.
- **The backfill function** `generate-course-embeddings` (`EmbeddingBackfill`,
  `BackfillSchedule`, `Catalog`). It is imperative: the nested batch loops
  with their two counters, updating a `CourseTable` object in place, proved
  against reference functions. Lemmas then cover:
  - the order of courses and the batches of five;
  - the pauses;
  - the counters;
  - rows that are never re-embedded.
- **The landing-page terminal** (`TerminalFlow`). A `Terminal` class holds
  the typewriter's closure variables and the question flow's state.
- **The consultation room** (`MeetingClock`, `Meeting`). It covers:
  - `formatTime` and its inverse;
  - the chat append;
  - a `MeetingRoom` class with the toggles, the input and the one-second tick.
- **The recommendations page** (`MatchBand`): the colour bands and the
  fallback to the two sample courses.

Everything the code talks to is a parameter:
- the embedding provider, as the outcome of each attempt: an ok response, an
  HTTP error status, a thrown network error, or an ok response whose body
  does not parse;
- the database's answers to each query;
- whether the API key is set;
- the similarity of two vectors;
- the locale time string of a chat message.

Waits, pauses and timeouts are returned or recorded as millisecond values.
They are never waited.

JavaScript semantics are written out where the code depends on them:
- `trim` removes ECMAScript's WhiteSpace and LineTerminator characters;
- `Array.prototype.sort` is stable (section 22.1.3.27 of ECMA-262, 2019
  edition);
- `toString` and `padStart` behave as in JavaScript;
- `Math.floor` and `%` are applied to non-negative integers only.

## Model

| member | source | states |
|---|---|---|
| OpenAIRetry.MakeRequest | supabase/functions/generate-course-recommendations/index.ts:37-77 | The `for` loop with its early return, `continue` after a rate-limit wait, and `catch` that rethrows on the last attempt is proved to end exactly as the reference `Request`: same reply, same number of fetches, same waits in order. |
| OpenAIRetry.RequestBounds | supabase/functions/generate-course-recommendations/index.ts:37-77 | At most `maxRetries` fetches, and at least one when `maxRetries >= 1`. There is one wait fewer than fetches. The helper falls off the loop (`undefined`) exactly when `maxRetries == 0`. |
| OpenAIRetry.ReturnsFirstOk | supabase/functions/generate-course-recommendations/index.ts:49-51 | If attempt k is the first ok response, the body of k is returned after exactly k fetches, with the backoff of each earlier failure as the waits. |
| OpenAIRetry.AllFailRethrows | supabase/functions/generate-course-recommendations/index.ts:54-75 | If every attempt fails (a 429, any other status, a thrown fetch, or an ok body that does not parse), all `maxRetries` fetches are made and the last attempt's error is rethrown. There is a wait after every attempt but the last. |
| OpenAIRetry.ReplySound | supabase/functions/generate-course-recommendations/index.ts:37-77 | A returned body is the body of some ok response among attempts 1..maxRetries. A rethrow happens only if every attempt failed. |
| OpenAIRetry.UnreadableRetried | supabase/functions/generate-course-recommendations/index.ts:49-75 | An ok response whose `response.json()` throws is caught and retried. After a 1000 ms wait, the readable ok body of the second attempt is returned after two fetches. |
| OpenAIRetry.ThreeRateLimits | supabase/functions/generate-course-recommendations/index.ts:54-68 | Three 429 responses with the default bound: waits of 2000 and 4000 ms, then the 429 error, with no third wait. |
| OpenAIRetry.RateLimitMessage | supabase/functions/generate-course-recommendations/index.ts:65 | For a 429 whose statusText is `Too Many Requests`, the rethrown error's message is `OpenAI API error: 429 Too Many Requests`. |
| OpenAIRetry.Waits | supabase/functions/generate-course-embeddings/index.ts:12-52 | One backoff per failed attempt in the range. The helper in the backfill function is the same code, so `MakeRequest` models both. |
| JsText.TrimStart | supabase/functions/generate-course-recommendations/index.ts:107 | The result is a suffix of the input, the removed prefix is all whitespace, and the result does not start with whitespace. |
| JsText.TrimEnd | supabase/functions/generate-course-recommendations/index.ts:107 | The result is a prefix of the input, the removed suffix is all whitespace, and the result does not end with whitespace. |
| JsText.TrimEmpty | src/components/Terminal.tsx:85 | `s.trim()` is empty, and so falsy, exactly when `s` is whitespace only. |
| JsText.TrimStartPrefix | supabase/functions/generate-course-recommendations/index.ts:100-107 | Whitespace in front of a visible character is exactly what the leading trim removes. |
| JsText.TrimEndSuffix | supabase/functions/generate-course-recommendations/index.ts:100-107 | Appended whitespace is exactly what the trailing trim removes. |
| JsText.TrimEndKeepsPrefix | supabase/functions/generate-course-recommendations/index.ts:100-107 | The trailing trim never reaches past a visible character into the earlier text. |
| JsText.JoinAvoids | supabase/functions/generate-course-embeddings/index.ts:115-116 | A character in neither the items nor the separator is not in the joined string. |
| JsText.Split | supabase/functions/generate-course-recommendations/index.ts:100-107 | Splitting always yields at least one piece. It is the reference for reading a text back as lines. |
| JsText.SplitWithout | supabase/functions/generate-course-recommendations/index.ts:100-107 | A text without the separator splits into itself. |
| JsText.SplitAt | supabase/functions/generate-course-recommendations/index.ts:100-107 | Splitting peels off the text before the first separator. |
| JsText.NatToString | src/pages/MeetingRoom.tsx:65 | `toString` of a non-negative integer: at least one digit, and a leading zero only for 0. |
| JsText.ParseNatToString | src/pages/MeetingRoom.tsx:65 | The decimal reading of `n.toString()` is `n`. |
| JsText.NatToStringLength | src/pages/MeetingRoom.tsx:65 | `n.toString()` has one digit below 10, two below 100, and three or more from 100 on. |
| JsText.PadStart | src/pages/MeetingRoom.tsx:65 | `padStart` gives the width or the original length, whichever is larger. The original text is at the end and only the pad character comes before it. |
| JsText.ParseNatLeadingZeros | src/pages/MeetingRoom.tsx:65 | Leading zeros do not change the decimal value. |
| JsText.ZerosParseToZero | src/pages/MeetingRoom.tsx:65 | A string of zeros reads as 0. |
| JsText.DigitChar | src/pages/MeetingRoom.tsx:65 | The digit character of d < 10 reads back as d. |
| LabelledTemplate.ExpectedLines | supabase/functions/generate-course-recommendations/index.ts:100-107 | The expected lines of a trimmed labelled template, one per field. |
| LabelledTemplate.RenderLines | supabase/functions/generate-course-recommendations/index.ts:100-107 | For visible labels and single-line values, splitting the trimmed literal at line breaks gives one line per field, in field order. The first line loses its indentation, the inner lines keep theirs, and only the end of the last line is trimmed. |
| LabelledTemplate.SixLines | supabase/functions/generate-course-embeddings/index.ts:110-117 | The expected lines of a six-field template, written out. |
| RecommendationPipeline.DescriptiveTextLines | supabase/functions/generate-course-recommendations/index.ts:100-107 | The profile text is six lines in the fixed order Current Program, Favorite Subjects, Difficult Subjects, Strengths, Task Preference, Career Interests. Each line is its label followed by the raw value, with inner indentation kept and only the outer ends trimmed. |
| RecommendationPipeline.ProfileExpectedLines | supabase/functions/generate-course-recommendations/index.ts:100-107 | The six expected profile lines, label by label. |
| RecommendationPipeline.MatchPercentage | supabase/functions/generate-course-recommendations/index.ts:219 | `Math.round(similarity * 100)` is the integer within half a unit of the scaled score, with halves rounded up. |
| RecommendationPipeline.ScoreCandidates | supabase/functions/generate-course-recommendations/index.ts:183-186 | One scored entry per candidate, in candidate order. Each entry holds its course and the similarity of the student's embedding to the course's embedding. |
| RecommendationPipeline.Similarities | supabase/functions/generate-course-recommendations/index.ts:190 | The sort key of each scored entry, position by position. |
| RecommendationPipeline.TopPositions | supabase/functions/generate-course-recommendations/index.ts:189-191 | The kept positions are all positions among the candidates. |
| RecommendationPipeline.TopRecommendations | supabase/functions/generate-course-recommendations/index.ts:189-191 | The top list holds the scored entries at the kept positions, in rank order. |
| RecommendationPipeline.RecommendationRows | supabase/functions/generate-course-recommendations/index.ts:199-203 | One row per top entry. |
| RecommendationPipeline.FormatAll | supabase/functions/generate-course-recommendations/index.ts:214-229 | One formatted entry per top entry. |
| RecommendationPipeline.Handle | supabase/functions/generate-course-recommendations/index.ts:84-254 | The requests come in pipeline order (embed, save, select, insert) and the reply has status 200, 400 or 500, with a list exactly on 200. The courses are never changed, and at most one student response is appended. When one is, the call went on to issue the course select, so at least three requests were made. Recommendation rows change only on a 200. A 200 makes all four requests and has saved the response under the returned id. |
| RecommendationPipeline.SaveAndRank | supabase/functions/generate-course-recommendations/index.ts:127-157 | The student response is saved before any course is read. A failed save ends the call without saving. A 200 carries the id of the saved row. |
| RecommendationPipeline.Rank | supabase/functions/generate-course-recommendations/index.ts:149-240 | The course query, the ranking and the recommendation insert come after the save. They leave the courses and the student responses alone, and change the recommendations only on a 200, which carries the saved id. |
| RecommendationPipeline.EarlyFailures | supabase/functions/generate-course-recommendations/index.ts:90-93 | Without an API key: status 500 with the key message, no request, and no change. If the embedding request fails after its retries: status 500 with the rethrown message, only the embedding request made, and the database unchanged. |
| RecommendationPipeline.RateLimitedThrice | supabase/functions/generate-course-recommendations/index.ts:37-77 | A provider that always answers 429 with statusText `Too Many Requests` gives status 500 with the rate-limit message, after three fetches with waits of 2000 and 4000 ms, and nothing is saved. |
| RecommendationPipeline.SaveFailureAborts | supabase/functions/generate-course-recommendations/index.ts:141-144 | A failed save gives 500 with the database's message, before any course is read (no select request), and leaves the database as it was. |
| RecommendationPipeline.BadRequestExactly | supabase/functions/generate-course-recommendations/index.ts:161-173 | Status 400 occurs exactly when the key is set, the embedding came back, the save and the course query succeeded, and no course has an embedding. |
| RecommendationPipeline.NoCandidatesIsDistinctFailure | supabase/functions/generate-course-recommendations/index.ts:161-173 | With no embedded course: status 400 with the no-embeddings message, three requests, no recommendation row, and the saved student response kept. |
| RecommendationPipeline.RankedReply | supabase/functions/generate-course-recommendations/index.ts:199-240 | Once ranking is reached, the reply is 200 with the formatted top list and the saved id. The fourth request inserts exactly the rows of the top list. The rows are kept only if that insert succeeds, and its failure does not change the reply. |
| RecommendationPipeline.OnlyEmbeddedAreScored | supabase/functions/generate-course-recommendations/index.ts:149-152 | Every scored candidate is a course of the table that has an embedding. |
| RecommendationPipeline.TopRecommendationsRanked | supabase/functions/generate-course-recommendations/index.ts:183-191 | The top list has min(5, #candidates) distinct candidates and is non-increasing by similarity. Equal similarities stay in candidate order. No kept entry scores below a candidate that was left out. |
| RecommendationPipeline.TopIsPrefixOfStableSort | supabase/functions/generate-course-recommendations/index.ts:189-191 | For any stable descending sort of the candidates, the kept positions are its first five. |
| RecommendationPipeline.RowsMatchReply | supabase/functions/generate-course-recommendations/index.ts:199-229 | Rows and reply entries correspond one to one in rank order. Each row has the saved id plus the course id and similarity of the entry at the same position. That entry's match percentage is the rounded similarity. |
| Ranking.Insert | supabase/functions/generate-course-recommendations/index.ts:189-190 | Inserting a candidate adds exactly that candidate to the order. |
| Ranking.SortPrefix | supabase/functions/generate-course-recommendations/index.ts:189-190 | Sorting the first n candidates orders exactly the positions 0..n-1. |
| Ranking.RankOrderIsStableSort | supabase/functions/generate-course-recommendations/index.ts:189-190 | The reference sort is a stable descending sort: each position once, non-increasing by score, ties in candidate order. |
| Ranking.StableSortIsUnique | supabase/functions/generate-course-recommendations/index.ts:189-190 | There is exactly one stable descending sort of a score list, so any stable engine sort equals the reference. |
| Ranking.TopKSelects | supabase/functions/generate-course-recommendations/index.ts:189-191 | `.slice(0, k)` of the sort keeps min(k, n) distinct positions, best first with ties in candidate order, none scoring below a left-out candidate. |
| Catalog.SelectByEmbedding | supabase/functions/generate-course-recommendations/index.ts:149-152 | The filtered query returns each row as often as the table holds it when its embedding column matches the filter, and no other row. |
| Catalog.SelectedIff | supabase/functions/generate-course-embeddings/index.ts:73-76 | A row is selected exactly when it is in the table and its embedding column matches the filter (NULL for the backfill, non-NULL for the candidates). |
| Catalog.SelectKeepsUniqueIds | supabase/functions/generate-course-embeddings/index.ts:73-76 | When the table's ids are distinct, so are the ids of the rows any filtered select returns. |
| Catalog.NoneSelected | supabase/functions/generate-course-recommendations/index.ts:161 | If no row matches, the query returns no row. |
| EmbeddingBackfill.CourseTextLines | supabase/functions/generate-course-embeddings/index.ts:110-117 | The course text is six lines: Title, University, Field, Description, Key Subjects and Career Prospects, with both lists joined by ", ". Inner indentation is kept and only the outer ends are trimmed. |
| EmbeddingBackfill.CourseExpectedLines | supabase/functions/generate-course-embeddings/index.ts:110-117 | The six expected course lines, label by label. |
| EmbeddingBackfill.SetEmbedding | supabase/functions/generate-course-embeddings/index.ts:134-137 | The update keeps the number of rows. |
| EmbeddingBackfill.SetEmbeddingEffect | supabase/functions/generate-course-embeddings/index.ts:134-137 | The update writes only the embedding column, and only on the rows whose id matches the course's id. |
| EmbeddingBackfill.CourseTable.UpdateEmbedding | supabase/functions/generate-course-embeddings/index.ts:134-137 | The table's rows become exactly the updated rows. |
| EmbeddingBackfill.GenerateCourseEmbeddings | supabase/functions/generate-course-embeddings/index.ts:59-172 | Without a key, or if the select fails, the error is returned and nothing else happens. The empty selection returns the nothing-to-do reply, with the message `All courses already have embeddings` and no request made. Otherwise the reply reports the success count and its complement as failures, the requests are exactly the reference run, and the table is the reference backfill of the selected courses. |
| EmbeddingBackfill.ProcessAll | supabase/functions/generate-course-embeddings/index.ts:98-158 | The outer loop stepping by five ends with the counters, the requests and the table of the reference run. |
| EmbeddingBackfill.ProcessBatch | supabase/functions/generate-course-embeddings/index.ts:104-151 | One batch: every course of the slice bumps exactly one counter, and the requests and table advance to the end of the slice. |
| EmbeddingBackfill.ProcessCourse | supabase/functions/generate-course-embeddings/index.ts:109-150 | One course: it is stored exactly when its embedding came back and its update succeeded. It issues the embedding request, plus the update if an embedding came back. The table advances by that course. |
| EmbeddingBackfill.PerCourse | supabase/functions/generate-course-embeddings/index.ts:108-151 | One entry of requests per selected course. |
| EmbeddingBackfill.Requests | supabase/functions/generate-course-embeddings/index.ts:108-151 | The reference run is the batch schedule over the per-course requests. |
| EmbeddingBackfill.SuccessCount | supabase/functions/generate-course-embeddings/index.ts:139-145 | The success count after k courses is at most k. |
| EmbeddingBackfill.Backfilled | supabase/functions/generate-course-embeddings/index.ts:134-145 | Processing courses never adds or removes rows. |
| BackfillSchedule.RunIsBatched | supabase/functions/generate-course-embeddings/index.ts:102-104 | Cut at its pauses, the run is ceil(n/5) batches. Batch j holds courses 5j up to min(5j+5, n), every batch but the last has five courses, and there is one pause fewer than batches. |
| BackfillSchedule.CoursesInOrder | supabase/functions/generate-course-embeddings/index.ts:103-108 | One embedding request per course, in selection order. |
| BackfillSchedule.NoTrailingPause | supabase/functions/generate-course-embeddings/index.ts:154-157 | The run never ends with a pause. |
| BackfillSchedule.TwelveCourses | supabase/functions/generate-course-embeddings/index.ts:102-157 | Twelve courses come in batches 0-5, 5-10 and 10-12, with two pauses. |
| BackfillSchedule.SuccessCountExtremes | supabase/functions/generate-course-embeddings/index.ts:139-150 | The success count reaches k exactly when all of the first k courses succeeded, and stays 0 exactly when none did. |
| BackfillSchedule.OneFailure | supabase/functions/generate-course-embeddings/index.ts:139-150 | With exactly one failing course, the success count is one short. A failure does not stop the later courses from counting. |
| BackfillSchedule.TwelveWithOneFailure | supabase/functions/generate-course-embeddings/index.ts:98-167 | Twelve courses with one failure report 11 processed and 1 failure. |
| BackfillSchedule.NeverReembedded | supabase/functions/generate-course-embeddings/index.ts:73-76 | With unique ids, every row that had an embedding before the run is unchanged after it. |
| BackfillSchedule.BackfillStoresSuccesses | supabase/functions/generate-course-embeddings/index.ts:73-145 | With distinct ids, every course the backfill selects is a row of the table. After the backfill, no column but `embedding` changes in any row. A selected course's row holds the embedding its request returned when it succeeded, and stays NULL when it failed. |
| BackfillSchedule.StoresSuccesses | supabase/functions/generate-course-embeddings/index.ts:134-145 | The same, for any list of distinct-id rows of the table that have no embedding. |
| BackfillSchedule.BackfilledRows | supabase/functions/generate-course-embeddings/index.ts:134-145 | After the first k courses are processed, each row differs at most in `embedding`. A row matching an earlier course holds that course's returned embedding if it succeeded, and keeps its old value if it failed. A row matching none is unchanged. |
| BackfillSchedule.EmbeddedRowsUntouched | supabase/functions/generate-course-embeddings/index.ts:134-137 | Updates by the ids of rows without an embedding never write a row that has one. |
| BackfillSchedule.UntouchedStep | supabase/functions/generate-course-embeddings/index.ts:134-137 | One update by such an id leaves an embedded row as it was. |
| BackfillSchedule.SplitAtPauses | supabase/functions/generate-course-embeddings/index.ts:154-157 | Cutting a run at its pauses yields at least one piece. |
| BackfillSchedule.SplitCountsPauses | supabase/functions/generate-course-embeddings/index.ts:154-157 | Cutting yields one piece more than there are pauses. |
| BackfillSchedule.BatchList | supabase/functions/generate-course-embeddings/index.ts:103-104 | There is at least one batch from any starting course. |
| BackfillSchedule.BatchListShape | supabase/functions/generate-course-embeddings/index.ts:103-104 | Batch j starts at course i+5j and ends at the next multiple of five or the end. All batches but the last are full. |
| BackfillSchedule.BatchesInOrder | supabase/functions/generate-course-embeddings/index.ts:103-108 | The schedule requests the courses i..n-1 in order. |
| BackfillSchedule.SegmentsAreBatches | supabase/functions/generate-course-embeddings/index.ts:103-157 | Cut at its pauses, the schedule is exactly the list of batches. |
| BackfillSchedule.PerCourseShaped | supabase/functions/generate-course-embeddings/index.ts:109-150 | Each course's entry is one embedding request for it (possibly followed by its update) and no pause. |
| BackfillSchedule.Span | supabase/functions/generate-course-embeddings/index.ts:103-108 | The positions lo..hi-1. |
| TerminalFlow.TypedIsPrefix | src/components/Terminal.tsx:37-61 | What is typed so far (earlier lines plus the first characters of the current line) is a prefix of the concatenated lines, and is all of them once every line is done. |
| TerminalFlow.DelaysCount | src/components/Terminal.tsx:56-60 | The typewriter schedules one timeout per remaining character and one per remaining line end. |
| TerminalFlow.Terminal.constructor | src/components/Terminal.tsx:6-24 | The terminal starts empty, with no answer, question index 0 and no input shown. |
| TerminalFlow.Terminal.TypeNextChar | src/components/Terminal.tsx:42-61 | One step either appends exactly the next character of the current line or advances to the next line, keeping the typed-prefix invariant and returning the delay it schedules. Past the last line, and only there, it completes the animation and asks the first question. |
| TerminalFlow.Terminal.StartQuestions | src/components/Terminal.tsx:74-82 | Appends the prompt of question 1 and shows the input. |
| TerminalFlow.RunIntro | src/components/Terminal.tsx:27-72 | On mount, a terminal over the six intro lines schedules a 1000 ms start delay, then the reference delays of those lines. It ends at the first question, showing the intro text followed by the first prompt. |
| TerminalFlow.Terminal.Animate | src/components/Terminal.tsx:37-72 | The chain of timeouts types all the lines. The delays scheduled are the reference delays, and it ends showing the lines followed by the first prompt. |
| TerminalFlow.Terminal.Edit | src/components/Terminal.tsx:143 | The input's `onChange` sets only the input. |
| TerminalFlow.Terminal.HandleInputSubmit | src/components/Terminal.tsx:84-109 | A key other than Enter, or whitespace-only input, changes nothing. Otherwise the trimmed answer is appended, the untrimmed input and a line break are echoed, and the input is cleared. Then either the index rises by one and the next prompt is appended, or, after the last question, waiting ends and the closing text is shown. The index never passes 5. |
| TerminalFlow.Terminal.AskNext | src/components/Terminal.tsx:92-98 | Advances the index by one and appends the next question's prompt. |
| TerminalFlow.Terminal.Finish | src/components/Terminal.tsx:99-106 | Hides the input and appends the closing text. |
| TerminalFlow.AtMostSixAnswers | src/components/Terminal.tsx:99-100 | While the questions are asked there are at most six answers, and the input is gone exactly when all six are in. |
| MeetingClock.FormatTime | src/pages/MeetingRoom.tsx:62-66 | The text before the colon reads as s div 60 and the two digits after it as s mod 60. The result has length 5 exactly when s < 6000. |
| MeetingClock.Pad2 | src/pages/MeetingRoom.tsx:65 | The padded number is all digits and reads back as the number. It has length 2 below 100 and is longer from 100 on. |
| MeetingClock.PaddedReadsBack | src/pages/MeetingRoom.tsx:65 | A zero-padded decimal reads back as its number. |
| MeetingClock.FormatTimeReadsBack | src/pages/MeetingRoom.tsx:62-66 | Every display is a clock whose seconds are 00..59 (tens digit 0..5), and minutes·60 + seconds read back is the duration. |
| MeetingClock.FormatTimeInjective | src/pages/MeetingRoom.tsx:62-66 | Different durations never show the same clock. |
| MeetingClock.OneMinuteOneSecond | src/pages/MeetingRoom.tsx:62-66 | 61 seconds show as `01:01`. |
| MeetingClock.HundredMinutes | src/pages/MeetingRoom.tsx:62-66 | 6000 seconds show as `100:00`, because the minutes are padded to at least two digits, not truncated. |
| Meeting.Send | src/pages/MeetingRoom.tsx:68-80 | Whitespace-only input leaves the list unchanged. Any other input appends exactly one message (id = old length + 1, sender `You`, the untrimmed text, not the consultant) and keeps the earlier messages. |
| Meeting.InitialNumbered | src/pages/MeetingRoom.tsx:29-44 | The two greetings have ids 1 and 2. |
| Meeting.SendKeepsNumbered | src/pages/MeetingRoom.tsx:71 | Sending keeps the ids consecutive from 1. |
| Meeting.NumberedIdsDistinct | src/pages/MeetingRoom.tsx:255 | Consecutive ids are distinct, so they are sound list keys. |
| Meeting.SendAllGrows | src/pages/MeetingRoom.tsx:68-80 | A run of sends adds one message per non-blank input, keeps the earlier messages as a prefix, and keeps the ids consecutive. |
| Meeting.MeetingRoom.constructor | src/pages/MeetingRoom.tsx:25-45 | Video and audio on, chat hidden, empty input, the two greetings, and duration 0. |
| Meeting.MeetingRoom.Tick | src/pages/MeetingRoom.tsx:49-51 | The duration rises by exactly 1 and nothing else changes. |
| Meeting.MeetingRoom.ToggleAudio | src/pages/MeetingRoom.tsx:191 | Flips the audio flag and nothing else. |
| Meeting.MeetingRoom.ToggleVideo | src/pages/MeetingRoom.tsx:200 | Flips the video flag and nothing else. |
| Meeting.MeetingRoom.ToggleChat | src/pages/MeetingRoom.tsx:218 | Flips the chat panel flag and nothing else. |
| Meeting.MeetingRoom.Edit | src/pages/MeetingRoom.tsx:273 | The input's `onChange` sets only the input. |
| Meeting.MeetingRoom.HandleSendMessage | src/pages/MeetingRoom.tsx:68-80 | The list becomes `Send` of the old list and input, and the input is cleared unless it was whitespace only. The greetings stay first and the ids stay consecutive. |
| Meeting.MeetingRoom.KeyPress | src/pages/MeetingRoom.tsx:276 | Enter sends, and any other key changes nothing. |
| MatchBand.BandOf | src/pages/Recommendations.tsx:43-47 | Green exactly from 90, yellow exactly in 80..<90, and orange exactly below 80. |
| MatchBand.ColoursFollowBand | src/pages/Recommendations.tsx:43-53 | Each colour function returns the class of the percentage's band. |
| MatchBand.ColoursAgree | src/pages/Recommendations.tsx:49-53 | Two percentages share a text colour exactly when they share a background colour, and exactly when they share a band. |
| MatchBand.TextClassInjective | src/pages/Recommendations.tsx:43-47 | The three text classes are distinct. |
| MatchBand.BgClassInjective | src/pages/Recommendations.tsx:49-53 | The three background classes are distinct. |
| MatchBand.BandMonotone | src/pages/Recommendations.tsx:43-53 | A higher percentage never falls into a lower band. |
| MatchBand.DisplayRecommendations | src/pages/Recommendations.tsx:56-87 | The generated list when it is non-empty, and the two samples otherwise. |
| MatchBand.DisplayNeverEmpty | src/pages/Recommendations.tsx:56-87 | The page always shows at least one card, and shows the generated list unchanged exactly when it is non-empty. |
| MatchBand.MockBands | src/pages/Recommendations.tsx:57-86 | The samples have ids 1 and 2 and show as one green (95) and one yellow (88) card. |

## Left out

- HTTP serving, CORS and the OPTIONS reply, JSON encoding of replies, and the Supabase client are not modelled. Each query is represented only by the answer it gives: rows, an error, or an inserted id.
- A body that `req.json()` cannot parse is not modelled. Neither is a request body without `studentResponses`, where the access throws: the model always receives the six answers.
- The cosine similarity is a parameter (`Env.similarity`) and scores are exact reals. `Math.sqrt`, floating-point rounding, a zero-magnitude vector (NaN) and NaN in the sort comparator are not modelled. The code has no guard for zero magnitude, so the model has none either.
- RecommendationPipeline.MatchPercentage: `Math.round` is stated on exact reals, not on floating-point doubles.
- MatchBand.BandOf: percentages are reals, so NaN, for which every comparison in `getMatchColor` fails and orange results, is not modelled.
- The wait and pause `setTimeout`s are recorded as millisecond values and never waited. The two edge functions' `console.log` and `console.error` calls are not modelled.
- OpenAIRetry.MakeRequest counts a fetch when the attempt ends rather than when it starts. The totals and the order of the waits equal those of the code.
- EmbeddingBackfill.World: the backfill model takes the helper's retry bound as a parameter, and each statement holds for any bound. The code always calls it with the default of 3, which `RecommendationPipeline.Handle` uses literally.
- With a bound of 0 the helper returns `undefined`, and the code's next access `.data[0]` throws a TypeError. The recommendation model ends with a 500 carrying that error's message (`UndefinedBodyMessage`). The backfill model counts it as a failure, which the backfill's `catch` does. Neither case arises with the default bound of 3.
- An ok response whose JSON parses but lacks `data[0].embedding` is not modelled. A parsed ok body is taken to be the embedding. A body that does not parse is modelled (`Unreadable`), and it is caught and retried like any other failure.
- The database's row order for each select is taken to be table order.
- The `courses` row shape beyond its columns (SQL types and constraints other than the unique id) is not modelled.
- RecommendationPipeline.DescriptiveTextLines and EmbeddingBackfill.CourseTextLines are stated for field values without line breaks. A value containing one splits into more lines, and the text itself is still modelled exactly by `DescriptiveText` and `CourseText`.
- Text is a sequence of Unicode code points. JavaScript strings are UTF-16, so the typewriter types the emoji of the intro lines in two steps (surrogate pairs), where the model types one. The typewriter model is stated for any list of lines.
- TerminalFlow: the 500 ms `setTimeout`s before a prompt or the closing text are applied at once, so the text they append is shown immediately. The navigation to the assessment page 2 s after the closing text is not modelled.
- TerminalFlow: the cursor blink, scrolling, focus and rendering are not modelled.
- Meeting: the locale time string of a sent message is the parameter `now`. The toast, the end-call handler (navigation and a toast) and the rendering are not modelled.
- Meeting.MeetingRoom.KeyPress: the chat input exists only while the panel is shown, a requirement the model does not impose on sending.
- The other pages, hooks and components (authentication, consultation booking, game creation, layout, routing, the admin panel and the `functions.invoke` wrappers) are not part of this model.

## Notes on the code as written

- Every failure is retried, not only a rate limit. In the helper, the `throw` for a non-429 status sits inside the `try`, so its own `catch` intercepts it and waits 2^a·500 ms before the next attempt. Only the last attempt's error is rethrown, with no wait.
- The comment on the rate-limit wait names 2 s, 4 s and 8 s, but there is no wait after the third attempt. Three rate limits wait 2000 ms and 4000 ms and then fail. This is what the model follows.
- The profile and course templates interpolate raw values, and there is no substitution for a missing value.
- The cosine similarity divides by the product of the magnitudes with no zero guard. The model follows the code here too.
