/** The terminal on the landing page: a typewriter that types its intro
    lines one character per timer tick, then a six-question flow that
    collects the answers typed at its prompt.

    Each timer callback is a method; the delay it schedules is returned
    rather than waited. The prompt and the closing message that the source
    appends after a further 500 ms are appended at once. */
module TerminalFlow {
  import opened Wrappers
  import opened JsText

  /** One intro line, with the delay after each character and the delay
      after the whole line (`finalDelay || 0`). */
  datatype Line = Line(text: string, delay: nat, finalDelay: nat)

  const IntroLines: seq<Line> := [
    Line("$ ", 500, 0),
    Line("course-compass --start-assessment", 100, 800),
    Line("\n✨ Initializing Course " + "Recommendation System...", 50, 500),
    Line("\nLoading ML algorithms...", 50, 500),
    Line("\nReady to analyze your preferences...", 50, 700),
    Line("\n🎓 Let's find your perfect " + "course! Answer the " + "following questions:", 50, 1000)]

  /** The delay before the first character. */
  const StartDelay: nat := 1000

  const Questions: seq<string> := [
    "Which Program/Course are " + "you currently taking?",
    "What subjects do you enjoy the most?",
    "What subjects do you find " + "most difficult or less " + "enjoyable?",
    "What are some of your " + "strengths or skills?",
    "Do you prefer tasks that " + "are more logical or more " + "creative?",
    "What career fields interest you most?"]

  const ClosingText: string :=
    "\n✨ Assessment complete! " + "Analyzing your " + "responses...\n🚀 Redirecting " + "to your personalized " + "recommendations..."

  /** The prompt of question `i` (the total is written as a literal 6). */
  function Prompt(questions: seq<string>, i: nat): string
    requires i < |questions|
  {
    "Question " + NatToString(i + 1) + "/6: " + questions[i] + "\n> "
  }

  /** All the lines' texts, one after the other. */
  function Flatten(lines: seq<Line>): string {
    if lines == [] then "" else lines[0].text + Flatten(lines[1..])
  }

  /** Where the typewriter can be: a line index up to the number of lines
      and, within a line, a character index up to its length. */
  predicate InBounds(lines: seq<Line>, li: nat, ci: nat) {
    li <= |lines| && (if li < |lines| then ci <= |lines[li].text| else ci == 0)
  }

  /** What the typewriter has typed at line `li`, character `ci`. */
  function Typed(lines: seq<Line>, li: nat, ci: nat): string
    requires InBounds(lines, li, ci)
  {
    Flatten(lines[..li]) + (if li < |lines| then lines[li].text[..ci] else "")
  }

  /** The delays of the timeouts the typewriter still schedules from line
      `li`, character `ci` on: one per remaining character and one per
      remaining line end. */
  function Delays(lines: seq<Line>, li: nat, ci: nat): seq<nat>
    requires InBounds(lines, li, ci)
    decreases |lines| - li, if li < |lines| then |lines[li].text| - ci else 0
  {
    if li == |lines| then []
    else if ci < |lines[li].text| then [lines[li].delay] + Delays(lines, li, ci + 1)
    else [lines[li].finalDelay] + Delays(lines, li + 1, 0)
  }

  lemma {:induction false} FlattenAppend(a: seq<Line>, b: seq<Line>)
    ensures Flatten(a + b) == Flatten(a) + Flatten(b)
  {
    if a == [] {
      assert a + b == b;
    } else {
      assert (a + b)[1..] == a[1..] + b;
      FlattenAppend(a[1..], b);
    }
  }

  /** Finishing line `li` extends the flattened prefix by its text. */
  lemma FlattenStep(lines: seq<Line>, li: nat)
    requires li < |lines|
    ensures Flatten(lines[..li + 1]) == Flatten(lines[..li]) + lines[li].text
  {
    assert lines[..li + 1] == lines[..li] + [lines[li]];
    FlattenAppend(lines[..li], [lines[li]]);
    assert Flatten([lines[li]]) == lines[li].text + Flatten([]);
  }

  /** What the typewriter has typed is always a prefix of the concatenated
      lines, and all of them once every line is done. */
  lemma TypedIsPrefix(lines: seq<Line>, li: nat, ci: nat)
    requires InBounds(lines, li, ci)
    ensures Typed(lines, li, ci) <= Flatten(lines)
    ensures li == |lines| ==> Typed(lines, li, ci) == Flatten(lines)
  {
    assert lines == lines[..li] + lines[li..];
    FlattenAppend(lines[..li], lines[li..]);
    if li < |lines| {
      assert Flatten(lines[li..]) == lines[li].text + Flatten(lines[li + 1..]);
      assert lines[li].text[..ci] <= lines[li].text;
    } else {
      assert lines[li..] == [];
      assert lines[..li] == lines;
    }
  }

  /** The typewriter takes exactly one timeout per character and one per
      line end. */
  lemma {:induction false} DelaysCount(lines: seq<Line>, li: nat, ci: nat)
    requires InBounds(lines, li, ci)
    ensures |Delays(lines, li, ci)| == |Flatten(lines[li..])| - ci + (|lines| - li)
    decreases |lines| - li, if li < |lines| then |lines[li].text| - ci else 0
  {
    if li < |lines| {
      assert Flatten(lines[li..]) == lines[li].text + Flatten(lines[li + 1..]);
      if ci < |lines[li].text| {
        DelaysCount(lines, li, ci + 1);
      } else {
        DelaysCount(lines, li + 1, 0);
      }
    } else {
      assert lines[li..] == [];
    }
  }

  class Terminal {
    const lines: seq<Line>
    const questions: seq<string>
    var terminalText: string
    var animationComplete: bool
    var questionIndex: nat
    var responses: seq<string>
    var currentInput: string
    var waiting: bool
    /** The typewriter's closure variables. */
    var currentText: string
    var lineIndex: nat
    var charIndex: nat

    /** The state while the intro is being typed: the text shown is what has
        been typed, and no question has been asked. */
    ghost predicate Typing()
      reads this
    {
      && |questions| == 6 && !animationComplete && !waiting
      && InBounds(lines, lineIndex, charIndex)
      && currentText == Typed(lines, lineIndex, charIndex)
      && terminalText == currentText
      && questionIndex == 0 && responses == []
    }

    /** The state once the questions started: the index never passes the
        last question, while waiting there is one answer per earlier
        question, and after the last answer all six are in. */
    ghost predicate Asking()
      reads this
    {
      && |questions| == 6 && animationComplete
      && questionIndex < |questions|
      && (waiting ==> |responses| == questionIndex)
      && (!waiting ==> |responses| == |questions| && questionIndex == |questions| - 1)
    }

    constructor (lines: seq<Line>)
      ensures this.lines == lines && questions == Questions && lineIndex == 0 && charIndex == 0
      ensures Typing() && currentInput == ""
    {
      this.lines := lines;
      questions := Questions;
      terminalText, currentText := "", "";
      animationComplete, waiting := false, false;
      questionIndex, responses, currentInput := 0, [], "";
      lineIndex, charIndex := 0, 0;
    }

    /** `typeNextChar`: types one character, or ends the current line, or,
        past the last line, marks the animation complete and asks the first
        question. `next` is the delay of the timeout it schedules. */
    method TypeNextChar() returns (next: Option<nat>)
      requires Typing()
      modifies this
      ensures next.None? <==> old(lineIndex) == |lines|
      ensures next.Some? ==> Typing() && old(Delays(lines, lineIndex, charIndex)) == [next.value] + Delays(lines, lineIndex, charIndex)
      ensures next.Some? && old(charIndex) < |lines[old(lineIndex)].text| ==>
        && lineIndex == old(lineIndex) && charIndex == old(charIndex) + 1
        && currentText == old(currentText) + [lines[lineIndex].text[old(charIndex)]]
      ensures next.Some? && old(charIndex) == |lines[old(lineIndex)].text| ==>
        lineIndex == old(lineIndex) + 1 && charIndex == 0 && currentText == old(currentText)
      ensures next.None? ==>
        && Asking() && waiting && questionIndex == 0 && responses == []
        && currentText == old(currentText) == Flatten(lines)
        && terminalText == old(terminalText) + "\n\n" + Prompt(questions, 0)
      ensures currentInput == old(currentInput)
    {
      if lineIndex >= |lines| {
        TypedIsPrefix(lines, lineIndex, charIndex);
        animationComplete := true;
        StartQuestions();
        return None;
      }
      var line := lines[lineIndex];
      if charIndex < |line.text| {
        assert line.text[..charIndex + 1] == line.text[..charIndex] + [line.text[charIndex]];
        currentText := currentText + [line.text[charIndex]];
        terminalText := currentText;
        charIndex := charIndex + 1;
        next := Some(line.delay);
      } else {
        FlattenStep(lines, lineIndex);
        lineIndex := lineIndex + 1;
        charIndex := 0;
        next := Some(line.finalDelay);
      }
    }

    /** `startQuestions`: shows the first question and the input. */
    method StartQuestions()
      requires |questions| == 6 && animationComplete && questionIndex == 0
      modifies this
      ensures terminalText == old(terminalText) + "\n\n" + Prompt(questions, 0) && waiting
      ensures animationComplete && questionIndex == 0 && responses == old(responses)
      ensures currentText == old(currentText) && currentInput == old(currentInput)
      ensures lineIndex == old(lineIndex) && charIndex == old(charIndex)
    {
      terminalText := terminalText + "\n\n" + Prompt(questions, questionIndex);
      waiting := true;
    }

    /** The chain of timeouts: the typewriter runs until it completes;
        `delays` are the timeouts it schedules on the way. */
    method Animate() returns (delays: seq<nat>)
      requires Typing()
      modifies this
      ensures delays == old(Delays(lines, lineIndex, charIndex))
      ensures Asking() && waiting && questionIndex == 0 && responses == []
      ensures currentText == Flatten(lines)
      ensures terminalText == Flatten(lines) + "\n\n" + Prompt(questions, 0)
    {
      delays := [];
      ghost var all := Delays(lines, lineIndex, charIndex);
      var next := TypeNextChar();
      while next.Some?
        invariant next.Some? ==> Typing() && all == delays + [next.value] + Delays(lines, lineIndex, charIndex)
        invariant next.None? ==>
          && all == delays && Asking() && waiting && questionIndex == 0 && responses == []
          && currentText == Flatten(lines) && terminalText == Flatten(lines) + "\n\n" + Prompt(questions, 0)
        decreases if next.Some? then |Delays(lines, lineIndex, charIndex)| + 1 else 0
      {
        delays := delays + [next.value];
        ghost var rest := Delays(lines, lineIndex, charIndex);
        next := TypeNextChar();
        if next.Some? {
          assert all == delays + [next.value] + Delays(lines, lineIndex, charIndex);
        } else {
          assert rest == [];
        }
      }
    }

    /** The input's `onChange`. */
    method Edit(value: string)
      modifies this
      ensures currentInput == value
      ensures terminalText == old(terminalText) && responses == old(responses)
      ensures questionIndex == old(questionIndex) && waiting == old(waiting)
      ensures animationComplete == old(animationComplete) && currentText == old(currentText)
      ensures lineIndex == old(lineIndex) && charIndex == old(charIndex)
    {
      currentInput := value;
    }

    /** `handleInputSubmit`, reachable only while the input is shown: on
        Enter with a non-blank input, records the trimmed answer, echoes the
        input as typed, clears it, and either asks the next question or,
        after the last one, hides the input and shows the closing text. */
    method HandleInputSubmit(enter: bool)
      requires Asking() && waiting
      modifies this
      ensures Asking()
      ensures !enter || Trim(old(currentInput)) == "" ==> unchanged(this)
      ensures enter && Trim(old(currentInput)) != "" ==>
        && responses == old(responses) + [Trim(old(currentInput))]
        && currentInput == ""
        && animationComplete && currentText == old(currentText)
        && lineIndex == old(lineIndex) && charIndex == old(charIndex)
        && if old(questionIndex) < |questions| - 1 then
             && questionIndex == old(questionIndex) + 1 && waiting
             && terminalText == old(terminalText) + old(currentInput) + "\n" + "\n" + Prompt(questions, questionIndex)
           else
             && questionIndex == old(questionIndex) && !waiting
             && terminalText == old(terminalText) + old(currentInput) + "\n" + ClosingText
    {
      if enter && Trim(currentInput) != "" {
        var answer := Trim(currentInput);
        responses := responses + [answer];
        terminalText := terminalText + currentInput + "\n";
        currentInput := "";
        if questionIndex < |questions| - 1 {
          AskNext();
        } else {
          Finish();
        }
      }
    }

    /** The branch of `handleInputSubmit` that moves on to the next question. */
    method AskNext()
      requires |questions| == 6 && questionIndex < |questions| - 1
      modifies this
      ensures questionIndex == old(questionIndex) + 1
      ensures terminalText == old(terminalText) + "\n" + Prompt(questions, questionIndex)
      ensures waiting == old(waiting) && responses == old(responses) && currentInput == old(currentInput)
      ensures animationComplete == old(animationComplete) && currentText == old(currentText)
      ensures lineIndex == old(lineIndex) && charIndex == old(charIndex)
    {
      var nextIndex := questionIndex + 1;
      questionIndex := nextIndex;
      terminalText := terminalText + "\n" + Prompt(questions, nextIndex);
    }

    /** The branch of `handleInputSubmit` after the last answer. */
    method Finish()
      modifies this
      ensures !waiting && terminalText == old(terminalText) + ClosingText
      ensures questionIndex == old(questionIndex) && responses == old(responses) && currentInput == old(currentInput)
      ensures animationComplete == old(animationComplete) && currentText == old(currentText)
      ensures lineIndex == old(lineIndex) && charIndex == old(charIndex)
    {
      waiting := false;
      terminalText := terminalText + ClosingText;
    }
  }

  /** The effect on mount: a terminal over the intro lines whose first
      character is typed `StartDelay` ms after mount, animated until the
      first question is asked. `delays` are all the timeouts scheduled. */
  method RunIntro() returns (t: Terminal, delays: seq<nat>)
    ensures t.lines == IntroLines && t.questions == Questions
    ensures delays == [StartDelay] + Delays(IntroLines, 0, 0)
    ensures t.Asking() && t.waiting && t.questionIndex == 0 && t.responses == []
    ensures t.terminalText == Flatten(IntroLines) + "\n\n" + Prompt(Questions, 0)
  {
    t := new Terminal(IntroLines);
    var typed := t.Animate();
    delays := [StartDelay] + typed;
  }

  /** While the questions are asked, at most six answers are ever
      collected, and the input is gone exactly when all six are in. */
  lemma AtMostSixAnswers(t: Terminal)
    requires t.Asking()
    ensures |t.responses| <= 6
    ensures !t.waiting <==> |t.responses| == 6
  {
  }
}
