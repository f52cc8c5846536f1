/** The multi-line template literal that both edge functions use to turn a
    record into embedding input: a line break, then one line per field, each
    made of an indentation, a label and the interpolated value, then a line
    break and the indentation of the closing backtick; the whole literal is
    passed through `trim()`. */
module LabelledTemplate {
  import opened JsText

  /** The body of the template literal: for each field, a line break, the
      indentation, the label and the value. */
  function Lines(labels: seq<string>, values: seq<string>, indent: string): string
    requires |labels| == |values|
  {
    if labels == [] then ""
    else "\n" + indent + labels[0] + values[0] + Lines(labels[1..], values[1..], indent)
  }

  /** The trimmed template literal. */
  function Render(labels: seq<string>, values: seq<string>, indent: string, closing: string): string
    requires |labels| == |values|
  {
    Trim(Lines(labels, values, indent) + "\n" + closing)
  }

  /** The lines the rendered text consists of: the first without indentation
      (the leading whitespace is trimmed away), the inner ones with their
      indentation, and the last stripped of trailing whitespace. */
  function ExpectedLines(first: string, labels: seq<string>, values: seq<string>, indent: string): (r: seq<string>)
    requires |labels| == |values| >= 1
    ensures |r| == |labels|
    decreases |labels|
  {
    if |labels| == 1 then [TrimEnd(first + labels[0] + values[0])]
    else [first + labels[0] + values[0]] + ExpectedLines(indent, labels[1..], values[1..], indent)
  }

  /** Line `i` of the expected lines, for a line before the last: the
      first line starts with `first`, every later one with the
      indentation. */
  lemma {:induction false} ExpectedLinesAt(first: string, labels: seq<string>, values: seq<string>, indent: string, i: nat)
    requires |labels| == |values| && i < |labels| - 1
    ensures ExpectedLines(first, labels, values, indent)[i]
         == (if i == 0 then first else indent) + labels[i] + values[i]
    decreases i
  {
    if i > 0 {
      ExpectedLinesAt(indent, labels[1..], values[1..], indent, i - 1);
    }
  }

  /** The last expected line is trimmed at its end. */
  lemma {:induction false} ExpectedLastLine(first: string, labels: seq<string>, values: seq<string>, indent: string)
    requires |labels| == |values| >= 1
    ensures var n := |labels| - 1;
      ExpectedLines(first, labels, values, indent)[n]
         == TrimEnd((if n == 0 then first else indent) + labels[n] + values[n])
    decreases |labels|
  {
    if |labels| > 1 {
      ExpectedLastLine(indent, labels[1..], values[1..], indent);
    }
  }

  /** The expected lines of a six-field record, written out. */
  lemma SixLines(labels: seq<string>, values: seq<string>, indent: string)
    requires |labels| == |values| == 6
    ensures ExpectedLines("", labels, values, indent) == [
      labels[0] + values[0],
      indent + labels[1] + values[1],
      indent + labels[2] + values[2],
      indent + labels[3] + values[3],
      indent + labels[4] + values[4],
      TrimEnd(indent + labels[5] + values[5])]
  {
    var E := ExpectedLines("", labels, values, indent);
    ExpectedLinesAt("", labels, values, indent, 0);
    ExpectedLinesAt("", labels, values, indent, 1);
    ExpectedLinesAt("", labels, values, indent, 2);
    ExpectedLinesAt("", labels, values, indent, 3);
    ExpectedLinesAt("", labels, values, indent, 4);
    ExpectedLastLine("", labels, values, indent);
    assert "" + labels[0] + values[0] == labels[0] + values[0];
    assert E == [E[0], E[1], E[2], E[3], E[4], E[5]];
  }

  /** When the statement about the lines holds: labels start with a visible
      character, nothing but the separating line breaks contains a line
      break, and the indentation is whitespace. */
  predicate WellFormed(labels: seq<string>, values: seq<string>, indent: string, closing: string) {
    && |labels| == |values| >= 1
    && AllWhitespace(indent) && AllWhitespace(closing) && '\n' !in indent
    && (forall i :: 0 <= i < |labels| ==> labels[i] != [] && !IsWhitespace(labels[i][0]) && '\n' !in labels[i])
    && (forall i :: 0 <= i < |values| ==> '\n' !in values[i])
  }

  /** Splitting the rendered text at line breaks gives back the labelled
      lines, in field order, with the inner indentation kept. */
  lemma RenderLines(labels: seq<string>, values: seq<string>, indent: string, closing: string)
    requires WellFormed(labels, values, indent, closing)
    ensures Split(Render(labels, values, indent, closing), '\n') == ExpectedLines("", labels, values, indent)
  {
    var body := labels[0] + values[0] + Lines(labels[1..], values[1..], indent);
    var lead, trail := "\n" + indent, "\n" + closing;
    assert Lines(labels, values, indent) + "\n" + closing == lead + (body + trail);
    LineBreakThenWhitespace(indent);
    LineBreakThenWhitespace(closing);
    assert (body + trail)[0] == labels[0][0];
    TrimStartPrefix(lead, body + trail);
    TrimEndSuffix(body, trail);
    assert Render(labels, values, indent, closing) == TrimEnd(body);
    var first: string := [];
    assert first + labels[0] == labels[0];
    TailLines(first, labels, values, indent, closing);
  }

  lemma LineBreakThenWhitespace(w: string)
    requires AllWhitespace(w)
    ensures AllWhitespace("\n" + w)
  {
    assert forall i :: 1 <= i < |"\n" + w| ==> ("\n" + w)[i] == w[i - 1];
  }

  lemma {:induction false} TailLines(first: string, labels: seq<string>, values: seq<string>, indent: string, closing: string)
    requires WellFormed(labels, values, indent, closing)
    requires '\n' !in first
    ensures Split(TrimEnd(first + labels[0] + values[0] + Lines(labels[1..], values[1..], indent)), '\n')
         == ExpectedLines(first, labels, values, indent)
    decreases |labels|
  {
    var a := first + labels[0] + values[0];
    assert '\n' !in a;
    if |labels| == 1 {
      assert a + Lines(labels[1..], values[1..], indent) == a;
      var t := TrimEnd(a);
      assert forall i :: 0 <= i < |t| ==> t[i] == a[i];
      SplitWithout(t, '\n');
    } else {
      var L, V := labels[1..], values[1..];
      var b := indent + L[0] + V[0] + Lines(L[1..], V[1..], indent);
      assert a + Lines(L, V, indent) == (a + "\n") + b;
      assert b[|indent|] == L[0][0];
      TrimEndKeepsPrefix(a + "\n", b);
      assert (a + "\n") + TrimEnd(b) == a + ['\n'] + TrimEnd(b);
      SplitAt(a, TrimEnd(b), '\n');
      assert WellFormed(L, V, indent, closing) by {
        forall i | 0 <= i < |L| ensures L[i] != [] && !IsWhitespace(L[i][0]) && '\n' !in L[i] {
          assert L[i] == labels[i + 1];
        }
        forall i | 0 <= i < |V| ensures '\n' !in V[i] {
          assert V[i] == values[i + 1];
        }
      }
      TailLines(indent, L, V, indent, closing);
    }
  }
}
