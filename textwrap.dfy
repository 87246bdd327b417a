/**
 * `_wrap_text` (document_previewer.py): greedy word wrap against a measured
 * width. `Groups` is the reference definition (which words end up on which
 * line); `WrapText` is the loop the source runs, proved to compute it.
 */
module TextWrap {
  import opened PyStr
  import opened Canvas

  predicate Fits(measure: Measure, font: Font, maxWidth: int, line: string) {
    TextWidth(measure, font, line) <= maxWidth
  }

  /**
   * The lines still to come when `words` remain and `current` holds the
   * words of the line being built: a word joins the line when the joined
   * test line fits; otherwise the line is closed and the word starts the next
   * one, or, when the line is empty, the word goes out alone on its own line.
   */
  function Groups(words: seq<string>, current: seq<string>, measure: Measure, font: Font, maxWidth: int): seq<seq<string>>
    decreases |words|
  {
    if words == [] then (if current == [] then [] else [current])
    else
      var w := words[0];
      if Fits(measure, font, maxWidth, Join(current + [w])) then
        Groups(words[1..], current + [w], measure, font, maxWidth)
      else if current != [] then
        [current] + Groups(words[1..], [w], measure, font, maxWidth)
      else
        [[w]] + Groups(words[1..], [], measure, font, maxWidth)
  }

  function Lines(groups: seq<seq<string>>): seq<string> {
    if groups == [] then [] else [Join(groups[0])] + Lines(groups[1..])
  }

  function Flatten(groups: seq<seq<string>>): seq<string> {
    if groups == [] then [] else groups[0] + Flatten(groups[1..])
  }

  /** The words of some lines, concatenated in order. */
  function WordsOf(lines: seq<string>): seq<string> {
    if lines == [] then [] else Split(lines[0]) + WordsOf(lines[1..])
  }

  /** What `_wrap_text(text, font, max_width)` returns. */
  function Wrap(text: string, measure: Measure, font: Font, maxWidth: int): seq<string> {
    Lines(Groups(Split(text), [], measure, font, maxWidth))
  }

  // ------------------------------------------------------------ the loop

  /** `_wrap_text` as written: a loop over the words that fills `lines` and `current_line`. */
  method WrapText(text: string, measure: Measure, font: Font, maxWidth: int) returns (lines: seq<string>)
    ensures lines == Wrap(text, measure, font, maxWidth)
  {
    var words := Split(text);
    lines := [];
    var currentLine: seq<string> := [];
    var i := 0;
    while i < |words|
      invariant 0 <= i <= |words|
      invariant lines + Lines(Groups(words[i..], currentLine, measure, font, maxWidth)) == Wrap(text, measure, font, maxWidth)
    {
      var word := words[i];
      var testLine := Join(currentLine + [word]);
      assert words[i..][1..] == words[i + 1..];
      if TextWidth(measure, font, testLine) <= maxWidth {
        currentLine := currentLine + [word];
      } else if currentLine != [] {
        lines := lines + [Join(currentLine)];
        currentLine := [word];
      } else {
        lines := lines + [word];
      }
      i := i + 1;
    }
    if currentLine != [] {
      lines := lines + [Join(currentLine)];
    }
  }

  // ---------------------------------------------------------- properties

  lemma {:induction false} LinesLength(groups: seq<seq<string>>)
    ensures |Lines(groups)| == |groups|
    ensures forall i :: 0 <= i < |groups| ==> Lines(groups)[i] == Join(groups[i])
  {
    if groups != [] {
      LinesLength(groups[1..]);
    }
  }

  /** No word is lost, duplicated or reordered: the lines hold the pending line and then the words. */
  lemma {:induction false} GroupsFlatten(words: seq<string>, current: seq<string>, measure: Measure, font: Font, maxWidth: int)
    ensures Flatten(Groups(words, current, measure, font, maxWidth)) == current + words
    decreases |words|
  {
    if words == [] {
      if current != [] {
        assert Flatten([current]) == current + Flatten([]);
      }
    } else {
      var w := words[0];
      assert [w] + words[1..] == words;
      if Fits(measure, font, maxWidth, Join(current + [w])) {
        GroupsFlatten(words[1..], current + [w], measure, font, maxWidth);
      } else if current != [] {
        GroupsFlatten(words[1..], [w], measure, font, maxWidth);
        var g := [current] + Groups(words[1..], [w], measure, font, maxWidth);
        assert g[1..] == Groups(words[1..], [w], measure, font, maxWidth);
      } else {
        GroupsFlatten(words[1..], [], measure, font, maxWidth);
        var g := [[w]] + Groups(words[1..], [], measure, font, maxWidth);
        assert g[1..] == Groups(words[1..], [], measure, font, maxWidth);
      }
    }
  }

  /** A pending line made only of words. */
  predicate AllWords(ws: seq<string>) {
    forall i :: 0 <= i < |ws| ==> IsWord(ws[i])
  }

  /** The state the loop keeps: the pending line is empty, one word, or fits. */
  predicate PendingOk(current: seq<string>, measure: Measure, font: Font, maxWidth: int) {
    current == [] || |current| == 1 || Fits(measure, font, maxWidth, Join(current))
  }

  /**
   * Every line is a non-empty list of words, and either fits the width or is
   * a single word; when a line is closed before the last, the line with the
   * next line's first word added would not have fitted, or the line is a
   * single word that does not fit on its own.
   */
  predicate GroupsWellFormed(groups: seq<seq<string>>, measure: Measure, font: Font, maxWidth: int) {
    && (forall i :: 0 <= i < |groups| ==> groups[i] != [] && AllWords(groups[i]))
    && (forall i :: 0 <= i < |groups| ==> |groups[i]| == 1 || Fits(measure, font, maxWidth, Join(groups[i])))
    && (forall i :: 0 <= i < |groups| - 1 ==>
          || (|groups[i]| == 1 && !Fits(measure, font, maxWidth, groups[i][0]))
          || !Fits(measure, font, maxWidth, Join(groups[i] + [groups[i + 1][0]])))
  }

  lemma {:induction false} GroupsHead(words: seq<string>, current: seq<string>, measure: Measure, font: Font, maxWidth: int)
    requires current != []
    ensures Groups(words, current, measure, font, maxWidth) != []
    ensures Groups(words, current, measure, font, maxWidth)[0] != []
    ensures Groups(words, current, measure, font, maxWidth)[0][0] == current[0]
    decreases |words|
  {
    if words != [] {
      var w := words[0];
      if Fits(measure, font, maxWidth, Join(current + [w])) {
        GroupsHead(words[1..], current + [w], measure, font, maxWidth);
      }
    }
  }

  lemma {:induction false} GroupsShape(words: seq<string>, current: seq<string>, measure: Measure, font: Font, maxWidth: int)
    requires AllWords(words) && AllWords(current)
    requires PendingOk(current, measure, font, maxWidth)
    ensures GroupsWellFormed(Groups(words, current, measure, font, maxWidth), measure, font, maxWidth)
    decreases |words|
  {
    if words != [] {
      var w := words[0];
      var rest := words[1..];
      assert AllWords(rest) by { assert forall i :: 0 <= i < |rest| ==> rest[i] == words[i + 1]; }
      if Fits(measure, font, maxWidth, Join(current + [w])) {
        GroupsShape(rest, current + [w], measure, font, maxWidth);
      } else if current != [] {
        GroupsShape(rest, [w], measure, font, maxWidth);
        GroupsHead(rest, [w], measure, font, maxWidth);
        var tail := Groups(rest, [w], measure, font, maxWidth);
        var g := [current] + tail;
        assert g[1..] == tail;
        forall i | 0 <= i < |g| - 1
          ensures || (|g[i]| == 1 && !Fits(measure, font, maxWidth, g[i][0]))
                  || !Fits(measure, font, maxWidth, Join(g[i] + [g[i + 1][0]]))
        {
          if i > 0 { assert g[i] == tail[i - 1] && g[i + 1] == tail[i]; }
        }
        assert forall i :: 1 <= i < |g| ==> g[i] == tail[i - 1];
      } else {
        GroupsShape(rest, [], measure, font, maxWidth);
        var tail := Groups(rest, [], measure, font, maxWidth);
        var g := [[w]] + tail;
        assert Join([w]) == w;
        assert forall i :: 1 <= i < |g| ==> g[i] == tail[i - 1];
        forall i | 0 <= i < |g| - 1
          ensures || (|g[i]| == 1 && !Fits(measure, font, maxWidth, g[i][0]))
                  || !Fits(measure, font, maxWidth, Join(g[i] + [g[i + 1][0]]))
        {
          if i > 0 { assert g[i] == tail[i - 1] && g[i + 1] == tail[i]; }
        }
      }
    } else if current != [] {
      assert Groups(words, current, measure, font, maxWidth) == [current];
    }
  }

  lemma {:induction false} JoinNonEmpty(ws: seq<string>)
    requires ws != [] && AllWords(ws)
    ensures Join(ws) != []
  {
    if |ws| > 1 {
      assert Join(ws) == ws[0] + " " + Join(ws[1..]);
    }
  }

  lemma {:induction false} WordsOfLines(groups: seq<seq<string>>)
    requires forall i :: 0 <= i < |groups| ==> AllWords(groups[i])
    ensures WordsOf(Lines(groups)) == Flatten(groups)
  {
    if groups != [] {
      SplitJoin(groups[0]);
      WordsOfLines(groups[1..]);
    }
  }

  /**
   * The promises of `_wrap_text`: the words of the output lines, concatenated,
   * are exactly `text.split()`; no line is empty; every line fits the width
   * or is a single word; and a line ends early only when the next word would
   * not have fitted on it (or it is one word too wide on its own).
   */
  lemma WrapSound(text: string, measure: Measure, font: Font, maxWidth: int)
    ensures var lines := Wrap(text, measure, font, maxWidth);
      && WordsOf(lines) == Split(text)
      && (forall i :: 0 <= i < |lines| ==> lines[i] != [])
      && (forall i :: 0 <= i < |lines| ==> Fits(measure, font, maxWidth, lines[i]) || IsWord(lines[i]))
  {
    var words := Split(text);
    var groups := Groups(words, [], measure, font, maxWidth);
    GroupsShape(words, [], measure, font, maxWidth);
    GroupsFlatten(words, [], measure, font, maxWidth);
    assert [] + words == words;
    LinesLength(groups);
    WordsOfLines(groups);
    forall i | 0 <= i < |groups|
      ensures Join(groups[i]) != []
      ensures Fits(measure, font, maxWidth, Join(groups[i])) || IsWord(Join(groups[i]))
    {
      JoinNonEmpty(groups[i]);
      if |groups[i]| == 1 { assert Join(groups[i]) == groups[i][0]; }
    }
  }

  /** A text with at least one word wraps to at least one line. */
  lemma WrapNonEmpty(text: string, measure: Measure, font: Font, maxWidth: int)
    requires Split(text) != []
    ensures Wrap(text, measure, font, maxWidth) != []
  {
    WrapSound(text, measure, font, maxWidth);
  }

  /** The wrapped lines come from a grouping of `text.split()` that is well formed and greedy. */
  lemma WrapGreedy(text: string, measure: Measure, font: Font, maxWidth: int)
    ensures var groups := Groups(Split(text), [], measure, font, maxWidth);
      && Wrap(text, measure, font, maxWidth) == Lines(groups)
      && Flatten(groups) == Split(text)
      && GroupsWellFormed(groups, measure, font, maxWidth)
  {
    GroupsShape(Split(text), [], measure, font, maxWidth);
    GroupsFlatten(Split(text), [], measure, font, maxWidth);
    assert [] + Split(text) == Split(text);
  }
}
