/**
 * The greedy word wrapper `wrapText` of server/index.js.
 *
 * The font metric `font.widthOfTextAtSize(s, size)` is a parameter `m` about
 * which nothing is assumed: not additivity, not monotonicity, not even that
 * widths are non-negative.
 */
module Wrap {
  import opened Common
  import opened Tokens

  /** A text metric: the width of a string drawn at a font size. */
  type Measure = (string, real) -> real

  /** What `wrapText` returns for text that JavaScript treats as false. */
  const Placeholder: seq<string> := ["..."]

  /** JavaScript truthiness of a possibly missing string: null, undefined and "" are false. */
  predicate Truthy(text: Option<string>)
  {
    text.Some? && text.value != ""
  }

  /** The tokens of consecutive groups, one group after the other. */
  function Concat(gs: seq<seq<string>>): seq<string>
  {
    if gs == [] then [] else gs[0] + Concat(gs[1..])
  }

  /** The line that each group of tokens is typeset as. */
  function LinesOf(gs: seq<seq<string>>): (lines: seq<string>)
    ensures |lines| == |gs|
  {
    seq(|gs|, k requires 0 <= k < |gs| => Join(gs[k]))
  }

  /** The tokens of each line in turn, split again on single spaces. */
  function TokensOf(lines: seq<string>): seq<string>
  {
    if lines == [] then [] else Split(lines[0]) + TokensOf(lines[1..])
  }

  /**
   * The greedy fill as groups of tokens: `line` holds the tokens of the line
   * being built and `rest` the tokens not yet looked at. The next token joins
   * the line when the line with it measures strictly less than `maxWidth`;
   * otherwise the line is closed and the token starts the next one.
   */
  function Fill(m: Measure, size: real, maxWidth: real, line: seq<string>, rest: seq<string>): seq<seq<string>>
    requires line != []
    decreases |rest|
  {
    if rest == [] then [line]
    else if m(Join(line + [rest[0]]), size) < maxWidth then Fill(m, size, maxWidth, line + [rest[0]], rest[1..])
    else [line] + Fill(m, size, maxWidth, [rest[0]], rest[1..])
  }

  /** The groups of tokens that the lines of non-empty `text` are made of. */
  function Groups(m: Measure, size: real, maxWidth: real, text: string): seq<seq<string>>
  {
    var words := Split(text);
    Fill(m, size, maxWidth, [words[0]], words[1..])
  }

  /** `wrapText(text, font, size, maxWidth)` as a value. */
  function WrapLines(m: Measure, size: real, maxWidth: real, text: Option<string>): seq<string>
  {
    if !Truthy(text) then Placeholder else LinesOf(Groups(m, size, maxWidth, text.value))
  }

  /**
   * `wrapText`: walks the tokens of `text` once, growing the current line or
   * closing it, and closes the last line at the end.
   */
  method WrapText(m: Measure, fontSize: real, maxWidth: real, text: Option<string>) returns (lines: seq<string>)
    ensures !Truthy(text) ==> lines == ["..."]
    ensures lines == WrapLines(m, fontSize, maxWidth, text)
  {
    if !Truthy(text) {
      return Placeholder;
    }
    var words := Split(text.value);
    lines := [];
    var currentLine := words[0];
    ghost var done: seq<seq<string>> := [];
    ghost var line: seq<string> := [words[0]];
    var i := 1;
    while i < |words|
      invariant 1 <= i <= |words|
      invariant line != [] && currentLine == Join(line)
      invariant lines == LinesOf(done)
      invariant done + Fill(m, fontSize, maxWidth, line, words[i..]) == Groups(m, fontSize, maxWidth, text.value)
    {
      var word := words[i];
      assert words[i..][0] == word && words[i..][1..] == words[i + 1..];
      JoinSnoc(line, word);
      var width := m(currentLine + " " + word, fontSize);
      if width < maxWidth {
        currentLine := currentLine + " " + word;
        line := line + [word];
      } else {
        LinesOfSnoc(done, line);
        lines := lines + [currentLine];
        done := done + [line];
        currentLine := word;
        line := [word];
      }
      i := i + 1;
    }
    LinesOfSnoc(done, line);
    lines := lines + [currentLine];
    done := done + [line];
    assert done == Groups(m, fontSize, maxWidth, text.value);
  }

  /** Closing one more group adds its line at the end. */
  lemma LinesOfSnoc(gs: seq<seq<string>>, g: seq<string>)
    ensures LinesOf(gs + [g]) == LinesOf(gs) + [Join(g)]
  {
    assert forall k :: 0 <= k < |gs| ==> (gs + [g])[k] == gs[k];
  }

  // ---------------------------------------------------------------------
  // Facts about the greedy fill
  // ---------------------------------------------------------------------

  /** Every token of every group occurs in the concatenation of the groups. */
  lemma {:induction false} ConcatHas(gs: seq<seq<string>>, k: nat, j: nat)
    requires k < |gs| && j < |gs[k]|
    ensures gs[k][j] in Concat(gs)
  {
    if k > 0 {
      ConcatHas(gs[1..], k - 1, j);
    }
  }

  /** The fill keeps every token, in order, each group non-empty, at most one group per token. */
  lemma {:induction false} FillShape(m: Measure, size: real, maxWidth: real, line: seq<string>, rest: seq<string>)
    requires line != []
    ensures Concat(Fill(m, size, maxWidth, line, rest)) == line + rest
    ensures 1 <= |Fill(m, size, maxWidth, line, rest)| <= |rest| + 1
    ensures forall k :: 0 <= k < |Fill(m, size, maxWidth, line, rest)| ==> Fill(m, size, maxWidth, line, rest)[k] != []
    decreases |rest|
  {
    if rest != [] {
      assert rest == [rest[0]] + rest[1..];
      if m(Join(line + [rest[0]]), size) < maxWidth {
        FillShape(m, size, maxWidth, line + [rest[0]], rest[1..]);
      } else {
        var tail := Fill(m, size, maxWidth, [rest[0]], rest[1..]);
        FillShape(m, size, maxWidth, [rest[0]], rest[1..]);
        assert ([line] + tail)[1..] == tail;
      }
    }
  }

  /** A group of two or more tokens measures strictly less than the maximum width. */
  lemma {:induction false} FillWidth(m: Measure, size: real, maxWidth: real, line: seq<string>, rest: seq<string>)
    requires line != []
    requires |line| > 1 ==> m(Join(line), size) < maxWidth
    ensures forall k :: 0 <= k < |Fill(m, size, maxWidth, line, rest)| && |Fill(m, size, maxWidth, line, rest)[k]| > 1 ==>
      m(Join(Fill(m, size, maxWidth, line, rest)[k]), size) < maxWidth
    decreases |rest|
  {
    if rest != [] {
      if m(Join(line + [rest[0]]), size) < maxWidth {
        FillWidth(m, size, maxWidth, line + [rest[0]], rest[1..]);
      } else {
        FillWidth(m, size, maxWidth, [rest[0]], rest[1..]);
      }
    }
  }

  /** Each group after the first starts with a token that would not fit on the group before it. */
  ghost predicate ClosedGreedily(m: Measure, size: real, maxWidth: real, gs: seq<seq<string>>)
  {
    forall k :: 1 <= k < |gs| ==> gs[k] != [] && m(Join(gs[k - 1] + [gs[k][0]]), size) >= maxWidth
  }

  /** Every closed group is closed because its next token would not fit. */
  lemma {:induction false} FillGreedy(m: Measure, size: real, maxWidth: real, line: seq<string>, rest: seq<string>)
    requires line != []
    ensures ClosedGreedily(m, size, maxWidth, Fill(m, size, maxWidth, line, rest))
    decreases |rest|
  {
    if rest != [] {
      if m(Join(line + [rest[0]]), size) < maxWidth {
        FillGreedy(m, size, maxWidth, line + [rest[0]], rest[1..]);
      } else {
        var tail := Fill(m, size, maxWidth, [rest[0]], rest[1..]);
        FillGreedy(m, size, maxWidth, [rest[0]], rest[1..]);
        FillShape(m, size, maxWidth, [rest[0]], rest[1..]);
        assert tail[0] != [];
        assert Concat(tail) == tail[0] + Concat(tail[1..]);
        assert tail[0][0] == Concat(tail)[0] == rest[0];
        var gs := [line] + tail;
        assert forall k :: 1 <= k < |gs| ==> gs[k] == tail[k - 1];
      }
    }
  }

  /** The groups of a non-empty text, with the facts that the lemmas below share. */
  lemma GroupsFacts(m: Measure, size: real, maxWidth: real, text: string)
    ensures var gs := Groups(m, size, maxWidth, text);
      && Concat(gs) == Split(text)
      && 1 <= |gs| <= |Split(text)|
      && (forall k :: 0 <= k < |gs| ==> |gs[k]| >= 1)
      && (forall k, j :: 0 <= k < |gs| && 0 <= j < |gs[k]| ==> ' ' !in gs[k][j])
      && (forall k :: 0 <= k < |gs| ==> Split(Join(gs[k])) == gs[k])
  {
    var words := Split(text);
    var gs := Groups(m, size, maxWidth, text);
    FillShape(m, size, maxWidth, [words[0]], words[1..]);
    assert [words[0]] + words[1..] == words;
    forall k, j | 0 <= k < |gs| && 0 <= j < |gs[k]|
      ensures ' ' !in gs[k][j]
    {
      ConcatHas(gs, k, j);
    }
    forall k | 0 <= k < |gs|
      ensures Split(Join(gs[k])) == gs[k]
    {
      SplitJoin(gs[k]);
    }
  }

  /** Splitting each line of non-empty groups of space-free tokens gives the tokens back. */
  lemma {:induction false} TokensOfLines(gs: seq<seq<string>>)
    requires forall k :: 0 <= k < |gs| ==> Split(Join(gs[k])) == gs[k]
    ensures TokensOf(LinesOf(gs)) == Concat(gs)
  {
    if gs != [] {
      assert LinesOf(gs)[1..] == LinesOf(gs[1..]);
      TokensOfLines(gs[1..]);
    }
  }

  /** Joining the lines of non-empty groups is joining all their tokens. */
  lemma {:induction false} JoinLines(gs: seq<seq<string>>)
    requires gs != []
    requires forall k :: 0 <= k < |gs| ==> gs[k] != []
    ensures Join(LinesOf(gs)) == Join(Concat(gs))
  {
    var lines := LinesOf(gs);
    if |gs| == 1 {
      assert lines == [Join(gs[0])];
      assert Concat(gs) == gs[0] + Concat(gs[1..]);
      assert gs[0] + [] == gs[0];
    } else {
      var tail := gs[1..];
      JoinLines(tail);
      assert lines == [Join(gs[0])] + LinesOf(tail);
      JoinConcat([Join(gs[0])], LinesOf(tail));
      assert Join([Join(gs[0])]) == Join(gs[0]);
      assert Concat(tail) != [] by {
        assert Concat(tail) == tail[0] + Concat(tail[1..]);
      }
      JoinConcat(gs[0], Concat(tail));
    }
  }

  // ---------------------------------------------------------------------
  // Properties of wrapText
  // ---------------------------------------------------------------------

  /**
   * `wrapText` never returns an empty list, and for a truthy text it returns
   * at most as many lines as `text.split(" ")` has tokens.
   */
  lemma WrapCount(m: Measure, size: real, maxWidth: real, text: Option<string>)
    ensures |WrapLines(m, size, maxWidth, text)| >= 1
    ensures Truthy(text) ==> |WrapLines(m, size, maxWidth, text)| <= |Split(text.value)|
  {
    if Truthy(text) {
      GroupsFacts(m, size, maxWidth, text.value);
    }
  }

  /** Joining the lines with single spaces gives back exactly the original text. */
  lemma WrapRoundTrip(m: Measure, size: real, maxWidth: real, text: Option<string>)
    requires Truthy(text)
    ensures Join(WrapLines(m, size, maxWidth, text)) == text.value
  {
    var gs := Groups(m, size, maxWidth, text.value);
    GroupsFacts(m, size, maxWidth, text.value);
    JoinLines(gs);
  }

  /**
   * No token is cut or reordered: splitting every line again on single spaces
   * and concatenating the pieces gives `text.split(" ")`.
   */
  lemma WrapKeepsTokens(m: Measure, size: real, maxWidth: real, text: Option<string>)
    requires Truthy(text)
    ensures TokensOf(WrapLines(m, size, maxWidth, text)) == Split(text.value)
  {
    GroupsFacts(m, size, maxWidth, text.value);
    TokensOfLines(Groups(m, size, maxWidth, text.value));
  }

  /**
   * Width bound: a line of two or more tokens measures strictly less than
   * `maxWidth`; so a line that measures `maxWidth` or more is one token alone.
   */
  lemma WrapWidth(m: Measure, size: real, maxWidth: real, text: Option<string>)
    requires Truthy(text)
    ensures var lines := WrapLines(m, size, maxWidth, text);
      forall k :: 0 <= k < |lines| && |Split(lines[k])| > 1 ==> m(lines[k], size) < maxWidth
    ensures var lines := WrapLines(m, size, maxWidth, text);
      forall k :: 0 <= k < |lines| && m(lines[k], size) >= maxWidth ==> |Split(lines[k])| == 1
  {
    var words := Split(text.value);
    GroupsFacts(m, size, maxWidth, text.value);
    FillWidth(m, size, maxWidth, [words[0]], words[1..]);
  }

  /**
   * Greedy maximality: every line but the last, followed by a space and the
   * first token of the next line, measures at least `maxWidth`.
   */
  lemma WrapGreedy(m: Measure, size: real, maxWidth: real, text: Option<string>)
    requires Truthy(text)
    ensures var lines := WrapLines(m, size, maxWidth, text);
      forall k :: 0 <= k < |lines| - 1 ==> m(lines[k] + " " + Split(lines[k + 1])[0], size) >= maxWidth
  {
    var words := Split(text.value);
    var gs := Groups(m, size, maxWidth, text.value);
    var lines := LinesOf(gs);
    GroupsFacts(m, size, maxWidth, text.value);
    FillGreedy(m, size, maxWidth, [words[0]], words[1..]);
    forall k | 0 <= k < |lines| - 1
      ensures m(lines[k] + " " + Split(lines[k + 1])[0], size) >= maxWidth
    {
      var next := gs[k + 1];
      assert next != [] && m(Join(gs[k] + [next[0]]), size) >= maxWidth;
      assert Split(lines[k + 1]) == next;
      JoinSnoc(gs[k], next[0]);
    }
  }
}
