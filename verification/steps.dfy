/** How the routine form turns its free-text box into the list of steps it
    sends: split on line feeds, trim each line, drop the empty ones
    (`stepsText.split('\n').map(s => s.trim()).filter(Boolean)`). */
module Steps {
  import opened Text

  const LineFeed: char := '\n'

  /** `lines.map(s => s.trim())`. */
  function TrimEach(lines: seq<string>): (r: seq<string>)
    ensures |r| == |lines|
    ensures forall i :: 0 <= i < |r| ==> r[i] == Trim(lines[i])
  {
    if lines == [] then [] else [Trim(lines[0])] + TrimEach(lines[1..])
  }

  /** `xs.filter(Boolean)` on strings: keeps the non-empty ones, in order. */
  function DropEmpty(xs: seq<string>): (r: seq<string>)
    ensures |r| <= |xs|
    ensures forall i :: 0 <= i < |r| ==> r[i] != [] && r[i] in xs
  {
    if xs == [] then []
    else if xs[0] == [] then DropEmpty(xs[1..])
    else [xs[0]] + DropEmpty(xs[1..])
  }

  /** On a single string the filter keeps it exactly when it is non-empty;
      with `DropEmptyAppend` this determines the filter on every list. */
  lemma DropEmptyOfOne(x: string)
    ensures DropEmpty([x]) == if x == [] then [] else [x]
  {
  }

  /** Every non-empty string of the list survives the filter, and nothing
      else does. */
  lemma {:induction false} DropEmptyKeeps(xs: seq<string>, x: string)
    ensures x in DropEmpty(xs) <==> x in xs && x != []
  {
    if xs != [] {
      DropEmptyKeeps(xs[1..], x);
      assert xs == [xs[0]] + xs[1..];
    }
  }

  /** A well-formed step: non-empty, no whitespace at either end, and on one
      line. */
  predicate IsStep(s: string) {
    s != [] && IsTrimmed(s) && LineFeed !in s
  }

  /** The steps derived from the text box. There is at most one step per
      line of the text and every step is well formed. */
  function DeriveSteps(text: string): (steps: seq<string>)
    ensures |steps| <= Occurrences(text, LineFeed) + 1
    ensures forall i :: 0 <= i < |steps| ==> IsStep(steps[i])
  {
    var lines := Split(text, LineFeed);
    var trimmed := TrimEach(lines);
    assert forall t :: t in trimmed ==> IsTrimmed(t) && LineFeed !in t by {
      forall i | 0 <= i < |trimmed|
        ensures IsTrimmed(trimmed[i]) && LineFeed !in trimmed[i]
      {
        TrimKeepsAbsent(lines[i], LineFeed);
      }
    }
    DropEmpty(trimmed)
  }

  lemma TrimEachAppend(a: seq<string>, b: seq<string>)
    ensures TrimEach(a + b) == TrimEach(a) + TrimEach(b)
  {
  }

  lemma {:induction false} DropEmptyAppend(a: seq<string>, b: seq<string>)
    ensures DropEmpty(a + b) == DropEmpty(a) + DropEmpty(b)
  {
    if a != [] {
      assert (a + b)[0] == a[0];
      assert (a + b)[1..] == a[1..] + b;
      DropEmptyAppend(a[1..], b);
      if a[0] != [] {
        assert [a[0]] + (DropEmpty(a[1..]) + DropEmpty(b)) == [a[0]] + DropEmpty(a[1..]) + DropEmpty(b);
      }
    } else {
      assert a + b == b;
    }
  }

  /** Steps keep the order of their lines: the steps of two blocks of text
      separated by a line feed are the steps of the first block followed by
      the steps of the second. */
  lemma DeriveStepsAcrossLines(a: string, b: string)
    ensures DeriveSteps(a + [LineFeed] + b) == DeriveSteps(a) + DeriveSteps(b)
  {
    SplitAround(a, b, LineFeed);
    TrimEachAppend(Split(a, LineFeed), Split(b, LineFeed));
    DropEmptyAppend(TrimEach(Split(a, LineFeed)), TrimEach(Split(b, LineFeed)));
  }

  /** A single line gives its trimmed text as the one step, or no step when
      it is blank. Together with DeriveStepsAcrossLines this determines the
      steps of any text. */
  lemma DeriveStepsOfLine(line: string)
    requires LineFeed !in line
    ensures DeriveSteps(line) == if IsBlank(line) then [] else [Trim(line)]
  {
    SplitWithoutSeparator(line, LineFeed);
    assert TrimEach([line]) == [Trim(line)];
  }

  /** Well-formed steps survive trimming and the empty-line filter. */
  lemma {:induction false} StepsAreFixed(steps: seq<string>)
    requires forall i :: 0 <= i < |steps| ==> IsStep(steps[i])
    ensures DropEmpty(TrimEach(steps)) == steps
  {
    if steps != [] {
      TrimFixesTrimmed(steps[0]);
      StepsAreFixed(steps[1..]);
      assert [steps[0]] + steps[1..] == steps;
    }
  }

  /** Writing well-formed steps back one per line and deriving again gives
      the same steps. */
  lemma DeriveStepsOfJoined(steps: seq<string>)
    requires forall i :: 0 <= i < |steps| ==> IsStep(steps[i])
    ensures DeriveSteps(Join(steps, [LineFeed])) == steps
  {
    if steps == [] {
      assert Split([], LineFeed) == [[]];
      assert TrimEach([[]]) == [[]];
    } else {
      SplitJoin(steps, LineFeed);
      StepsAreFixed(steps);
    }
  }

  /** Step derivation is idempotent. */
  lemma DeriveStepsIdempotent(text: string)
    ensures DeriveSteps(Join(DeriveSteps(text), [LineFeed])) == DeriveSteps(text)
  {
    DeriveStepsOfJoined(DeriveSteps(text));
  }

  /** The steps of text written as separate lines are the trimmed
      non-blank lines. */
  lemma DeriveStepsOfLines(lines: seq<string>)
    requires lines != []
    requires forall i :: 0 <= i < |lines| ==> LineFeed !in lines[i]
    ensures DeriveSteps(Join(lines, [LineFeed])) == DropEmpty(TrimEach(lines))
  {
    SplitJoin(lines, LineFeed);
  }
}
