/** Newline-terminated text, the shape of everything the facade and its
    subsystems report: each reply is one line ending in '\n', and the facade's
    report is a sequence of such lines glued together. */
module Text {

  /** No character of `s` is a newline. */
  predicate NoNewline(s: string) {
    forall j :: 0 <= j < |s| ==> s[j] != '\n'
  }

  /** Membership and the index-wise statement agree. */
  lemma NoNewlineOfNotIn(s: string)
    requires '\n' !in s
    ensures NoNewline(s)
  {
  }

  /** A single line as the subsystems return it: its only newline is its last character. */
  predicate IsLine(s: string) {
    |s| > 0 && s[|s| - 1] == '\n' && NoNewline(s[..|s| - 1])
  }

  /** Empty, or ending in a newline: text made of whole lines. */
  predicate IsWholeLines(s: string) {
    |s| == 0 || s[|s| - 1] == '\n'
  }

  /** The position of the first newline of `s`, or |s| when there is none. */
  function LineEnd(s: string): (i: nat)
    ensures i <= |s|
    ensures i < |s| ==> s[i] == '\n'
  {
    if |s| == 0 then 0
    else if s[0] == '\n' then 0
    else 1 + LineEnd(s[1..])
  }

  /** No newline comes before LineEnd: it finds the first one. */
  lemma {:induction false} LineEndIsFirst(s: string)
    ensures NoNewline(s[..LineEnd(s)])
  {
    if s != [] && s[0] != '\n' {
      LineEndIsFirst(s[1..]);
      assert s[..LineEnd(s)] == [s[0]] + s[1..][..LineEnd(s[1..])];
    }
  }

  /** Splits `s` into its lines, the newlines dropped; a trailing piece
      without a newline is a last line of its own. */
  function Lines(s: string): seq<string>
    decreases |s|
  {
    if |s| == 0 then []
    else
      var i := LineEnd(s);
      if i == |s| then [s] else [s[..i]] + Lines(s[i + 1..])
  }

  /** Glues lines back together, each followed by a newline, in order. */
  function Unlines(lines: seq<string>): string {
    if |lines| == 0 then ""
    else Unlines(lines[..|lines| - 1]) + lines[|lines| - 1] + "\n"
  }

  /** The first newline is the only position that ends a newline-free prefix. */
  lemma LineEndUnique(s: string, i: nat)
    requires i < |s| && s[i] == '\n' && NoNewline(s[..i])
    ensures LineEnd(s) == i
  {
    LineEndIsFirst(s);
  }

  /** One step of Lines at a newline, named: the text before it, then the rest. */
  lemma LinesSplitAt(s: string, i: nat)
    requires i < |s| && LineEnd(s) == i
    ensures Lines(s) == [s[..i]] + Lines(s[i + 1..])
  {
  }

  /** Whole lines that are not empty have a first line that ends inside
      them, and appending text after them does not move that line's end. */
  lemma FirstLineOfWholeLines(a: string, b: string)
    requires IsWholeLines(a) && a != []
    ensures LineEnd(a) < |a|
    ensures LineEnd(a + b) == LineEnd(a)
    ensures (a + b)[..LineEnd(a)] == a[..LineEnd(a)]
    ensures (a + b)[LineEnd(a) + 1..] == a[LineEnd(a) + 1..] + b
    ensures IsWholeLines(a[LineEnd(a) + 1..])
  {
    var i := LineEnd(a);
    LineEndIsFirst(a);
    var rest := a[i + 1..];
    assert (a + b)[..i] == a[..i];
    LineEndUnique(a + b, i);
    if rest != [] { assert rest[|rest| - 1] == a[|a| - 1]; }
  }

  /** Splitting distributes over a boundary that falls at the end of a line. */
  lemma {:induction false} LinesAppend(a: string, b: string)
    requires IsWholeLines(a)
    ensures Lines(a + b) == Lines(a) + Lines(b)
    decreases |a|
  {
    if |a| == 0 {
      assert a + b == b;
    } else {
      var i := LineEnd(a);
      assert i < |a| && IsWholeLines(a[i + 1..]) by { FirstLineOfWholeLines(a, b); }
      var x, rest := a[..i], a[i + 1..];
      assert Lines(a + b) == [x] + Lines(rest + b) by {
        FirstLineOfWholeLines(a, b);
        LinesSplitAt(a + b, i);
      }
      assert Lines(a) == [x] + Lines(rest) by { LinesSplitAt(a, i); }
      LinesAppend(rest, b);
    }
  }

  /** A single line splits into exactly itself, without its newline. */
  lemma LinesOfOneLine(line: string)
    requires NoNewline(line)
    ensures Lines(line + "\n") == [line]
  {
    var s := line + "\n";
    assert s[..|line|] == line;
    LineEndUnique(s, |line|);
    assert s[|line| + 1..] == [];
  }

  /** Glueing one more line appends exactly that line and its newline. */
  lemma UnlinesStep(lines: seq<string>, k: nat)
    requires k < |lines|
    ensures Unlines(lines[..k + 1]) == Unlines(lines[..k]) + lines[k] + "\n"
  {
    assert lines[..k + 1][..k] == lines[..k];
  }

  /** The round trip: splitting what Unlines glued together gives the lines back,
      provided no line carries a newline of its own. */
  lemma {:induction false} LinesOfUnlines(lines: seq<string>)
    requires forall k :: 0 <= k < |lines| ==> NoNewline(lines[k])
    ensures Lines(Unlines(lines)) == lines
  {
    if lines != [] {
      var init, last := lines[..|lines| - 1], lines[|lines| - 1];
      LinesOfUnlines(init);
      assert Unlines(lines) == Unlines(init) + (last + "\n");
      LinesAppend(Unlines(init), last + "\n");
      LinesOfOneLine(last);
      assert init + [last] == lines;
    }
  }

  /** Glueing the first k lines gives a prefix of glueing all of them: the text
      only ever grows at its end as lines are appended. */
  lemma {:induction false} UnlinesPrefix(lines: seq<string>, k: nat)
    requires k <= |lines|
    ensures Unlines(lines[..k]) <= Unlines(lines)
    decreases |lines|
  {
    if k < |lines| {
      var init := lines[..|lines| - 1];
      assert lines[..k] == init[..k];
      UnlinesPrefix(init, k);
    } else {
      assert lines[..k] == lines;
    }
  }
}
