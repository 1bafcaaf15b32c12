/** Texts and their lines, as Python's `text.split("\n")` and `"\n".join(lines)` relate them. */
module Text {
  predicate OneLine(s: string) {
    '\n' !in s
  }

  function Split(s: string): (lines: seq<string>)
    ensures lines != [] && forall line :: line in lines ==> OneLine(line)
  {
    if s == "" then [""]
    else
      var lines := Split(s[..|s| - 1]);
      var c, last := s[|s| - 1], |lines| - 1;
      if c == '\n' then lines + [""]
      else
        assert OneLine(lines[last]);
        lines[..last] + [lines[last] + [c]]
  }

  function Join(lines: seq<string>): string {
    if lines == [] then ""
    else if |lines| == 1 then lines[0]
    else Join(lines[..|lines| - 1]) + "\n" + lines[|lines| - 1]
  }

  lemma SplitOneMore(s: string, c: char)
    requires c != '\n'
    ensures Split(s + [c]) == Split(s)[..|Split(s)| - 1] + [Split(s)[|Split(s)| - 1] + [c]]
  {
    assert (s + [c])[..|s|] == s;
  }

  // A list of lines with the last one longer.
  function Lengthened(lines: seq<string>, line: string): seq<string>
    requires lines != []
  {
    lines[..|lines| - 1] + [lines[|lines| - 1] + line]
  }

  lemma LengthenedByNothing(lines: seq<string>)
    requires lines != []
    ensures Lengthened(lines, "") == lines
  {
    assert lines[|lines| - 1] + "" == lines[|lines| - 1];
  }

  lemma LengthenedTwice(lines: seq<string>, front: string, c: char)
    requires lines != []
    ensures Lengthened(Lengthened(lines, front), [c]) == Lengthened(lines, front + [c])
  {
    assert lines[|lines| - 1] + front + [c] == lines[|lines| - 1] + (front + [c]);
  }

  lemma OneLonger(s: string, front: string, c: char)
    requires c != '\n' && Split(s + front) == Lengthened(Split(s), front)
    ensures Split(s + (front + [c])) == Lengthened(Split(s), front + [c])
  {
    assert s + (front + [c]) == (s + front) + [c];
    SplitOneMore(s + front, c);
    LengthenedTwice(Split(s), front, c);
  }

  lemma {:induction false} SplitLongerLine(s: string, line: string)
    requires OneLine(line)
    ensures Split(s + line) == Lengthened(Split(s), line)
  {
    if line == "" {
      assert s + line == s;
      LengthenedByNothing(Split(s));
    } else {
      var front, c := line[..|line| - 1], line[|line| - 1];
      SplitLongerLine(s, front);
      OneLonger(s, front, c);
      assert front + [c] == line;
    }
  }

  lemma SplitNewLine(s: string, line: string)
    requires OneLine(line)
    ensures Split(s + "\n" + line) == Split(s) + [line]
  {
    assert (s + "\n")[..|s|] == s;
    assert Split(s + "\n") == Split(s) + [""];
    SplitLongerLine(s + "\n", line);
    assert "" + line == line;
  }

  // Lines survive joining and splitting.
  lemma {:induction false} SplitOfJoin(lines: seq<string>)
    requires lines != [] && forall line :: line in lines ==> OneLine(line)
    ensures Split(Join(lines)) == lines
  {
    var front, last := lines[..|lines| - 1], lines[|lines| - 1];
    if |lines| == 1 {
      SplitLongerLine("", last);
      assert "" + last == last;
    } else {
      SplitOfJoin(front);
      SplitNewLine(Join(front), last);
      assert lines == front + [last];
    }
  }

  lemma JoinLengthened(lines: seq<string>, line: string)
    requires lines != []
    ensures Join(Lengthened(lines, line)) == Join(lines) + line
  {
    assert Lengthened(lines, line)[..|lines| - 1] == lines[..|lines| - 1];
  }

  lemma JoinNewLine(lines: seq<string>)
    requires lines != []
    ensures Join(lines + [""]) == Join(lines) + "\n"
  {
    assert (lines + [""])[..|lines|] == lines;
  }

  // A text survives splitting and joining.
  lemma {:induction false} JoinOfSplit(s: string)
    ensures Join(Split(s)) == s
  {
    if s != "" {
      var front, c := s[..|s| - 1], s[|s| - 1];
      JoinOfSplit(front);
      assert s == front + [c];
      if c == '\n' {
        JoinNewLine(Split(front));
      } else {
        SplitOneMore(front, c);
        JoinLengthened(Split(front), [c]);
      }
    }
  }

  lemma {:induction false} JoinOfConcat(a: seq<string>, b: seq<string>)
    requires a != [] && b != []
    ensures Join(a + b) == Join(a) + "\n" + Join(b)
  {
    var front := b[..|b| - 1];
    if |b| == 1 {
      assert (a + b)[..|a + b| - 1] == a;
    } else {
      JoinOfConcat(a, front);
      assert (a + b)[..|a + b| - 1] == a + front;
      Associates(Join(a), Join(front), b[|b| - 1]);
    }
  }

  lemma Associates(a: string, b: string, c: string)
    ensures a + "\n" + b + "\n" + c == a + "\n" + (b + "\n" + c)
  {
  }

  // A line break separates the lines of two texts.
  lemma SplitOfTwo(a: string, b: string)
    ensures Split(a + "\n" + b) == Split(a) + Split(b)
  {
    JoinOfSplit(a);
    JoinOfSplit(b);
    JoinOfConcat(Split(a), Split(b));
    SplitOfJoin(Split(a) + Split(b));
  }

  lemma {:induction false} SplitOneLine(s: string)
    requires OneLine(s)
    ensures Split(s) == [s]
  {
    SplitOfJoin([s]);
  }
}
