/** Lines and substrings. */
module Text {

  predicate At(s: string, part: string, i: nat) {
    i + |part| <= |s| && s[i..i + |part|] == part
  }

  predicate Contains(s: string, part: string) {
    exists i :: 0 <= i <= |s| && At(s, part, i)
  }

  function Split(s: string): (lines: seq<string>)
    ensures |lines| > 0
  {
    if s == "" then [""]
    else
      var rest := Split(s[1..]);
      if s[0] == '\n' then [""] + rest else [[s[0]] + rest[0]] + rest[1..]
  }

  function Join(lines: seq<string>): string
    requires |lines| > 0
  {
    if |lines| == 1 then lines[0] else lines[0] + "\n" + Join(lines[1..])
  }

  lemma PushFront(c: char, s: string, after: string)
    ensures ([c] + s) + "\n" + after == [c] + (s + "\n" + after)
  {
    assert ([c] + s) + "\n" == [c] + (s + "\n");
  }

  lemma JoinPush(c: char, lines: seq<string>)
    requires |lines| > 0
    ensures Join([[c] + lines[0]] + lines[1..]) == [c] + Join(lines)
  {
    var pushed := [[c] + lines[0]] + lines[1..];
    assert pushed[1..] == lines[1..];
    if |lines| > 1 { PushFront(c, lines[0], Join(lines[1..])); }
  }

  lemma {:induction false} JoinSplit(s: string)
    ensures Join(Split(s)) == s
  {
    if s != "" {
      JoinSplit(s[1..]);
      assert s == [s[0]] + s[1..];
      var rest := Split(s[1..]);
      if s[0] == '\n' {
        assert ([""] + rest)[1..] == rest;
        assert Join([""] + rest) == "" + "\n" + Join(rest);
      } else {
        JoinPush(s[0], rest);
      }
    }
  }

  lemma {:induction false} SplitAtNewline(a: string, b: string)
    ensures Split(a + "\n" + b) == Split(a) + Split(b)
  {
    if a == "" {
      assert a + "\n" + b == "\n" + b;
      assert ("\n" + b)[1..] == b;
    } else {
      assert (a + "\n" + b)[1..] == a[1..] + "\n" + b;
      SplitAtNewline(a[1..], b);
    }
  }

  lemma {:induction false} SplitPlain(a: string)
    requires '\n' !in a
    ensures Split(a) == [a]
  {
    if a != "" {
      SplitPlain(a[1..]);
      assert a == [a[0]] + a[1..];
    }
  }

  lemma {:induction false} SplitJoin(lines: seq<string>)
    requires |lines| > 0 && forall i :: 0 <= i < |lines| ==> '\n' !in lines[i]
    ensures Split(Join(lines)) == lines
  {
    SplitPlain(lines[0]);
    if |lines| > 1 {
      SplitJoin(lines[1..]);
      SplitAtNewline(lines[0], Join(lines[1..]));
      assert lines == [lines[0]] + lines[1..];
    }
  }

  lemma {:induction false} SplitLinesAreWhole(s: string)
    ensures forall i :: 0 <= i < |Split(s)| ==> '\n' !in Split(s)[i]
  {
    if s != "" {
      SplitLinesAreWhole(s[1..]);
      var rest := Split(s[1..]);
      assert Split(s) == if s[0] == '\n' then [""] + rest else [[s[0]] + rest[0]] + rest[1..];
    }
  }

  lemma {:induction false} JoinConcat(a: seq<string>, b: seq<string>)
    requires |a| > 0 && |b| > 0
    ensures Join(a + b) == Join(a) + "\n" + Join(b)
  {
    if |a| == 1 {
      assert (a + b)[1..] == b;
    } else {
      assert (a + b)[1..] == a[1..] + b;
      JoinConcat(a[1..], b);
      assert (a[0] + "\n" + Join(a[1..])) + "\n" + Join(b) == a[0] + "\n" + (Join(a[1..]) + "\n" + Join(b));
    }
  }

  function Last(lines: seq<string>): string
    requires |lines| > 0
  {
    lines[|lines| - 1]
  }

  function Front(lines: seq<string>): seq<string>
    requires |lines| > 0
  {
    lines[..|lines| - 1]
  }

  lemma AroundLast(lines: seq<string>)
    requires |lines| > 0
    ensures lines == Front(lines) + [Last(lines)] + []
  {
  }

  lemma AroundFirst(lines: seq<string>)
    requires |lines| > 0
    ensures lines == [] + [lines[0]] + lines[1..]
  {
  }

  /** A cut falls in one line: its two parts are the last line of what is before and the first of what is after. */
  lemma {:induction false} SplitAcross(a: string, b: string)
    ensures Split(a + b) == Front(Split(a)) + [Last(Split(a)) + Split(b)[0]] + Split(b)[1..]
  {
    if a == "" {
      assert a + b == b && "" + Split(b)[0] == Split(b)[0];
      assert Split(b) == [Split(b)[0]] + Split(b)[1..];
    } else {
      assert (a + b)[1..] == a[1..] + b && (a + b)[0] == a[0];
      SplitAcross(a[1..], b);
      PushAcross(a[0], Split(a[1..]), Split(b));
    }
  }

  function Push(c: char, lines: seq<string>): seq<string>
    requires |lines| > 0
  {
    if c == '\n' then [""] + lines else [[c] + lines[0]] + lines[1..]
  }

  lemma PushAcross(c: char, x: seq<string>, y: seq<string>)
    requires |x| > 0 && |y| > 0
    ensures var across := Front(x) + [Last(x) + y[0]] + y[1..];
            Push(c, across) == Front(Push(c, x)) + [Last(Push(c, x)) + y[0]] + y[1..]
  {
    if c != '\n' && |x| == 1 {
      assert ([c] + x[0]) + y[0] == [c] + (x[0] + y[0]);
    }
  }

  /** The text of lines that another line follows, and of lines that follow one. */
  function Opening(lines: seq<string>): string {
    if lines == [] then "" else lines[0] + "\n" + Opening(lines[1..])
  }

  function Closing(lines: seq<string>): string {
    if lines == [] then "" else "\n" + Join(lines)
  }

  lemma Prepend(line: string, opening: string, middle: string, closing: string)
    ensures line + (opening + middle + closing) == (line + opening) + middle + closing
  {
  }

  lemma {:induction false} JoinAround(before: seq<string>, middle: string, after: seq<string>)
    ensures Join(before + [middle] + after) == Opening(before) + middle + Closing(after)
  {
    var all := before + [middle] + after;
    if before == [] {
      assert all == [middle] + after && all[1..] == after;
    } else {
      JoinAround(before[1..], middle, after);
      assert all[0] == before[0] && all[1..] == before[1..] + [middle] + after;
      assert Join(all) == (before[0] + "\n") + Join(all[1..]);
      Prepend(before[0] + "\n", Opening(before[1..]), middle, Closing(after));
    }
  }

  lemma ContainsInside(before: string, s: string, after: string, part: string)
    requires Contains(s, part)
    ensures Contains(before + s + after, part)
  {
    var i :| 0 <= i <= |s| && At(s, part, i);
    var j, whole := |before| + i, before + s + after;
    assert whole[j..j + |part|] == s[i..i + |part|];
    assert At(whole, part, j);
  }

  lemma PieceLacks(before: string, s: string, after: string, part: string)
    requires !Contains(before + s + after, part)
    ensures !Contains(s, part)
  {
    if Contains(s, part) { ContainsInside(before, s, after, part); }
  }

  lemma FrontContains(part: string, after: string)
    ensures Contains(part + after, part)
  {
    assert (part + after)[0..|part|] == part;
    assert At(part + after, part, 0);
  }

  lemma BackContains(before: string, s: string, part: string)
    requires Contains(s, part)
    ensures Contains(before + s, part)
  {
    ContainsInside(before, s, "", part);
    assert before + s + "" == before + s;
  }

  /** Each line is a piece of the text. */
  lemma {:induction false} LineIsInside(lines: seq<string>, i: nat, part: string)
    requires i < |lines| && Contains(lines[i], part)
    ensures Contains(Join(lines), part)
  {
    if |lines| == 1 {
      assert "" + lines[0] + "" == lines[0];
    } else if i == 0 {
      ContainsInside("", lines[0], "\n" + Join(lines[1..]), part);
      assert "" + lines[0] + ("\n" + Join(lines[1..])) == Join(lines);
    } else {
      LineIsInside(lines[1..], i - 1, part);
      ContainsInside(lines[0] + "\n", Join(lines[1..]), "", part);
      assert lines[0] + "\n" + Join(lines[1..]) + "" == Join(lines);
    }
  }
}
