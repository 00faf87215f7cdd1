/**
 The alias rewriter: every line, or the payload of every `data: ` line, that
 mentions "model" and parses as JSON gets its top-level model replaced.
 The JSON codec is a parameter with the laws the rewriter relies on.
 */
module Rewriter {
  import opened Outcomes
  import opened Text

  const MODEL := "\"model\""
  const KEY := "model"
  const DATA := "data: "

  /** A JSON library: parsing, printing, reading a top-level field and replacing the top-level model. */
  datatype Codec<!J> = Codec(parse: string -> Option<J>, render: J -> string,
                             field: (J, string) -> Option<J>, text: string -> J, setModel: (J, string) -> J)

  /** What is printed reads back, stays on one line and is no `data: ` line. */
  ghost predicate PrintsWell<J(!new)>(c: Codec<J>) {
    && (forall v :: c.parse(c.render(v)) == Some(v))
    && (forall v :: '\n' !in c.render(v) && '\r' !in c.render(v) && !(DATA <= c.render(v)))
    && (forall v :: c.field(v, KEY).Some? ==> Contains(c.render(v), MODEL))
  }

  /** Setting the model changes the top-level model, where there is one, and nothing else. */
  ghost predicate SetsWell<J(!new)>(c: Codec<J>) {
    && (forall v, a :: c.field(v, KEY).None? ==> c.setModel(v, a) == v)
    && (forall v, a :: c.field(v, KEY).Some? ==> c.field(c.setModel(v, a), KEY) == Some(c.text(a)))
    && (forall v, a, k :: k != KEY ==> c.field(c.setModel(v, a), k) == c.field(v, k))
    && (forall v, a, b :: c.setModel(c.setModel(v, a), b) == c.setModel(v, b))
  }

  ghost predicate Lawful<J(!new)>(c: Codec<J>) {
    PrintsWell(c) && SetsWell(c)
  }

  function Payload<J>(c: Codec<J>, data: string, alias: string): string {
    if !Contains(data, MODEL) then data
    else
      match c.parse(data)
      case Some(v) => c.render(c.setModel(v, alias))
      case None => data
  }

  function Clean<J>(c: Codec<J>, line: string, alias: string): string {
    if DATA <= line then DATA + Payload(c, line[|DATA|..], alias) else Payload(c, line, alias)
  }

  predicate EndsInCr(s: string) {
    |s| > 0 && s[|s| - 1] == '\r'
  }

  function Line<J>(c: Codec<J>, line: string, alias: string): string {
    if EndsInCr(line) then Clean(c, line[..|line| - 1], alias) + "\r" else Clean(c, line, alias)
  }

  function Lines<J>(c: Codec<J>, lines: seq<string>, alias: string): seq<string> {
    seq(|lines|, i requires 0 <= i < |lines| => Line(c, lines[i], alias))
  }

  function Rewrite<J>(c: Codec<J>, body: string, alias: string): string {
    if !Contains(body, MODEL) then body else Join(Lines(c, Split(body), alias))
  }

  /** One line as the rewriter treats it. */
  method RewriteLine<J>(c: Codec<J>, part: string, alias: string) returns (processed: string)
    ensures processed == Line(c, part, alias)
  {
    var hasCr := |part| > 0 && part[|part| - 1] == '\r';
    var clean := if hasCr then part[..|part| - 1] else part;
    processed := clean;
    if DATA <= clean {
      var sse := clean[|DATA|..];
      assert clean == DATA + sse;
      if Contains(sse, MODEL) {
        var value := c.parse(sse);
        if value.Some? {
          processed := DATA + c.render(c.setModel(value.value, alias));
        }
      }
    } else if Contains(clean, MODEL) {
      var value := c.parse(clean);
      if value.Some? {
        processed := c.render(c.setModel(value.value, alias));
      }
    }
    assert processed == Clean(c, clean, alias);
    if hasCr {
      processed := processed + "\r";
    }
  }

  /** The rewriter as it runs: line by line into a list of parts. */
  method RewriteModelAlias<J>(c: Codec<J>, body: string, alias: string) returns (rewritten: string)
    ensures rewritten == Rewrite(c, body, alias)
  {
    if !Contains(body, MODEL) {
      return body;
    }
    var lines := Split(body);
    var parts: seq<string> := [];
    var i := 0;
    while i < |lines|
      invariant 0 <= i <= |lines| && |parts| == i
      invariant forall k :: 0 <= k < i ==> parts[k] == Line(c, lines[k], alias)
    {
      var processed := RewriteLine(c, lines[i], alias);
      parts := parts + [processed];
      i := i + 1;
    }
    assert parts == Lines(c, lines, alias);
    rewritten := Join(parts);
  }

  // The per-body early return changes nothing.

  lemma LineWithoutModel<J>(c: Codec<J>, line: string, alias: string)
    requires !Contains(line, MODEL)
    ensures Line(c, line, alias) == line
  {
    var clean := if EndsInCr(line) then line[..|line| - 1] else line;
    var tail := if EndsInCr(line) then "\r" else "";
    assert "" + clean + tail == line;
    PieceLacks("", clean, tail, MODEL);
    if DATA <= clean {
      assert DATA + clean[|DATA|..] + "" == clean;
      PieceLacks(DATA, clean[|DATA|..], "", MODEL);
    }
  }

  /** Rewriting is line by line on every body, whether or not it mentions the model. */
  lemma RewriteIsLinewise<J>(c: Codec<J>, body: string, alias: string)
    ensures Rewrite(c, body, alias) == Join(Lines(c, Split(body), alias))
  {
    if !Contains(body, MODEL) {
      var lines := Split(body);
      JoinSplit(body);
      forall i | 0 <= i < |lines|
        ensures Line(c, lines[i], alias) == lines[i]
      {
        if Contains(lines[i], MODEL) { LineIsInside(lines, i, MODEL); }
        LineWithoutModel(c, lines[i], alias);
      }
      assert Lines(c, lines, alias) == lines;
    }
  }

  // Chunks.

  function Concat(chunks: seq<string>): string {
    if chunks == [] then "" else chunks[0] + Concat(chunks[1..])
  }

  /** What a streamed response sends: each chunk rewritten on its own. */
  function Stream<J>(c: Codec<J>, chunks: seq<string>, alias: string): string {
    if chunks == [] then "" else Rewrite(c, chunks[0], alias) + Stream(c, chunks[1..], alias)
  }

  /** Every chunk but the last ends where a line ends. */
  predicate LineAligned(chunks: seq<string>) {
    forall i :: 0 <= i < |chunks| - 1 ==> chunks[i] == "" || chunks[i][|chunks[i]| - 1] == '\n'
  }

  lemma LinesConcat<J>(c: Codec<J>, a: seq<string>, b: seq<string>, alias: string)
    ensures Lines(c, a + b, alias) == Lines(c, a, alias) + Lines(c, b, alias)
  {
  }

  lemma RewriteEmpty<J>(c: Codec<J>, alias: string)
    ensures Rewrite(c, "", alias) == ""
  {
  }

  lemma RewriteAtNewline<J>(c: Codec<J>, a: string, b: string, alias: string)
    ensures Rewrite(c, a + "\n" + b, alias) == Rewrite(c, a, alias) + "\n" + Rewrite(c, b, alias)
  {
    RewriteIsLinewise(c, a, alias);
    RewriteIsLinewise(c, b, alias);
    RewriteIsLinewise(c, a + "\n" + b, alias);
    SplitAtNewline(a, b);
    LinesConcat(c, Split(a), Split(b), alias);
    JoinConcat(Lines(c, Split(a), alias), Lines(c, Split(b), alias));
  }

  /** Rewriting chunk by chunk is rewriting the whole body, wherever between lines it is cut. */
  lemma {:induction false} ChunkwiseIsWhole<J>(c: Codec<J>, chunks: seq<string>, alias: string)
    requires LineAligned(chunks)
    ensures Stream(c, chunks, alias) == Rewrite(c, Concat(chunks), alias)
  {
    if chunks == [] {
      RewriteEmpty(c, alias);
    } else {
      var first, rest := chunks[0], chunks[1..];
      assert LineAligned(rest) by {
        forall i | 0 <= i < |rest| - 1
          ensures rest[i] == "" || rest[i][|rest[i]| - 1] == '\n'
        {
          assert rest[i] == chunks[i + 1];
        }
      }
      ChunkwiseIsWhole(c, rest, alias);
      if rest == [] {
        assert first + Concat(rest) == first;
        assert Rewrite(c, first, alias) + Stream(c, rest, alias) == Rewrite(c, first, alias);
      } else if first == "" {
        RewriteEmpty(c, alias);
        assert first + Concat(rest) == Concat(rest);
        assert "" + Stream(c, rest, alias) == Stream(c, rest, alias);
      } else {
        var a := first[..|first| - 1];
        assert first == a + "\n" + "";
        assert first + Concat(rest) == a + "\n" + Concat(rest);
        RewriteAtNewline(c, a, "", alias);
        RewriteAtNewline(c, a, Concat(rest), alias);
        RewriteEmpty(c, alias);
        assert Rewrite(c, a, alias) + "\n" + "" == Rewrite(c, a, alias) + "\n";
      }
    }
  }

  // A cut anywhere.

  lemma LinesAround<J>(c: Codec<J>, before: seq<string>, middle: string, after: seq<string>, alias: string)
    ensures Lines(c, before + [middle] + after, alias)
            == Lines(c, before, alias) + [Line(c, middle, alias)] + Lines(c, after, alias)
  {
  }

  lemma SameAround(before: string, m: string, n: string, after: string)
    ensures before + m + after == before + n + after <==> m == n
  {
    if before + m + after == before + n + after {
      var x, y := before + m + after, before + n + after;
      assert x[|before|..|x| - |after|] == m && y[|before|..|y| - |after|] == n;
    }
  }

  lemma SeamText(opening: string, l: string, r: string, m: string, closing: string)
    ensures (opening + l + "") + ("" + r + closing) == opening + m + closing <==> l + r == m
  {
    assert (opening + l + "") + ("" + r + closing) == opening + (l + r) + closing;
    SameAround(opening, l + r, m, closing);
  }

  /** The rewriting of a text around one of its lines. */
  lemma RewriteAround<J>(c: Codec<J>, text: string, before: seq<string>, middle: string, after: seq<string>,
                         alias: string)
    requires Split(text) == before + [middle] + after
    ensures Rewrite(c, text, alias)
            == Opening(Lines(c, before, alias)) + Line(c, middle, alias) + Closing(Lines(c, after, alias))
  {
    RewriteIsLinewise(c, text, alias);
    LinesAround(c, before, middle, after, alias);
    JoinAround(Lines(c, before, alias), Line(c, middle, alias), Lines(c, after, alias));
  }

  /** A body cut in two anywhere is rewritten piecewise as it is whole exactly when the line with the cut is. */
  lemma SeamDecides<J>(c: Codec<J>, a: string, b: string, alias: string)
    ensures var left, right := Last(Split(a)), Split(b)[0];
            Rewrite(c, a, alias) + Rewrite(c, b, alias) == Rewrite(c, a + b, alias)
            <==> Line(c, left, alias) + Line(c, right, alias) == Line(c, left + right, alias)
  {
    var before, left := Front(Split(a)), Last(Split(a));
    var right, after := Split(b)[0], Split(b)[1..];
    var l, r := Line(c, left, alias), Line(c, right, alias);
    var opening, closing := Opening(Lines(c, before, alias)), Closing(Lines(c, after, alias));
    SplitAcross(a, b);
    AroundLast(Split(a));
    AroundFirst(Split(b));
    RewriteAround(c, a, before, left, [], alias);
    RewriteAround(c, b, [], right, after, alias);
    RewriteAround(c, a + b, before, left + right, after, alias);
    SeamText(opening, l, r, Line(c, left + right, alias), closing);
  }

  // Rewriting again.

  lemma PayloadAbsorbs<J(!new)>(c: Codec<J>, data: string, a: string, b: string)
    requires Lawful(c)
    ensures Payload(c, Payload(c, data, a), b) == Payload(c, data, b)
  {
    if Contains(data, MODEL) && c.parse(data).Some? {
      var v := c.parse(data).value;
      var once := c.setModel(v, a);
      assert c.parse(c.render(once)) == Some(once);
      if !Contains(c.render(once), MODEL) {
        assert c.field(once, KEY).None? && c.field(v, KEY).None?;
      }
    }
  }

  /** The rewritten payload is the old one or something the codec printed. */
  lemma PayloadIsPlain<J(!new)>(c: Codec<J>, data: string, alias: string)
    requires Lawful(c)
    ensures var r := Payload(c, data, alias);
            r == data || ('\n' !in r && '\r' !in r && !(DATA <= r))
  {
  }

  lemma CleanAbsorbs<J(!new)>(c: Codec<J>, line: string, a: string, b: string)
    requires Lawful(c)
    ensures Clean(c, Clean(c, line, a), b) == Clean(c, line, b)
    ensures DATA <= line <==> DATA <= Clean(c, line, a)
    ensures !EndsInCr(line) ==> !EndsInCr(Clean(c, line, a))
    ensures '\n' !in line ==> '\n' !in Clean(c, line, a)
  {
    if DATA <= line {
      var data := line[|DATA|..];
      assert line == DATA + data;
      PayloadAbsorbs(c, data, a, b);
      PayloadIsPlain(c, data, a);
      assert (DATA + Payload(c, data, a))[|DATA|..] == Payload(c, data, a);
    } else {
      PayloadAbsorbs(c, line, a, b);
      PayloadIsPlain(c, line, a);
    }
  }

  lemma LineWithCr<J>(c: Codec<J>, clean: string, alias: string)
    ensures Line(c, clean + "\r", alias) == Clean(c, clean, alias) + "\r"
  {
    assert (clean + "\r")[..|clean + "\r"| - 1] == clean;
  }

  lemma LineAbsorbs<J(!new)>(c: Codec<J>, line: string, a: string, b: string)
    requires Lawful(c)
    ensures Line(c, Line(c, line, a), b) == Line(c, line, b)
    ensures EndsInCr(line) <==> EndsInCr(Line(c, line, a))
    ensures '\n' !in line ==> '\n' !in Line(c, line, a)
  {
    if EndsInCr(line) {
      var clean := line[..|line| - 1];
      CleanAbsorbs(c, clean, a, b);
      assert line == clean + "\r";
      LineWithCr(c, clean, a);
      LineWithCr(c, clean, b);
      LineWithCr(c, Clean(c, clean, a), b);
    } else {
      CleanAbsorbs(c, line, a, b);
    }
  }

  /** The lines of the rewritten body are the rewritten lines of the body. */
  lemma LinesOfRewrite<J(!new)>(c: Codec<J>, body: string, alias: string)
    requires Lawful(c)
    ensures Split(Rewrite(c, body, alias)) == Lines(c, Split(body), alias)
  {
    RewriteIsLinewise(c, body, alias);
    SplitLinesAreWhole(body);
    var lines := Lines(c, Split(body), alias);
    forall i | 0 <= i < |lines|
      ensures '\n' !in lines[i]
    {
      LineAbsorbs(c, Split(body)[i], alias, alias);
    }
    SplitJoin(lines);
  }

  /** Rewriting to one alias and then to another is rewriting to the second; in particular rewriting is idempotent. */
  lemma RewriteAbsorbs<J(!new)>(c: Codec<J>, body: string, a: string, b: string)
    requires Lawful(c)
    ensures Rewrite(c, Rewrite(c, body, a), b) == Rewrite(c, body, b)
  {
    LinesOfRewrite(c, body, a);
    RewriteIsLinewise(c, Rewrite(c, body, a), b);
    RewriteIsLinewise(c, body, b);
    var lines := Split(body);
    forall i | 0 <= i < |lines|
      ensures Lines(c, Lines(c, lines, a), b)[i] == Lines(c, lines, b)[i]
    {
      LineAbsorbs(c, lines[i], a, b);
    }
    assert Lines(c, Lines(c, lines, a), b) == Lines(c, lines, b);
  }

  // What is kept.

  function WithoutCr(line: string): string {
    if line != "" && line[|line| - 1] == '\r' then line[..|line| - 1] else line
  }

  predicate IsData(line: string) { "data: " <= WithoutCr(line) }

  function WithoutData(clean: string): string {
    if "data: " <= clean then clean[6..] else clean
  }

  /** The JSON text of a line. */
  function PayloadOf(line: string): string { WithoutData(WithoutCr(line)) }

  /** `v` with its top-level model, if it has one, set to the alias and nothing else changed. */
  ghost predicate OnlyModelDiffers<J(!new)>(c: Codec<J>, v: J, v': J, alias: string) {
    && (forall k :: k != "model" ==> c.field(v', k) == c.field(v, k))
    && (c.field(v, "model").Some? ==> c.field(v', "model") == Some(c.text(alias)))
    && (c.field(v, "model").None? ==> v' == v)
  }

  ghost predicate KeepsShape<J(!new)>(c: Codec<J>, line: string, line': string, alias: string) {
    && (WithoutCr(line') == line' <==> WithoutCr(line) == line)
    && (IsData(line') <==> IsData(line))
    && (if Contains(PayloadOf(line), "\"model\"") && c.parse(PayloadOf(line)).Some? then
          c.parse(PayloadOf(line')).Some?
          && OnlyModelDiffers(c, c.parse(PayloadOf(line)).value, c.parse(PayloadOf(line')).value, alias)
        else
          line' == line)
  }

  lemma PayloadKeepsShape<J(!new)>(c: Codec<J>, data: string, alias: string)
    requires Lawful(c)
    ensures var data' := Payload(c, data, alias);
            if Contains(data, MODEL) && c.parse(data).Some? then
              c.parse(data').Some? && OnlyModelDiffers(c, c.parse(data).value, c.parse(data').value, alias)
            else
              data' == data
  {
  }

  lemma CleanKeepsShape<J(!new)>(c: Codec<J>, clean: string, alias: string)
    requires Lawful(c)
    ensures var clean' := Clean(c, clean, alias);
            && (DATA <= clean' <==> DATA <= clean)
            && WithoutData(clean') == Payload(c, WithoutData(clean), alias)
            && (WithoutData(clean') == WithoutData(clean) ==> clean' == clean)
  {
    CleanAbsorbs(c, clean, alias, alias);
    if DATA <= clean {
      assert clean == DATA + clean[|DATA|..];
      assert (DATA + Payload(c, clean[|DATA|..], alias))[|DATA|..] == Payload(c, clean[|DATA|..], alias);
    }
  }

  lemma WithCr(clean: string)
    ensures EndsInCr(clean + "\r") && WithoutCr(clean + "\r") == clean
  {
    assert (clean + "\r")[..|clean|] == clean;
  }

  lemma LineCleans<J(!new)>(c: Codec<J>, line: string, alias: string)
    requires Lawful(c)
    ensures var line' := Line(c, line, alias);
            && (EndsInCr(line') <==> EndsInCr(line))
            && WithoutCr(line') == Clean(c, WithoutCr(line), alias)
            && (WithoutCr(line') == WithoutCr(line) ==> line' == line)
  {
    var clean := WithoutCr(line);
    LineAbsorbs(c, line, alias, alias);
    if EndsInCr(line) {
      assert line == clean + "\r";
      LineWithCr(c, clean, alias);
      WithCr(Clean(c, clean, alias));
    }
  }

  lemma LineKeepsShape<J(!new)>(c: Codec<J>, line: string, alias: string)
    requires Lawful(c)
    ensures KeepsShape(c, line, Line(c, line, alias), alias)
  {
    LineCleans(c, line, alias);
    CleanKeepsShape(c, WithoutCr(line), alias);
    PayloadKeepsShape(c, PayloadOf(line), alias);
  }

  /** A rewritten body has the same lines, each with its ending and its `data: ` prefix; a line that does not mention
      the model or is not JSON is untouched, any other differs only in its top-level model. */
  lemma RewriteKeepsShape<J(!new)>(c: Codec<J>, body: string, alias: string)
    requires Lawful(c)
    ensures |Split(Rewrite(c, body, alias))| == |Split(body)|
    ensures forall i :: 0 <= i < |Split(body)| ==>
                          KeepsShape(c, Split(body)[i], Split(Rewrite(c, body, alias))[i], alias)
  {
    LinesOfRewrite(c, body, alias);
    forall i | 0 <= i < |Split(body)|
      ensures KeepsShape(c, Split(body)[i], Split(Rewrite(c, body, alias))[i], alias)
    {
      LineKeepsShape(c, Split(body)[i], alias);
    }
  }
}
