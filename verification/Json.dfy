/**
 A codec for compact JSON that satisfies the rewriter's laws: a printer that
 escapes as section 7 of RFC 8259 requires, and a recursive descent parser that
 reads back whatever was printed.
 */
module Json {
  import opened Outcomes
  import opened Text
  import opened Rewriter

  datatype Value =
    | Null
    | Bool(b: bool)
    | Num(n: nat)
    | Str(s: string)
    | Arr(items: Items)
    | Obj(members: Members)

  datatype Items = NoItems | Item(head: Value, tail: Items)
  datatype Members = NoMembers | Member(key: string, value: Value, rest: Members)

  // Printing.

  function Hex(n: nat): char
    requires n < 16
  {
    if n < 10 then ('0' as int + n) as char else ('a' as int + n - 10) as char
  }

  function EscapeChar(c: char): string {
    if c == '"' then "\\\""
    else if c == '\\' then "\\\\"
    else if c < ' ' then ['\\', 'u', '0', '0', Hex(c as int / 16), Hex(c as int % 16)]
    else [c]
  }

  function Escape(s: string): string {
    if s == "" then "" else EscapeChar(s[0]) + Escape(s[1..])
  }

  function Quote(s: string): string { "\"" + Escape(s) + "\"" }

  function Digits(n: nat): string {
    if n < 10 then [Hex(n)] else Digits(n / 10) + [Hex(n % 10)]
  }

  function Print(v: Value): string {
    match v
    case Null => "null"
    case Bool(b) => if b then "true" else "false"
    case Num(n) => Digits(n)
    case Str(s) => Quote(s)
    case Arr(items) => "[" + PrintItems(items)
    case Obj(members) => "{" + PrintMembers(members)
  }

  /** The items and the closing bracket. */
  function PrintItems(items: Items): string {
    match items
    case NoItems => "]"
    case Item(head, tail) => Print(head) + (if tail.NoItems? then "]" else "," + PrintItems(tail))
  }

  function PrintMembers(members: Members): string {
    match members
    case NoMembers => "}"
    case Member(key, value, rest) =>
      Quote(key) + ":" + Print(value) + (if rest.NoMembers? then "}" else "," + PrintMembers(rest))
  }

  // Parsing: each parser returns what it read and what is left.

  predicate IsDigit(c: char) { '0' <= c <= '9' }

  function HexValue(c: char): Option<nat> {
    if IsDigit(c) then Some(c as int - '0' as int)
    else if 'a' <= c <= 'f' then Some(c as int - 'a' as int + 10)
    else None
  }

  /** One character of a string literal. */
  function ParseChar(s: string): (r: Option<(char, string)>)
    ensures r.Some? ==> |r.value.1| < |s|
  {
    if s == "" || s[0] < ' ' || s[0] == '"' then None
    else if s[0] != '\\' then Some((s[0], s[1..]))
    else if |s| < 2 then None
    else if s[1] == '"' || s[1] == '\\' then Some((s[1], s[2..]))
    else if |s| >= 6 && s[1..4] == "u00" && HexValue(s[4]).Some? && HexValue(s[5]).Some? then
      Some(((16 * HexValue(s[4]).value + HexValue(s[5]).value) as char, s[6..]))
    else None
  }

  /** The rest of a string literal, to its closing quote. */
  function ParseText(s: string): (r: Option<(string, string)>)
    ensures r.Some? ==> |r.value.1| < |s|
    decreases |s|
  {
    if s != "" && s[0] == '"' then Some(("", s[1..]))
    else
      match ParseChar(s)
      case None => None
      case Some((c, left)) =>
        match ParseText(left)
        case None => None
        case Some((text, left')) => Some(([c] + text, left'))
  }

  /** Further digits of a number read so far as `n`. */
  function ParseDigits(s: string, n: nat): (r: (nat, string))
    ensures |r.1| <= |s|
    decreases |s|
  {
    if s != "" && IsDigit(s[0]) then ParseDigits(s[1..], 10 * n + (s[0] as int - '0' as int)) else (n, s)
  }

  function ParseValue(s: string): (r: Option<(Value, string)>)
    ensures r.Some? ==> |r.value.1| < |s|
    decreases |s|, 1
  {
    if s == "" then None
    else if "null" <= s then Some((Null, s[4..]))
    else if "true" <= s then Some((Bool(true), s[4..]))
    else if "false" <= s then Some((Bool(false), s[5..]))
    else if IsDigit(s[0]) then
      var (n, left) := ParseDigits(s[1..], s[0] as int - '0' as int);
      Some((Num(n), left))
    else if s[0] == '"' then
      match ParseText(s[1..])
      case None => None
      case Some((text, left)) => Some((Str(text), left))
    else if s[0] == '[' then
      match ParseItems(s[1..], true)
      case None => None
      case Some((items, left)) => Some((Arr(items), left))
    else if s[0] == '{' then
      match ParseMembers(s[1..], true)
      case None => None
      case Some((members, left)) => Some((Obj(members), left))
    else None
  }

  /** Items up to the closing bracket; `first` when none was read yet. */
  function ParseItems(s: string, first: bool): (r: Option<(Items, string)>)
    ensures r.Some? ==> |r.value.1| < |s|
    decreases |s|, 2
  {
    if s == "" then None
    else if first && s[0] == ']' then Some((NoItems, s[1..]))
    else
      match ParseValue(s)
      case None => None
      case Some((head, left)) =>
        if left == "" then None
        else if left[0] == ']' then Some((Item(head, NoItems), left[1..]))
        else if left[0] == ',' then
          match ParseItems(left[1..], false)
          case None => None
          case Some((tail, left')) => Some((Item(head, tail), left'))
        else None
  }

  function ParseMembers(s: string, first: bool): (r: Option<(Members, string)>)
    ensures r.Some? ==> |r.value.1| < |s|
    decreases |s|, 2
  {
    if s == "" then None
    else if first && s[0] == '}' then Some((NoMembers, s[1..]))
    else if s[0] != '"' then None
    else
      match ParseText(s[1..])
      case None => None
      case Some((key, left)) =>
        if left == "" || left[0] != ':' then None
        else
          match ParseValue(left[1..])
          case None => None
          case Some((value, left')) =>
            if left' == "" then None
            else if left'[0] == '}' then Some((Member(key, value, NoMembers), left'[1..]))
            else if left'[0] == ',' then
              match ParseMembers(left'[1..], false)
              case None => None
              case Some((rest, left'')) => Some((Member(key, value, rest), left''))
            else None
  }

  function Parse(s: string): Option<Value> {
    match ParseValue(s)
    case Some((v, left)) => if left == "" then Some(v) else None
    case None => None
  }

  // Fields.

  function FieldOf(members: Members, key: string): Option<Value> {
    match members
    case NoMembers => None
    case Member(k, value, rest) => if k == key then Some(value) else FieldOf(rest, key)
  }

  function SetField(members: Members, key: string, value: Value): Members {
    match members
    case NoMembers => NoMembers
    case Member(k, old_, rest) =>
      if k == key then Member(k, value, rest) else Member(k, old_, SetField(rest, key, value))
  }

  function Field(v: Value, key: string): Option<Value> {
    match v
    case Obj(members) => FieldOf(members, key)
    case _ => None
  }

  function SetModel(v: Value, alias: string): Value {
    match v
    case Obj(members) => Obj(SetField(members, KEY, Str(alias)))
    case _ => v
  }

  const CODEC: Codec<Value> := Codec(Parse, Print, Field, (s: string) => Str(s), SetModel)

  // Reading back what was printed.

  lemma HexReadsBack(n: nat)
    requires n < 16
    ensures HexValue(Hex(n)) == Some(n)
  {
  }

  lemma CharReadsBack(c: char, left: string)
    ensures ParseChar(EscapeChar(c) + left) == Some((c, left))
    ensures (EscapeChar(c) + left)[0] != '"'
  {
    var s := EscapeChar(c) + left;
    if c < ' ' {
      HexReadsBack(c as int / 16);
      HexReadsBack(c as int % 16);
      assert s[1..4] == "u00";
      assert s[6..] == left;
    } else if c == '"' || c == '\\' {
      assert s[2..] == left;
    } else {
      assert s[1..] == left;
    }
  }

  lemma TextGoesOn(s: string, c: char, more: string, t: string, left: string)
    requires s != "" && s[0] != '"' && ParseChar(s) == Some((c, more)) && ParseText(more) == Some((t, left))
    ensures ParseText(s) == Some(([c] + t, left))
  {
  }

  lemma Associative(a: string, b: string, c: string)
    ensures (a + b) + c == a + (b + c)
  {
  }

  /** One escaped character in front of what can be read is read. */
  lemma CharThenText(c: char, more: string, t: string, left: string)
    requires ParseText(more) == Some((t, left))
    ensures ParseText(EscapeChar(c) + more) == Some(([c] + t, left))
  {
    CharReadsBack(c, more);
    TextGoesOn(EscapeChar(c) + more, c, more, t, left);
  }

  lemma TextEnds(left: string)
    ensures ParseText("\"" + left) == Some(("", left))
  {
    assert ("\"" + left)[1..] == left;
  }

  lemma {:induction false} TextReadsBack(t: string, left: string)
    ensures ParseText(Escape(t) + ("\"" + left)) == Some((t, left))
    decreases |t|
  {
    var end := "\"" + left;
    if t == "" {
      TextEnds(left);
      assert "" + end == end;
    } else {
      var c, u := t[0], t[1..];
      TextReadsBack(u, left);
      CharThenText(c, Escape(u) + end, u, left);
      Associative(EscapeChar(c), Escape(u), end);
      assert [c] + u == t;
    }
  }

  lemma QuoteReadsBack(t: string, left: string)
    ensures (Quote(t) + left)[0] == '"' && ParseText((Quote(t) + left)[1..]) == Some((t, left))
  {
    TextReadsBack(t, left);
    Associative("\"" + Escape(t), "\"", left);
    Associative("\"", Escape(t), "\"" + left);
    BehindFirst('"', Escape(t) + ("\"" + left));
  }

  lemma BehindFirst(c: char, s: string)
    ensures ([c] + s)[0] == c && ([c] + s)[1..] == s
  {
  }

  /** What may follow a value: anything but a digit. */
  predicate Ends(left: string) { left == "" || !IsDigit(left[0]) }

  lemma {:induction false} MoreDigits(n: nat, left: string)
    requires Ends(left)
    ensures IsDigit(Digits(n)[0])
    ensures ParseDigits((Digits(n) + left)[1..], Digits(n)[0] as int - '0' as int) == (n, left)
  {
    DigitsReadOn(n, left);
  }

  /** Reading the digits of `n` and then `more` is reading `more` with `n` in hand. */
  lemma {:induction false} DigitsReadOn(n: nat, more: string)
    ensures IsDigit(Digits(n)[0])
    ensures ParseDigits((Digits(n) + more)[1..], Digits(n)[0] as int - '0' as int) == ParseDigits(more, n)
  {
    if n < 10 {
      assert (Digits(n) + more)[1..] == more;
    } else {
      var last := [Hex(n % 10)];
      DigitsReadOn(n / 10, last + more);
      assert Digits(n) + more == Digits(n / 10) + (last + more);
      assert (last + more)[1..] == more;
    }
  }

  // One step of each parser, on any text.

  lemma ConstantReadsBack(left: string)
    ensures ParseValue("null" + left) == Some((Null, left))
    ensures ParseValue("true" + left) == Some((Bool(true), left))
    ensures ParseValue("false" + left) == Some((Bool(false), left))
  {
    assert ("null" + left)[4..] == left && ("true" + left)[4..] == left && ("false" + left)[5..] == left;
    assert ("true" + left)[0] == 't' && ("false" + left)[0] == 'f';
  }

  lemma NumberReads(s: string, n: nat, left: string)
    requires s != "" && IsDigit(s[0]) && ParseDigits(s[1..], s[0] as int - '0' as int) == (n, left)
    ensures ParseValue(s) == Some((Num(n), left))
  {
  }

  lemma QuotedReads(s: string, t: string, left: string)
    requires s != "" && s[0] == '"' && ParseText(s[1..]) == Some((t, left))
    ensures ParseValue(s) == Some((Str(t), left))
  {
  }

  lemma BracketThenItems(body: string, items: Items, left: string)
    requires ParseItems(body, true) == Some((items, left))
    ensures ParseValue("[" + body) == Some((Arr(items), left))
  {
    assert ("[" + body)[1..] == body && ("[" + body)[0] == '[';
  }

  lemma BraceThenMembers(body: string, members: Members, left: string)
    requires ParseMembers(body, true) == Some((members, left))
    ensures ParseValue("{" + body) == Some((Obj(members), left))
  {
    assert ("{" + body)[1..] == body && ("{" + body)[0] == '{';
  }

  lemma LastItem(s: string, first: bool, head: Value, left: string)
    requires s != "" && s[0] != ']' && ParseValue(s) == Some((head, "]" + left))
    ensures ParseItems(s, first) == Some((Item(head, NoItems), left))
  {
    assert ("]" + left)[0] == ']' && ("]" + left)[1..] == left;
  }

  lemma NextItem(s: string, first: bool, head: Value, more: string, tail: Items, left: string)
    requires s != "" && s[0] != ']' && ParseValue(s) == Some((head, "," + more))
    requires ParseItems(more, false) == Some((tail, left))
    ensures ParseItems(s, first) == Some((Item(head, tail), left))
  {
    assert ("," + more)[0] == ',' && ("," + more)[1..] == more;
  }

  lemma LastMember(s: string, first: bool, key: string, valued: string, value: Value, left: string)
    requires s != "" && s[0] == '"' && ParseText(s[1..]) == Some((key, ":" + valued))
    requires ParseValue(valued) == Some((value, "}" + left))
    ensures ParseMembers(s, first) == Some((Member(key, value, NoMembers), left))
  {
    assert (":" + valued)[0] == ':' && (":" + valued)[1..] == valued;
    assert ("}" + left)[0] == '}' && ("}" + left)[1..] == left;
  }

  lemma NextMember(s: string, first: bool, key: string, valued: string, value: Value, more: string, rest: Members,
                   left: string)
    requires s != "" && s[0] == '"' && ParseText(s[1..]) == Some((key, ":" + valued))
    requires ParseValue(valued) == Some((value, "," + more)) && ParseMembers(more, false) == Some((rest, left))
    ensures ParseMembers(s, first) == Some((Member(key, value, rest), left))
  {
    assert (":" + valued)[0] == ':' && (":" + valued)[1..] == valued;
    assert ("," + more)[0] == ',' && ("," + more)[1..] == more;
  }

  // The printed text, taken apart.

  lemma ItemText(head: Value, tail: Items, left: string)
    ensures PrintItems(Item(head, tail)) + left ==
            Print(head) + (if tail.NoItems? then "]" + left else "," + (PrintItems(tail) + left))
  {
    var close := if tail.NoItems? then "]" else "," + PrintItems(tail);
    Associative(Print(head), close, left);
    Associative(",", PrintItems(tail), left);
  }

  lemma MemberText(key: string, value: Value, rest: Members, left: string)
    ensures PrintMembers(Member(key, value, rest)) + left ==
            Quote(key) + (":" + (Print(value) +
                                 (if rest.NoMembers? then "}" + left else "," + (PrintMembers(rest) + left))))
  {
    var close := if rest.NoMembers? then "}" else "," + PrintMembers(rest);
    Associative(",", PrintMembers(rest), left);
    var end := close + left;
    Associative(Quote(key) + ":" + Print(value), close, left);
    Associative(Quote(key) + ":", Print(value), end);
    Associative(Quote(key), ":", Print(value) + end);
  }

  lemma {:induction false} ValueReadsBack(v: Value, left: string)
    requires Ends(left)
    ensures ParseValue(Print(v) + left) == Some((v, left))
    decreases v, 1
  {
    match v
    case Null => ConstantReadsBack(left);
    case Bool(b) => ConstantReadsBack(left);
    case Num(n) =>
      MoreDigits(n, left);
      NumberReads(Digits(n) + left, n, left);
    case Str(t) =>
      QuoteReadsBack(t, left);
      QuotedReads(Quote(t) + left, t, left);
    case Arr(items) =>
      ItemsReadBack(items, left, true);
      BracketThenItems(PrintItems(items) + left, items, left);
      Associative("[", PrintItems(items), left);
    case Obj(members) =>
      MembersReadBack(members, left, true);
      BraceThenMembers(PrintMembers(members) + left, members, left);
      Associative("{", PrintMembers(members), left);
  }

  lemma Closes(left: string)
    ensures ParseItems("]" + left, true) == Some((NoItems, left))
    ensures ParseMembers("}" + left, true) == Some((NoMembers, left))
    ensures Ends("]" + left) && Ends("}" + left) && Ends("," + left)
  {
    assert ("]" + left)[1..] == left && ("}" + left)[1..] == left;
  }

  lemma PrintStarts(v: Value)
    ensures Print(v) != "" && Print(v)[0] != ']' && Print(v)[0] != 'd'
  {
    if v.Num? { MoreDigits(v.n, ""); }
  }

  lemma {:induction false} ItemsReadBack(items: Items, left: string, first: bool)
    requires items.NoItems? ==> first
    ensures ParseItems(PrintItems(items) + left, first) == Some((items, left))
    decreases items, 0
  {
    Closes(left);
    match items
    case NoItems =>
    case Item(head, tail) =>
      ItemText(head, tail, left);
      PrintStarts(head);
      if tail.NoItems? {
        ValueReadsBack(head, "]" + left);
        LastItem(Print(head) + ("]" + left), first, head, left);
      } else {
        var more := PrintItems(tail) + left;
        Closes(more);
        ValueReadsBack(head, "," + more);
        ItemsReadBack(tail, left, false);
        NextItem(Print(head) + ("," + more), first, head, more, tail, left);
      }
  }

  lemma {:induction false} MembersReadBack(members: Members, left: string, first: bool)
    requires members.NoMembers? ==> first
    ensures ParseMembers(PrintMembers(members) + left, first) == Some((members, left))
    decreases members, 0
  {
    Closes(left);
    match members
    case NoMembers =>
    case Member(key, value, rest) =>
      MemberText(key, value, rest, left);
      if rest.NoMembers? {
        var valued := Print(value) + ("}" + left);
        ValueReadsBack(value, "}" + left);
        QuoteReadsBack(key, ":" + valued);
        LastMember(Quote(key) + (":" + valued), first, key, valued, value, left);
      } else {
        var more := PrintMembers(rest) + left;
        var valued := Print(value) + ("," + more);
        Closes(more);
        ValueReadsBack(value, "," + more);
        QuoteReadsBack(key, ":" + valued);
        MembersReadBack(rest, left, false);
        NextMember(Quote(key) + (":" + valued), first, key, valued, value, more, rest, left);
      }
  }

  lemma ParseReadsBack(v: Value)
    ensures Parse(Print(v)) == Some(v)
  {
    ValueReadsBack(v, "");
    assert Print(v) + "" == Print(v);
  }

  /** Text behind a value, unless it goes on as digits of it, makes the whole no JSON: nothing is read in part. */
  lemma TrailingTextIsRejected(v: Value, left: string)
    requires left != "" && Ends(left)
    ensures Parse(Print(v) + left) == None
  {
    ValueReadsBack(v, left);
  }

  /** So a member standing alone on its line, as in an object printed over several, is no JSON. */
  lemma MemberAloneIsRejected(key: string, v: Value)
    ensures Parse(Quote(key) + ":" + Print(v)) == None
  {
    TrailingTextIsRejected(Str(key), ":" + Print(v));
    assert Print(Str(key)) + (":" + Print(v)) == Quote(key) + ":" + Print(v);
  }

  // What is printed: no raw line breaks, and the keys of an object.

  predicate OneLine(s: string) { '\n' !in s && '\r' !in s }

  lemma {:induction false} EscapeIsOneLine(s: string)
    ensures OneLine(Escape(s))
    decreases |s|
  {
    if s != "" {
      EscapeIsOneLine(s[1..]);
      CharIsOneLine(s[0]);
    }
  }

  lemma CharIsOneLine(c: char)
    ensures OneLine(EscapeChar(c))
  {
  }

  lemma {:induction false} DigitsAreOneLine(n: nat)
    ensures OneLine(Digits(n))
  {
    if n >= 10 { DigitsAreOneLine(n / 10); }
  }

  lemma {:induction false} PrintIsOneLine(v: Value)
    ensures OneLine(Print(v))
    decreases v, 1
  {
    match v
    case Num(n) => DigitsAreOneLine(n);
    case Str(s) => EscapeIsOneLine(s);
    case Arr(items) => ItemsAreOneLine(items);
    case Obj(members) => MembersAreOneLine(members);
    case _ =>
  }

  lemma {:induction false} ItemsAreOneLine(items: Items)
    ensures OneLine(PrintItems(items))
    decreases items, 0
  {
    if items.Item? {
      PrintIsOneLine(items.head);
      ItemsAreOneLine(items.tail);
    }
  }

  lemma {:induction false} MembersAreOneLine(members: Members)
    ensures OneLine(PrintMembers(members))
    decreases members, 0
  {
    if members.Member? {
      EscapeIsOneLine(members.key);
      PrintIsOneLine(members.value);
      MembersAreOneLine(members.rest);
    }
  }

  lemma {:induction false} PlainIsUnescaped(s: string)
    requires forall i :: 0 <= i < |s| ==> s[i] >= ' ' && s[i] != '"' && s[i] != '\\'
    ensures Escape(s) == s
  {
    if s != "" {
      PlainIsUnescaped(s[1..]);
      assert s == [s[0]] + s[1..];
    }
  }

  lemma ModelIsPlain()
    ensures Quote(KEY) == MODEL
  {
    PlainIsUnescaped(KEY);
  }

  lemma {:induction false} FieldIsPrinted(members: Members)
    requires FieldOf(members, KEY).Some?
    ensures Contains(PrintMembers(members), MODEL)
  {
    var Member(key, value, rest) := members;
    MemberText(key, value, rest, "");
    assert PrintMembers(members) + "" == PrintMembers(members);
    if key == KEY {
      ModelIsPlain();
      FrontContains(MODEL, ":" + (Print(value) +
                                  (if rest.NoMembers? then "}" + "" else "," + (PrintMembers(rest) + ""))));
    } else {
      FieldIsPrinted(rest);
      assert PrintMembers(rest) + "" == PrintMembers(rest);
      BackContains(",", PrintMembers(rest), MODEL);
      BackContains(Print(value), "," + PrintMembers(rest), MODEL);
      BackContains(":", Print(value) + ("," + PrintMembers(rest)), MODEL);
      BackContains(Quote(key), ":" + (Print(value) + ("," + PrintMembers(rest))), MODEL);
    }
  }

  lemma ModelIsPrinted(v: Value)
    requires Field(v, KEY).Some?
    ensures Contains(Print(v), MODEL)
  {
    FieldIsPrinted(v.members);
    BackContains("{", PrintMembers(v.members), MODEL);
  }

  lemma {:induction false} SetFieldLaws(members: Members, key: string, k: string, x: Value, y: Value)
    ensures FieldOf(members, key).None? ==> SetField(members, key, x) == members
    ensures FieldOf(members, key).Some? ==> FieldOf(SetField(members, key, x), key) == Some(x)
    ensures k != key ==> FieldOf(SetField(members, key, x), k) == FieldOf(members, k)
    ensures SetField(SetField(members, key, x), key, y) == SetField(members, key, y)
  {
    if members.Member? { SetFieldLaws(members.rest, key, k, x, y); }
  }

  lemma SetModelLaws(v: Value, a: string, b: string, k: string)
    ensures Field(v, KEY).None? ==> SetModel(v, a) == v
    ensures Field(v, KEY).Some? ==> Field(SetModel(v, a), KEY) == Some(Str(a))
    ensures k != KEY ==> Field(SetModel(v, a), k) == Field(v, k)
    ensures SetModel(SetModel(v, a), b) == SetModel(v, b)
  {
    if v.Obj? { SetFieldLaws(v.members, KEY, k, Str(a), Str(b)); }
  }

  lemma CodecPrintsWell()
    ensures PrintsWell(CODEC)
  {
    forall v
      ensures CODEC.parse(CODEC.render(v)) == Some(v)
    {
      ParseReadsBack(v);
    }
    forall v
      ensures '\n' !in CODEC.render(v) && '\r' !in CODEC.render(v) && !(DATA <= CODEC.render(v))
    {
      PrintIsOneLine(v);
      PrintStarts(v);
    }
    forall v | CODEC.field(v, KEY).Some?
      ensures Contains(CODEC.render(v), MODEL)
    {
      ModelIsPrinted(v);
    }
  }

  lemma CodecSetsWell()
    ensures SetsWell(CODEC)
  {
    forall v, a
      ensures CODEC.field(v, KEY).None? ==> CODEC.setModel(v, a) == v
      ensures CODEC.field(v, KEY).Some? ==> CODEC.field(CODEC.setModel(v, a), KEY) == Some(CODEC.text(a))
    {
      SetModelLaws(v, a, a, KEY);
    }
    forall v, a, k | k != KEY
      ensures CODEC.field(CODEC.setModel(v, a), k) == CODEC.field(v, k)
    {
      SetModelLaws(v, a, a, k);
    }
    forall v, a, b
      ensures CODEC.setModel(CODEC.setModel(v, a), b) == CODEC.setModel(v, b)
    {
      SetModelLaws(v, a, b, KEY);
    }
  }

  /** This codec satisfies every law the rewriter relies on. */
  lemma CodecIsLawful()
    ensures Lawful(CODEC)
  {
    CodecPrintsWell();
    CodecSetsWell();
  }

  // A cut inside a line is outside the law.

  const NAMED := Obj(Member(KEY, Null, NoMembers))
  const CUT := ["{\"mod", "el\":null}"]

  lemma NamedText()
    ensures Print(NAMED) == "{\"model\":null}"
  {
    ModelIsPlain();
    assert Print(NAMED) == "{" + (MODEL + ":" + "null" + "}");
  }

  lemma CutIsUnaligned()
    ensures !LineAligned(CUT) && Concat(CUT) == Print(NAMED)
  {
    NamedText();
    assert CUT[0][|CUT[0]| - 1] == 'd';
    assert CUT[1..] == ["el\":null}"] && Concat([]) == "" && Concat(CUT[1..]) == "el\":null}";
    assert "{\"mod" + "el\":null}" == "{\"model\":null}";
  }

  lemma AtStarts(s: string, part: string, i: nat)
    requires At(s, part, i) && |part| >= 2
    ensures i + 1 < |s| && s[i] == part[0] && s[i + 1] == part[1]
  {
    assert s[i..i + |part|][0] == s[i] && s[i..i + |part|][1] == s[i + 1];
  }

  lemma CutHidesModel()
    ensures !Contains(CUT[0], MODEL) && !Contains(CUT[1], MODEL)
  {
    forall i: nat
      ensures !At(CUT[1], MODEL, i)
    {
      if At(CUT[1], MODEL, i) { AtStarts(CUT[1], MODEL, i); }
    }
  }

  /** A body cut inside its only line keeps the name it came with. */
  lemma CutIsNotRewritten()
    ensures Stream(CODEC, CUT, "a") == Concat(CUT)
    ensures Rewrite(CODEC, Concat(CUT), "a") == Print(SetModel(NAMED, "a")) != Concat(CUT)
  {
    CutIsUnaligned();
    CutHidesModel();
    var body := Print(NAMED);
    assert Stream(CODEC, [], "a") == "";
    assert CUT[1..][1..] == [] && Stream(CODEC, CUT[1..], "a") == CUT[1] + "";
    assert Concat(CUT[1..]) == CUT[1] + "";
    PrintIsOneLine(NAMED);
    SplitPlain(body);
    RewriteIsLinewise(CODEC, body, "a");
    ModelIsPrinted(NAMED);
    ParseReadsBack(NAMED);
    PrintStarts(NAMED);
    assert body[|body| - 1] == '}';
    assert Lines(CODEC, [body], "a") == [Line(CODEC, body, "a")];
    if Print(SetModel(NAMED, "a")) == body { ParseReadsBack(SetModel(NAMED, "a")); }
  }
}
