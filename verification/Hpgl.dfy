/** Meaning of an HP-GL text: the points it visits, each with its pen and pen state.  The other
    modules compare texts by this trace, so that a rewritten or assembled text can be matched
    with its original mark by mark. */
module Hpgl {
  import opened Text
  import opened Numbers
  import opened Device

  /** One visited point. */
  datatype Mark = Mark(x: real, y: real, pen: real, down: bool)

  datatype Turtle = Turtle(x: real, y: real, absolute: bool, pen: real, down: bool)

  const HOME := Turtle(0.0, 0.0, true, 0.0, false)

  datatype Drawing = Drawing(marks: seq<Mark>, end: Turtle)

  // ---- parameters ---------------------------------------------------------------------

  function DropSpaces(s: string): string {
    if s == "" then ""
    else if s[0] == ' ' then DropSpaces(s[1..])
    else [s[0]] + DropSpaces(s[1..])
  }

  /** A number as the payload grammar admits it (one line break may follow it). */
  function Parameter(s: string): Option<real> {
    if s != "" && s[|s| - 1] == '\n' && Number(s[..|s| - 1]).Some? then Number(s[..|s| - 1]) else Number(s)
  }

  /** A number reads the same with one line break behind it, and with two it is none. */
  lemma OneLineBreak(s: string)
    requires Number(s).Some?
    ensures Parameter(s) == Parameter(s + "\n") == Number(s) && Parameter(s + "\n\n").None?
  {
    var once, twice := s + "\n", s + "\n\n";
    NumberHasNoBreak(s);
    assert once[..|once| - 1] == s && once[|s|] == '\n' && twice[|s|] == '\n';
    assert twice[..|twice| - 1] == once && '\n' in once && '\n' in twice;
    if Number(once).Some? {
      NumberHasNoBreak(once);
    }
    if Number(twice).Some? {
      NumberHasNoBreak(twice);
    }
  }

  lemma NumberHasNoBreak(s: string)
    requires Number(s).Some?
    ensures '\n' !in s
  {
    if s != "" && (s[0] == '+' || s[0] == '-') {
      UnsignedHasNoBreak(s[1..]);
      assert s == [s[0]] + s[1..];
    } else {
      UnsignedHasNoBreak(s);
    }
  }

  lemma UnsignedHasNoBreak(s: string)
    requires Unsigned(s).Some?
    ensures '\n' !in s
  {
    var i := DigitsEnd(s, 0);
    DigitsEndMeaning(s, 0);
    if i < |s| {
      DigitsEndMeaning(s, i + 1);
    }
  }

  function Parameters(parts: seq<string>): (r: Option<seq<real>>)
    ensures r.Some? ==> |r.value| == |parts|
  {
    if parts == [] then Some([])
    else
      match (Parameter(parts[0]), Parameters(parts[1..]))
      case (Some(v), Some(rest)) => Some([v] + rest)
      case _ => None
  }

  /** All numbers of a parameter blob; the empty blob has none. */
  function ParseNums(blob: string): Option<seq<real>> {
    var t := Strip(blob);
    if t == "" then Some([]) else Parameters(Split(DropSpaces(t), ','))
  }

  /** An instruction without its terminator, blanks around it removed. */
  function OpOf(raw: string): string { Mnemonic(Strip(raw)) }
  function ArgsOf(raw: string): string { Strip(Suffix(Strip(raw), 2)) }

  // ---- visiting -----------------------------------------------------------------------

  function StepTo(t: Turtle, x: real, y: real): Turtle {
    if t.absolute then t.(x := x, y := y) else t.(x := t.x + x, y := t.y + y)
  }

  function MarkOf(t: Turtle): Mark { Mark(t.x, t.y, t.pen, t.down) }

  /** Visit coordinate pairs in order. */
  function Visit(t: Turtle, nums: seq<real>): Drawing
    decreases |nums|
  {
    if |nums| < 2 then Drawing([], t)
    else
      var t' := StepTo(t, nums[0], nums[1]);
      var rest := Visit(t', nums[2..]);
      Drawing([MarkOf(t')] + rest.marks, rest.end)
  }

  lemma {:induction false} VisitAppend(t: Turtle, a: seq<real>, b: seq<real>)
    requires |a| % 2 == 0
    ensures var first := Visit(t, a);
      var second := Visit(first.end, b);
      Visit(t, a + b) == Drawing(first.marks + second.marks, second.end)
    decreases |a|
  {
    if a == [] {
      assert a + b == b;
      assert [] + Visit(t, b).marks == Visit(t, b).marks;
    } else {
      var t' := StepTo(t, a[0], a[1]);
      assert (a + b)[2..] == a[2..] + b;
      VisitAppend(t', a[2..], b);
      var rest := Visit(t', a[2..]);
      var second := Visit(rest.end, b);
      assert [MarkOf(t')] + (rest.marks + second.marks) == ([MarkOf(t')] + rest.marks) + second.marks;
    }
  }

  lemma {:induction false} VisitKeepsModes(t: Turtle, nums: seq<real>)
    ensures var e := Visit(t, nums).end; e.absolute == t.absolute && e.pen == t.pen && e.down == t.down
    decreases |nums|
  {
    if |nums| >= 2 {
      VisitKeepsModes(StepTo(t, nums[0], nums[1]), nums[2..]);
    }
  }

  // ---- interpretation -----------------------------------------------------------------

  /** Mode and pen changes that come before a motion instruction's coordinates. */
  function Prepared(t: Turtle, op: string): Turtle {
    if op == "PA" then t.(absolute := true)
    else if op == "PR" then t.(absolute := false)
    else if op == "PU" then t.(down := false)
    else if op == "PD" then t.(down := true)
    else t
  }

  /** One instruction; instructions that do not move or select leave the turtle alone. */
  function DrawParts(t: Turtle, op: string, nums: Option<seq<real>>): Drawing {
    if op == "IN" || op == "DF" then Drawing([], t.(absolute := true, down := false))
    else if op == "SP" then
      if nums.Some? && |nums.value| == 1 then Drawing([], t.(pen := nums.value[0])) else Drawing([], t)
    else if IsMover(op) && nums.Some? && |nums.value| % 2 == 0 then Visit(Prepared(t, op), nums.value)
    else Drawing([], t)
  }

  function Draw(t: Turtle, raw: string): Drawing { DrawParts(t, OpOf(raw), ParseNums(ArgsOf(raw))) }

  function DrawAll(t: Turtle, tokens: seq<string>): Drawing
    decreases |tokens|
  {
    if tokens == [] then Drawing([], t)
    else
      var first := Draw(t, tokens[0]);
      var rest := DrawAll(first.end, tokens[1..]);
      Drawing(first.marks + rest.marks, rest.end)
  }

  lemma {:induction false} DrawAllAppend(t: Turtle, a: seq<string>, b: seq<string>)
    ensures var first := DrawAll(t, a);
      var second := DrawAll(first.end, b);
      DrawAll(t, a + b) == Drawing(first.marks + second.marks, second.end)
    decreases |a|
  {
    if a == [] {
      assert a + b == b;
      assert [] + DrawAll(t, b).marks == DrawAll(t, b).marks;
    } else {
      var first := Draw(t, a[0]);
      assert (a + b)[1..] == a[1..] + b;
      DrawAllAppend(first.end, a[1..], b);
      var rest := DrawAll(first.end, a[1..]);
      var second := DrawAll(rest.end, b);
      assert first.marks + (rest.marks + second.marks) == (first.marks + rest.marks) + second.marks;
    }
  }

  /** The terminated instructions of a text. */
  function Tokens(text: string): seq<string> {
    var parts := Split(text, ';');
    parts[..|parts| - 1]
  }

  function Tail(text: string): string {
    var parts := Split(text, ';');
    parts[|parts| - 1]
  }

  lemma OneToken(t: string)
    requires ';' !in t
    ensures Tokens(t + ";") == [t] && Tail(t + ";") == ""
  {
    SplitCons(t, ';', "");
    assert t + ";" + "" == t + ";";
    assert Split("", ';') == [""];
    assert ([t] + [""])[..1] == [t];
  }

  /** The plot of a whole text. */
  function Plot(text: string): Drawing { DrawAll(HOME, Tokens(text)) }

  lemma {:induction false} JoinTerminated(parts: seq<string>)
    ensures Join(parts + [""], ';') == Terminate(parts)
  {
    if parts != [] {
      JoinTerminated(parts[1..]);
      assert (parts + [""])[1..] == parts[1..] + [""];
    }
  }

  lemma LastEmpty(parts: seq<string>)
    requires parts != [] && parts[|parts| - 1] == ""
    ensures Join(parts, ';') == Terminate(parts[..|parts| - 1])
  {
    JoinTerminated(parts[..|parts| - 1]);
    assert parts == parts[..|parts| - 1] + [""];
  }

  /** A payload that ends at a terminator is its instructions. */
  lemma TerminatedText(text: string)
    requires Tail(text) == ""
    ensures text == Terminate(Tokens(text))
  {
    hide Split, Join, Terminate;
    JoinSplit(text, ';');
    LastEmpty(Split(text, ';'));
  }

  // ---- plain text ---------------------------------------------------------------------

  lemma {:induction false} NoSpacesToDrop(s: string)
    requires ' ' !in s
    ensures DropSpaces(s) == s
  {
    if s != "" {
      NoSpacesToDrop(s[1..]);
      assert [s[0]] + s[1..] == s;
    }
  }

  lemma ParameterPlain(s: string)
    requires Plain(s)
    ensures Parameter(s) == Some(Value(s))
  {
    PlainCharacters(s);
    PlainHasValue(s);
  }

  /** The numbers of plain pairs. */
  function Values(pairs: seq<Pair>): (r: seq<real>)
    requires PlainPairs(pairs)
    ensures |r| == 2 * |pairs|
  {
    if pairs == [] then []
    else
      assert PlainPair(pairs[0]);
      [Value(pairs[0].x), Value(pairs[0].y)] + Values(pairs[1..])
  }

  lemma ParametersCons(part: string, parts: seq<string>, v: real, vals: seq<real>)
    requires Parameter(part) == Some(v) && Parameters(parts) == Some(vals)
    ensures Parameters([part] + parts) == Some([v] + vals)
  {
    assert ([part] + parts)[1..] == parts;
  }

  lemma ParametersPair(x: string, y: string, rest: seq<string>, vx: real, vy: real, vals: seq<real>)
    requires Parameter(x) == Some(vx) && Parameter(y) == Some(vy) && Parameters(rest) == Some(vals)
    ensures Parameters([x, y] + rest) == Some([vx, vy] + vals)
  {
    ParametersCons(y, rest, vy, vals);
    ParametersCons(x, [y] + rest, vx, [vy] + vals);
    assert [x] + ([y] + rest) == [x, y] + rest;
    assert [vx] + ([vy] + vals) == [vx, vy] + vals;
  }

  lemma {:induction false} ParametersPlain(pairs: seq<Pair>)
    requires PlainPairs(pairs)
    ensures Parameters(Coordinates(pairs)) == Some(Values(pairs))
  {
    if pairs != [] {
      var p := pairs[0];
      assert PlainPair(p);
      ParameterPlain(p.x);
      ParameterPlain(p.y);
      ParametersPlain(pairs[1..]);
      ParametersPair(p.x, p.y, Coordinates(pairs[1..]), Value(p.x), Value(p.y), Values(pairs[1..]));
    }
  }

  lemma {:induction false} PairsTextNoSpaces(pairs: seq<Pair>)
    requires PlainPairs(pairs)
    ensures ' ' !in PairsText(pairs)
  {
    if pairs != [] {
      assert PlainPair(pairs[0]);
      PlainCharacters(pairs[0].x);
      PlainCharacters(pairs[0].y);
      PairsTextNoSpaces(pairs[1..]);
    }
  }

  lemma ParsePairs(pairs: seq<Pair>)
    requires PlainPairs(pairs)
    ensures ParseNums(PairsText(pairs)) == Some(Values(pairs))
  {
    if pairs != [] {
      PairsTextEnds(pairs);
      PairsTextNoSpaces(pairs);
      NoSpacesToDrop(PairsText(pairs));
      StripTidy(PairsText(pairs));
      SplitPairs(pairs);
      ParametersPlain(pairs);
    }
  }

  lemma {:induction false} ValuesAppend(a: seq<Pair>, b: seq<Pair>)
    requires PlainPairs(a) && PlainPairs(b) && PlainPairs(a + b)
    ensures Values(a + b) == Values(a) + Values(b)
  {
    if a == [] {
      assert a + b == b;
    } else {
      assert (a + b)[1..] == a[1..] + b;
      ValuesAppend(a[1..], b);
    }
  }

  /** Splitting an instruction's text into mnemonic and parameters. */
  lemma PartsOf(head: string, body: string)
    requires |head| == 2 && IsAlpha(head[0]) && IsAlpha(head[1]) && Tidy(body)
    ensures OpOf(head + body) == Upper(head) && ArgsOf(head + body) == body
  {
    var t := head + body;
    StripTidy(t);
    assert Prefix(t, 2) == head && Suffix(t, 2) == body;
    StripTidy(body);
  }

  /** A mover read whole, with its blanks, and with them stripped. */
  lemma MoverOp(raw: string)
    requires IsMover(Mnemonic(raw))
    ensures OpOf(raw) == Mnemonic(raw)
    ensures |raw| >= 2 && !IsBlank(raw[1]) && Strip(raw) == StripRight(raw) && |StripRight(raw)| >= 2
    ensures StripRight(raw)[..2] == raw[..2] && IsAlpha(raw[0]) && IsAlpha(raw[1])
  {
    MoverLetters(raw);
    StripRightKeeps(raw);
    StripFromLeft(raw);
    hide StripRight, Upper;
    assert Prefix(StripRight(raw), 2) == Prefix(raw, 2);
  }

  lemma MoverLetters(raw: string)
    requires IsMover(Mnemonic(raw))
    ensures |raw| >= 2 && IsAlpha(raw[0]) && IsAlpha(raw[1])
  {
    assert UpperChar(raw[0]) == Mnemonic(raw)[0] && UpperChar(raw[1]) == Mnemonic(raw)[1];
  }

  lemma StripFromLeft(raw: string)
    requires raw != "" && !IsBlank(raw[0])
    ensures Strip(raw) == StripRight(raw)
  {
  }

  lemma MoverReads(head: string, pairs: seq<Pair>)
    requires IsMover(head) && PlainPairs(pairs)
    ensures OpOf(head + PairsText(pairs)) == head && ArgsOf(head + PairsText(pairs)) == PairsText(pairs)
  {
    if pairs != [] {
      PairsTextEnds(pairs);
    }
    PartsOf(head, PairsText(pairs));
    assert Upper(head) == head;
  }

  lemma MotionVisits(t: Turtle, op: string, nums: seq<real>)
    requires IsMover(op) && |nums| % 2 == 0
    ensures DrawParts(t, op, Some(nums)) == Visit(Prepared(t, op), nums)
  {
  }

  lemma DrawMover(t: Turtle, head: string, pairs: seq<Pair>)
    requires IsMover(head) && PlainPairs(pairs)
    ensures Draw(t, head + PairsText(pairs)) == Visit(Prepared(t, head), Values(pairs))
  {
    MoverReads(head, pairs);
    ParsePairs(pairs);
    EvenLength(pairs);
    MotionVisits(t, head, Values(pairs));
  }

  lemma EvenLength(pairs: seq<Pair>)
    requires PlainPairs(pairs)
    ensures |Values(pairs)| % 2 == 0
  {
  }
}
