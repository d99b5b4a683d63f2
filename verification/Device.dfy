/** The plotter's instruction set: what one popped token does to the device, which instructions
    answer, and where a mover ends when it is executed whole. */
module Device {
  import opened Protocol
  import opened Text
  import opened Numbers

  /** Hard-clip limits in plotter units. */
  datatype Clip = Clip(xmin: int, ymin: int, xmax: int, ymax: int)

  const A4_CLIP := Clip(0, 0, 11040, 7721)
  const IDENTIFICATION := "7475A"

  datatype Device = Device(
    clip: Clip, x: real, y: real, commanded: (real, real), penDown: bool, pen: int, velocity: real,
    p1p2: Clip, hpglError: int, rs232Error: int, initialized: bool)

  function PowerUp(clip: Clip): Device {
    Device(clip, 0.0, 0.0, (0.0, 0.0), false, 0, VELOCITY_MAX, clip, 0, 0, true)
  }

  /** What executing a token gives: a new device and maybe a reply line, or a dead executor. */
  datatype Effect = Effect(dev: Device, reply: Option<string>) | Crash

  // ---- parameters ---------------------------------------------------------------------

  /** A float literal as the emulator accepts it: blanks around it do not matter. */
  function Float(s: string): Option<real> { Number(Strip(s)) }

  /** All parts as numbers, or None when one of them is not. */
  function Floats(parts: seq<string>): (r: Option<seq<real>>)
    ensures r.Some? ==> |r.value| == |parts|
  {
    if parts == [] then Some([])
    else
      match (Float(parts[0]), Floats(parts[1..]))
      case (Some(v), Some(rest)) => Some([v] + rest)
      case _ => None
  }

  function TrimTerminator(s: string): string {
    if s != "" && s[|s| - 1] == ';' then TrimTerminator(s[..|s| - 1]) else s
  }

  function TrimComma(s: string): string {
    if s != "" && s[|s| - 1] == ',' then TrimComma(s[..|s| - 1]) else s
  }

  predicate Terminated(token: string) { token != "" && token[|token| - 1] == ';' }

  function Params(token: string): string {
    var params := Strip(TrimTerminator(Suffix(token, 2)));
    if Terminated(token) then params else TrimComma(params)
  }

  function IntParam(s: string, default: int): int {
    var t := Strip(s);
    var digits := if t != "" && (t[0] == '-' || t[0] == '+') then t[1..] else t;
    if digits != "" && DigitsEnd(digits, 0) == |digits| then
      var v: int := NatValue(digits);
      if t[0] == '-' then -v else v
    else default
  }

  // ---- motion -------------------------------------------------------------------------

  function Clamp(v: real, lo: int, hi: int): real {
    var up := if v < lo as real then lo as real else v;
    if up > hi as real then hi as real else up
  }

  function MoveTo(dev: Device, x: real, y: real): Device {
    var cx := Clamp(x, dev.clip.xmin, dev.clip.xmax);
    var cy := Clamp(y, dev.clip.ymin, dev.clip.ymax);
    dev.(x := cx, y := cy, commanded := (cx, cy))
  }

  /** Coordinate list: the last pair wins. */
  function Move(dev: Device, params: string, relative: bool): Device {
    if params == "" then dev else MoveNums(dev, Floats(Split(params, ',')), relative)
  }

  function MoveNums(dev: Device, parsed: Option<seq<real>>, relative: bool): Device {
    if parsed.None? || |parsed.value| < 2 || |parsed.value| % 2 == 1 then dev.(hpglError := 2)
    else
      var nums := parsed.value;
      var x, y := nums[|nums| - 2], nums[|nums| - 1];
      if relative then MoveTo(dev, dev.x + x, dev.y + y) else MoveTo(dev, x, y)
  }

  // ---- execution ----------------------------------------------------------------------

  function StatusByte(dev: Device): nat {
    (if dev.penDown then 1 else 0) + (if dev.initialized then 8 else 0) + 16
    + (if dev.hpglError != 0 || dev.rs232Error != 0 then 32 else 0)
  }

  function PositionText(x: real, y: real, penDown: bool): string {
    IntText(Trunc(x)) + "," + IntText(Trunc(y)) + "," + (if penDown then "1" else "0")
  }

  function ClipText(c: Clip): string {
    IntText(c.xmin) + "," + IntText(c.ymin) + "," + IntText(c.xmax) + "," + IntText(c.ymax)
  }

  function Execute(dev: Device, token: string): Effect {
    var op := Mnemonic(token);
    var params := Params(token);
    if op == "OI" then Effect(dev, Some(IDENTIFICATION))
    else if op == "OA" then Effect(dev, Some(PositionText(dev.x, dev.y, dev.penDown)))
    else if op == "OC" then Effect(dev, Some(PositionText(dev.commanded.0, dev.commanded.1, dev.penDown)))
    else if op == "OE" then Effect(dev.(hpglError := 0), Some(IntText(dev.hpglError)))
    else if op == "OS" then Effect(dev.(initialized := false), Some(IntText(StatusByte(dev))))
    else if op == "OH" then Effect(dev, Some(ClipText(dev.clip)))
    else if op == "OP" then Effect(dev, Some(ClipText(dev.p1p2)))
    else if op == "OO" then Effect(dev, Some("0,1,0,0,1,0,0,0"))
    else if op == "IN" || op == "DF" then
      Effect(dev.(p1p2 := dev.clip, velocity := VELOCITY_MAX, hpglError := 0, penDown := false), None)
    else if op == "SP" then Effect(dev.(pen := IntParam(params, 0)), None)
    else if op == "VS" then
      if params == "" then Effect(dev.(velocity := VELOCITY_MAX), None)
      else
        match Float(params)
        case Some(v) => Effect(dev.(velocity := v), None)
        case None => Crash
    else if op == "PU" || op == "PD" then Effect(Move(dev.(penDown := op == "PD"), params, false), None)
    else if op == "PA" then Effect(Move(dev, params, false), None)
    else if op == "PR" then Effect(Move(dev, params, true), None)
    else Effect(dev.(hpglError := 1), None)
  }

  predicate IsMover(op: string) { op == "PU" || op == "PD" || op == "PA" || op == "PR" }

  predicate IsOutput(op: string) {
    op == "OI" || op == "OA" || op == "OC" || op == "OE" || op == "OS" || op == "OH" || op == "OP" || op == "OO"
  }

  /** Only output instructions answer. */
  lemma OnlyOutputsReply(dev: Device, token: string)
    ensures Execute(dev, token).Effect? ==>
      (Execute(dev, token).reply.Some? <==> IsOutput(Mnemonic(token)))
  {
  }

  // ---- pairs in text ------------------------------------------------------------------

  /** One coordinate pair as written. */
  datatype Pair = Pair(x: string, y: string)

  predicate PlainPair(p: Pair) { Plain(p.x) && Plain(p.y) }

  function PairText(p: Pair): string { p.x + "," + p.y }

  /** Pairs separated by commas. */
  function PairsText(pairs: seq<Pair>): string {
    if pairs == [] then ""
    else if |pairs| == 1 then PairText(pairs[0])
    else PairText(pairs[0]) + "," + PairsText(pairs[1..])
  }

  ghost predicate PlainPairs(pairs: seq<Pair>) {
    forall k :: 0 <= k < |pairs| ==> PlainPair(pairs[k])
  }

  function Coordinates(pairs: seq<Pair>): (r: seq<string>)
    ensures |r| == 2 * |pairs|
    ensures pairs != [] ==> r[|r| - 2] == pairs[|pairs| - 1].x && r[|r| - 1] == pairs[|pairs| - 1].y
  {
    if pairs == [] then [] else [pairs[0].x, pairs[0].y] + Coordinates(pairs[1..])
  }

  lemma SplitPair(p: Pair, rest: string)
    requires PlainPair(p)
    ensures Split(PairText(p) + "," + rest, ',') == [p.x, p.y] + Split(rest, ',')
  {
    PlainCharacters(p.x);
    PlainCharacters(p.y);
    SplitCons(p.x, ',', p.y + "," + rest);
    SplitCons(p.y, ',', rest);
    PairInFront(p, rest);
    TwoInFront(p.x, p.y, Split(rest, ','));
  }

  lemma PairInFront(p: Pair, rest: string)
    ensures PairText(p) + "," + rest == p.x + "," + (p.y + "," + rest)
  {
  }

  lemma TwoInFront(x: string, y: string, rest: seq<string>)
    ensures [x] + ([y] + rest) == [x, y] + rest
  {
  }

  lemma SplitLastPair(p: Pair)
    requires PlainPair(p)
    ensures Split(PairText(p), ',') == [p.x, p.y]
  {
    PlainCharacters(p.x);
    PlainCharacters(p.y);
    SplitPlain(p.y, ',');
    SplitCons(p.x, ',', p.y);
  }

  lemma {:induction false} SplitPairs(pairs: seq<Pair>)
    requires pairs != [] && PlainPairs(pairs)
    ensures Split(PairsText(pairs), ',') == Coordinates(pairs)
  {
    if |pairs| == 1 {
      SplitLastPair(pairs[0]);
      assert Coordinates(pairs[1..]) == [];
    } else {
      SplitPairs(pairs[1..]);
      SplitPair(pairs[0], PairsText(pairs[1..]));
    }
  }

  lemma {:induction false} PairsTextEnds(pairs: seq<Pair>)
    requires pairs != [] && PlainPairs(pairs)
    ensures var t := PairsText(pairs); Tidy(t) && t != "" && IsDigit(t[|t| - 1]) && !IsAlpha(t[0]) && ';' !in t
  {
    PlainCharacters(pairs[0].x);
    PlainCharacters(pairs[0].y);
    if |pairs| > 1 {
      PairsTextEnds(pairs[1..]);
    }
  }

  function Value(s: string): real
    requires Plain(s)
  {
    PlainHasValue(s);
    Number(s).value
  }

  lemma FloatsPair(x: string, y: string, rest: seq<string>, vx: real, vy: real, vals: seq<real>)
    requires Float(x) == Some(vx) && Float(y) == Some(vy) && Floats(rest) == Some(vals)
    ensures Floats([x, y] + rest) == Some([vx, vy] + vals)
  {
    FloatsCons(y, rest);
    FloatsCons(x, [y] + rest);
    assert [x] + ([y] + rest) == [x, y] + rest;
    assert [vx] + ([vy] + vals) == [vx, vy] + vals;
  }

  lemma {:induction false} FloatsPlain(pairs: seq<Pair>)
    requires PlainPairs(pairs)
    ensures var r := Floats(Coordinates(pairs));
      && r.Some? && |r.value| == 2 * |pairs|
      && (pairs != [] ==> var last := pairs[|pairs| - 1];
           r.value[|r.value| - 2] == Value(last.x) && r.value[|r.value| - 1] == Value(last.y))
  {
    if pairs != [] {
      var p := pairs[0];
      assert PlainPair(p);
      FloatPlain(p.x);
      FloatPlain(p.y);
      FloatsPlain(pairs[1..]);
      FloatsPair(p.x, p.y, Coordinates(pairs[1..]), Value(p.x), Value(p.y), Floats(Coordinates(pairs[1..])).value);
    }
  }

  lemma FloatsCons(part: string, parts: seq<string>)
    requires Float(part).Some? && Floats(parts).Some?
    ensures Floats([part] + parts) == Some([Float(part).value] + Floats(parts).value)
  {
    assert ([part] + parts)[1..] == parts;
  }

  lemma FloatPlain(s: string)
    requires Plain(s)
    ensures Float(s) == Some(Value(s))
  {
    PlainCharacters(s);
    StripTidy(s);
    PlainHasValue(s);
  }

  lemma MoveReadsPairs(dev: Device, pairs: seq<Pair>, relative: bool)
    requires pairs != [] && PlainPairs(pairs)
    ensures Move(dev, PairsText(pairs), relative) == MoveNums(dev, Floats(Coordinates(pairs)), relative)
  {
    SplitPairs(pairs);
    PairsTextEnds(pairs);
  }

  /** The absolute or relative target of a pair. */
  function Target(dev: Device, vx: real, vy: real, relative: bool): Device {
    if relative then MoveTo(dev, dev.x + vx, dev.y + vy) else MoveTo(dev, vx, vy)
  }

  lemma MoveNumsLast(dev: Device, nums: seq<real>, relative: bool, vx: real, vy: real, n: nat)
    requires |nums| == 2 * n && n > 0 && nums[|nums| - 2] == vx && nums[|nums| - 1] == vy
    ensures MoveNums(dev, Some(nums), relative) == Target(dev, vx, vy, relative)
  {
  }

  /** A mover's pairs, executed whole: the pen ends where the last pair says. */
  lemma MovePairs(dev: Device, pairs: seq<Pair>, relative: bool)
    requires pairs != [] && PlainPairs(pairs)
    ensures var last := pairs[|pairs| - 1];
      PlainPair(last) && Move(dev, PairsText(pairs), relative) == Target(dev, Value(last.x), Value(last.y), relative)
  {
    MoveReadsPairs(dev, pairs, relative);
    FloatsPlain(pairs);
    var last := pairs[|pairs| - 1];
    assert PlainPair(last);
    MoveNumsLast(dev, Floats(Coordinates(pairs)).value, relative, Value(last.x), Value(last.y), |pairs|);
  }

  lemma TrimDigits(s: string)
    requires s != "" && IsDigit(s[|s| - 1])
    ensures TrimTerminator(s) == s && TrimTerminator(s + ";") == s && TrimComma(s) == s && TrimComma(s + ",") == s
  {
    assert (s + ";")[..|s|] == s && (s + ",")[..|s|] == s;
  }

  lemma ParamsOf(head: string, body: string, token: string)
    requires |head| == 2 && body != "" && Tidy(body) && IsDigit(body[|body| - 1])
    requires token == head + body + ";" || token == head + body + ","
    ensures Params(token) == body && Mnemonic(token) == Upper(head)
  {
    TrimDigits(body);
    StripTidy(body);
    assert Prefix(token, 2) == head;
    if token == head + body + ";" {
      assert Suffix(token, 2) == body + ";";
    } else {
      var t := body + ",";
      assert Suffix(token, 2) == t;
      assert TrimTerminator(t) == t;
      StripTidy(t);
    }
  }

  // ---- what is answered ---------------------------------------------------------------

  lemma OutputToken(op: string)
    requires IsOutput(op)
    ensures Mnemonic(op + ";") == op
  {
    assert Prefix(op + ";", 2) == op && Upper(op) == op;
  }

  /** The status byte: 1 for a lowered pen, 8 until it has been read, 16 always, 32 for a latched
      error. */
  lemma StatusBits(dev: Device)
    ensures var b := StatusByte(dev);
      && 16 <= b <= 57
      && (b % 2 == 1 <==> dev.penDown)
      && (b / 8 % 2 == 1 <==> dev.initialized)
      && b / 16 % 2 == 1
      && (b / 32 == 1 <==> dev.hpglError != 0 || dev.rs232Error != 0)
  {
  }

  /** The commanded position is where the pen is. */
  predicate Settled(dev: Device) { dev.commanded == (dev.x, dev.y) }

  lemma MoveSettles(dev: Device, params: string, relative: bool)
    requires Settled(dev)
    ensures Settled(Move(dev, params, relative))
  {
    hide Floats, Split, Clamp;
  }

  /** It stays so, and so both position queries give the same answer: what is asked for outside the
      clip is forgotten. */
  lemma CommandedIsActual(dev: Device, token: string)
    requires Settled(dev)
    ensures Execute(dev, token).Effect? ==> Settled(Execute(dev, token).dev)
    ensures Execute(dev, "OC;") == Execute(dev, "OA;")
  {
    hide Move, Params, Mnemonic, Float, IntParam, PositionText;
    OutputToken("OC");
    OutputToken("OA");
    assert "OC" + ";" == "OC;" && "OA" + ";" == "OA;";
    MoveSettles(dev.(penDown := Mnemonic(token) == "PD"), Params(token), false);
    MoveSettles(dev, Params(token), false);
    MoveSettles(dev, Params(token), true);
  }

  /** An error is reported once. */
  lemma ErrorIsReadOnce(dev: Device)
    ensures Execute(dev, "OE;") == Effect(dev.(hpglError := 0), Some(IntText(dev.hpglError)))
    ensures Execute(Execute(dev, "OE;").dev, "OE;").reply == Some("0")
  {
    hide Mnemonic;
    OutputToken("OE");
    assert "OE" + ";" == "OE;" && IntText(0) == "0";
  }

  /** The coordinate list of a mover can be followed: nothing at all, or whole pairs of numbers. */
  predicate Followed(params: string) {
    params == "" ||
    match Floats(Split(params, ','))
    case None => false
    case Some(nums) => |nums| >= 2 && |nums| % 2 == 0
  }

  /** Instructions that keep the error register as it is. */
  predicate KeepsError(op: string) {
    op == "SP" || op == "VS" || (IsOutput(op) && op != "OE")
  }

  lemma MoveError(dev: Device, params: string, relative: bool)
    ensures Move(dev, params, relative).hpglError == if Followed(params) then dev.hpglError else 2
  {
    hide Floats, Split, Clamp;
  }

  /** What is in the error register after an instruction: 2 behind a mover whose coordinates cannot
      be followed, 0 behind an initialisation and behind reading it, 1 behind anything unknown, and
      what was there before otherwise. */
  lemma ErrorExactly(dev: Device, token: string)
    ensures var e, op := Execute(dev, token), Mnemonic(token);
      e.Effect? ==>
        e.dev.hpglError ==
        (if IsMover(op) then (if Followed(Params(token)) then dev.hpglError else 2)
         else if op == "IN" || op == "DF" || op == "OE" then 0
         else if KeepsError(op) then dev.hpglError
         else 1)
  {
    hide Move, Params, Mnemonic, Float, IntParam, Followed;
    MoveError(dev.(penDown := Mnemonic(token) == "PD"), Params(token), false);
    MoveError(dev, Params(token), false);
    MoveError(dev, Params(token), true);
  }

  /** The velocity after an instruction: what a velocity instruction gives, the maximum behind a bare one
      and behind an initialisation, and otherwise what it was. */
  lemma VelocityExactly(dev: Device, token: string)
    ensures var e, op, params := Execute(dev, token), Mnemonic(token), Params(token);
      e.Effect? ==>
        e.dev.velocity ==
        (if op == "IN" || op == "DF" || (op == "VS" && params == "") then 38.1
         else if op == "VS" && Float(params).Some? then Float(params).value
         else dev.velocity)
  {
    hide Params, Mnemonic, Float, IntParam, Floats, Split;
  }

  /** Initialising lifts the pen, forgets error and velocity and makes the scaling points the clip;
      point, pen and clip stay. */
  lemma InitialisingResets(dev: Device, op: string)
    requires op == "IN" || op == "DF"
    ensures match Execute(dev, op + ";")
      case Crash => false
      case Effect(next, reply) =>
        && reply.None? && !next.penDown && next.hpglError == 0 && next.velocity == 38.1
        && next.x == dev.x && next.y == dev.y && next.pen == dev.pen && next.clip == next.p1p2 == dev.clip
  {
    InitToken(op);
    hide Mnemonic, Params, Move, Float, IntParam;
  }

  /** The two limit queries answer the scaling points and the clip, alike behind an initialisation. */
  lemma LimitsAnswered(dev: Device)
    ensures Execute(dev, "OP;") == Effect(dev, Some(ClipText(dev.p1p2)))
    ensures Execute(dev, "OH;") == Effect(dev, Some(ClipText(dev.clip)))
  {
    hide Mnemonic, Params, Move, Float, IntParam, ClipText;
    OutputToken("OP");
    OutputToken("OH");
    assert "OP" + ";" == "OP;" && "OH" + ";" == "OH;";
  }

  lemma InitToken(op: string)
    requires op == "IN" || op == "DF"
    ensures Mnemonic(op + ";") == op
  {
    assert Prefix(op + ";", 2) == op && Upper(op) == op;
  }

  /** The limits read back as the four numbers. */
  lemma ClipReadsBack(c: Clip)
    ensures Floats(Split(ClipText(c), ',')) == Some([c.xmin as real, c.ymin as real, c.xmax as real, c.ymax as real])
  {
    hide IntText, Float, Plain, Value;
    IntPairIsPlain(c.xmin, c.ymin);
    IntPairIsPlain(c.xmax, c.ymax);
    TwoPairs(Pair(IntText(c.xmin), IntText(c.ymin)), Pair(IntText(c.xmax), IntText(c.ymax)));
  }

  lemma TwoPairs(a: Pair, b: Pair)
    requires PlainPair(a) && PlainPair(b)
    ensures Floats(Split(a.x + "," + a.y + "," + b.x + "," + b.y, ',')) ==
      Some([Value(a.x), Value(a.y), Value(b.x), Value(b.y)])
  {
    hide Floats, Value, Plain, Split;
    var pairs := [a, b];
    assert pairs[1..] == [b] && PlainPairs(pairs);
    assert PairsText(pairs) == a.x + "," + a.y + "," + b.x + "," + b.y;
    SplitPairs(pairs);
    assert [b][1..] == [] && Coordinates([b]) == [b.x, b.y] + [] && Coordinates(pairs) == [a.x, a.y] + [b.x, b.y];
    FloatsOfTwo(b.x, b.y);
    FloatPlain(a.x);
    FloatPlain(a.y);
    FloatsPair(a.x, a.y, [b.x, b.y], Value(a.x), Value(a.y), [Value(b.x), Value(b.y)]);
    assert [Value(a.x), Value(a.y)] + [Value(b.x), Value(b.y)] == [Value(a.x), Value(a.y), Value(b.x), Value(b.y)];
  }

  lemma IntPairIsPlain(x: int, y: int)
    ensures PlainPair(Pair(IntText(x), IntText(y))) && Value(IntText(x)) == x as real && Value(IntText(y)) == y as real
    ensures Float(IntText(x)) == Some(x as real) && Float(IntText(y)) == Some(y as real)
  {
    IntRoundTrip(x);
    IntRoundTrip(y);
    FloatPlain(IntText(x));
    FloatPlain(IntText(y));
  }

  lemma FloatsOfTwo(x: string, y: string)
    requires Plain(x) && Plain(y)
    ensures Floats([x, y]) == Some([Value(x), Value(y)])
  {
    FloatPlain(x);
    FloatPlain(y);
    assert Floats([]) == Some([]);
    FloatsPair(x, y, [], Value(x), Value(y), []);
    assert [x, y] + [] == [x, y] && [Value(x), Value(y)] + [] == [Value(x), Value(y)];
  }
}
