/** Re-chunking over-long PD/PU coordinate lists into bounded instructions: what the splitter finds in
    them, and when the plot survives. */
module PdSplit {
  import opened Text
  import opened Chunking
  import opened Streamer
  import opened Numbers
  import opened Device
  import opened Hpgl

  const MAX_CHARS: nat := 240

  // ---- finding pairs ------------------------------------------------------------------

  /** Length of the integer at the front of `s`, 0 when there is none. */
  function IntPrefix(s: string): (n: nat)
    ensures n <= |s|
  {
    var j := if s != "" && s[0] == '-' then 1 else 0;
    var k := DigitsEnd(s, j);
    if k == j then 0 else k
  }

  predicate IntLit(s: string) { s != "" && IntPrefix(s) == |s| }

  /** Length of the integer pair at the front of `s`, 0 when there is none. */
  function MatchInts(s: string): (n: nat)
    ensures n <= |s|
  {
    var i := IntPrefix(s);
    if i == 0 || i == |s| || s[i] != ',' then 0
    else
      var j := IntPrefix(s[i + 1..]);
      if j == 0 then 0 else i + 1 + j
  }

  /** Non-overlapping integer pairs, left to right; everything between them is skipped. */
  function FindAll(s: string): seq<string>
    decreases |s|
  {
    if s == "" then []
    else
      var n := MatchInts(s);
      if n > 0 then [s[..n]] + FindAll(s[n..]) else FindAll(s[1..])
  }

  // ---- re-chunking --------------------------------------------------------------------

  /** The chunk loop: `n` counts the command's characters as its author does. */
  function Rechunk(head: string, pairs: seq<string>, chunk: seq<string>, n: nat, max: nat): seq<string>
    decreases |pairs|
  {
    if pairs == [] then if chunk == [] then [] else [head + Join(chunk, ',')]
    else
      var p := pairs[0];
      if n + |p| + 1 > max && chunk != []
      then [head + Join(chunk, ',')] + Rechunk(head, pairs[1..], [p], 2 + |p| + 1, max)
      else Rechunk(head, pairs[1..], chunk + [p], n + |p| + 1, max)
  }

  predicate IsLong(cmd: string, max: nat) { ("PD" <= cmd || "PU" <= cmd) && |cmd| > max }

  function SplitCommand(cmd: string, max: nat): seq<string> {
    if IsLong(cmd, max) then Rechunk(cmd[..2], FindAll(cmd), [], 2, max) else [cmd]
  }

  function SplitParts(parts: seq<string>, max: nat): seq<string>
    decreases |parts|
  {
    if parts == [] then [] else SplitCommand(parts[0], max) + SplitParts(parts[1..], max)
  }

  function SplitLong(text: string, max: nat): string { Join(SplitParts(Split(text, ';'), max), ';') }

  lemma SplitPartsNext(parts: seq<string>, i: nat, max: nat, out: seq<string>)
    requires i < |parts|
    ensures out + SplitParts(parts[i..], max) == (out + SplitCommand(parts[i], max)) + SplitParts(parts[i + 1..], max)
  {
    assert parts[i..][1..] == parts[i + 1..];
    var pieces, rest := SplitCommand(parts[i], max), SplitParts(parts[i + 1..], max);
    assert out + (pieces + rest) == (out + pieces) + rest;
  }

  lemma SplitPartsDone(parts: seq<string>, max: nat, out: seq<string>)
    ensures out + SplitParts(parts[|parts|..], max) == out
  {
    assert parts[|parts|..] == [] && out + [] == out;
  }

  /** Nothing is split but an over-long PD or PU. */
  lemma ShortStays(cmd: string, max: nat)
    requires !("PD" <= cmd || "PU" <= cmd) || |cmd| <= max
    ensures SplitCommand(cmd, max) == [cmd]
  {
  }

  /** The two nested loops of the original. */
  method SplitLongPd(text: string, max: nat) returns (r: string)
    ensures r == SplitLong(text, max)
  {
    var parts := Split(text, ';');
    var out: seq<string> := [];
    var i := 0;
    while i < |parts|
      invariant 0 <= i <= |parts|
      invariant SplitParts(parts, max) == out + SplitParts(parts[i..], max)
    {
      var cmd := parts[i];
      var pieces: seq<string>;
      if IsLong(cmd, max) {
        pieces := SplitOne(cmd, max);
      } else {
        pieces := [cmd];
        ShortStays(cmd, max);
      }
      SplitPartsNext(parts, i, max, out);
      out := out + pieces;
      i := i + 1;
    }
    SplitPartsDone(parts, max, out);
    r := Join(out, ';');
  }

  /** The inner loop, on one over-long command. */
  method SplitOne(cmd: string, max: nat) returns (out: seq<string>)
    requires IsLong(cmd, max)
    ensures out == SplitCommand(cmd, max)
  {
    var pairs := FindAll(cmd);
    var head := cmd[..2];
    var chunk: seq<string> := [];
    var n: nat, j: nat := 2, 0;
    out := [];
    while j < |pairs|
      invariant 0 <= j <= |pairs|
      invariant Rechunk(head, pairs, [], 2, max) == out + Rechunk(head, pairs[j..], chunk, n, max)
    {
      var pair := pairs[j];
      ghost var rest := pairs[j..];
      assert rest[1..] == pairs[j + 1..];
      if n + |pair| + 1 > max && chunk != [] {
        ghost var tail := Rechunk(head, pairs[j + 1..], [pair], 2 + |pair| + 1, max);
        assert out + ([head + Join(chunk, ',')] + tail) == (out + [head + Join(chunk, ',')]) + tail;
        out := out + [head + Join(chunk, ',')];
        chunk, n := [], 2;
        assert chunk + [pair] == [pair];
      }
      chunk := chunk + [pair];
      n := n + |pair| + 1;
      j := j + 1;
    }
    assert pairs[j..] == [];
    if chunk != [] {
      out := out + [head + Join(chunk, ',')];
    }
  }

  // ---- size ---------------------------------------------------------------------------

  function JoinedSize(parts: seq<string>): nat {
    if parts == [] then 0 else |parts[0]| + 1 + JoinedSize(parts[1..])
  }

  lemma {:induction false} JoinSize(parts: seq<string>, sep: char)
    requires parts != []
    ensures |Join(parts, sep)| + 1 == JoinedSize(parts)
  {
    if |parts| > 1 {
      JoinSize(parts[1..], sep);
    }
  }

  lemma {:induction false} JoinedSizeSnoc(parts: seq<string>, p: string)
    ensures JoinedSize(parts + [p]) == JoinedSize(parts) + |p| + 1
  {
    if parts != [] {
      assert (parts + [p])[1..] == parts[1..] + [p];
      JoinedSizeSnoc(parts[1..], p);
    } else {
      assert [p][1..] == [];
    }
  }

  ghost predicate PairsFit(pairs: seq<string>, max: nat) {
    forall i :: 0 <= i < |pairs| ==> |pairs[i]| + 2 <= max
  }

  lemma {:induction false} RechunkBound(head: string, pairs: seq<string>, chunk: seq<string>, n: nat, max: nat)
    requires |head| == 2 && n == 2 + JoinedSize(chunk) && n <= max + 1
    requires PairsFit(pairs, max)
    ensures forall i :: 0 <= i < |Rechunk(head, pairs, chunk, n, max)| ==>
      |Rechunk(head, pairs, chunk, n, max)[i]| <= max
    decreases |pairs|
  {
    if chunk != [] {
      JoinSize(chunk, ',');
    }
    if pairs != [] {
      var p := pairs[0];
      if n + |p| + 1 > max && chunk != [] {
        JoinedSizeSnoc([], p);
        assert [] + [p] == [p];
        RechunkBound(head, pairs[1..], [p], 2 + |p| + 1, max);
      } else {
        JoinedSizeSnoc(chunk, p);
        RechunkBound(head, pairs[1..], chunk + [p], n + |p| + 1, max);
      }
    }
  }

  /** After splitting no PD/PU command is longer than `max` characters plus its terminator,
      whatever the text, as long as each single pair fits on its own. */
  lemma {:induction false} SplitBound(parts: seq<string>, max: nat)
    requires max >= 2
    requires forall i :: 0 <= i < |parts| ==> PairsFit(FindAll(parts[i]), max)
    ensures forall i :: 0 <= i < |SplitParts(parts, max)| ==>
      (var cmd := SplitParts(parts, max)[i]; "PD" <= cmd || "PU" <= cmd ==> |cmd| <= max)
    decreases |parts|
  {
    if parts != [] {
      if IsLong(parts[0], max) {
        RechunkBound(parts[0][..2], FindAll(parts[0]), [], 2, max);
      }
      SplitBound(parts[1..], max);
    }
  }

  /** If every other command is short too, all of them are after splitting. */
  lemma {:induction false} SplitShort(parts: seq<string>, max: nat)
    requires max >= 2
    requires forall i :: 0 <= i < |parts| ==> PairsFit(FindAll(parts[i]), max)
    requires forall i :: 0 <= i < |parts| ==> "PD" <= parts[i] || "PU" <= parts[i] || |parts[i]| <= max
    ensures forall i :: 0 <= i < |SplitParts(parts, max)| ==> |SplitParts(parts, max)[i]| <= max
    decreases |parts|
  {
    if parts != [] {
      if IsLong(parts[0], max) {
        RechunkBound(parts[0][..2], FindAll(parts[0]), [], 2, max);
      }
      SplitShort(parts[1..], max);
    }
  }

  // ---- integer pairs ------------------------------------------------------------------

  ghost predicate IntPairs(pairs: seq<Pair>) {
    forall k :: 0 <= k < |pairs| ==> IntLit(pairs[k].x) && IntLit(pairs[k].y)
  }

  lemma IntIsPlain(s: string)
    requires IntLit(s)
    ensures Plain(s)
  {
  }

  lemma IntPairsArePlain(pairs: seq<Pair>)
    requires IntPairs(pairs)
    ensures PlainPairs(pairs)
  {
    forall k | 0 <= k < |pairs| ensures PlainPair(pairs[k]) {
      IntIsPlain(pairs[k].x);
      IntIsPlain(pairs[k].y);
    }
  }

  lemma IntPrefixStops(x: string, rest: string)
    requires IntLit(x) && (rest != "" ==> !IsDigit(rest[0]))
    ensures IntPrefix(x + rest) == |x|
  {
    var j := if x[0] == '-' then 1 else 0;
    if rest == "" {
      assert x + rest == x;
    } else {
      DigitsEndStops(x, rest, j);
    }
  }

  lemma MatchIntPair(p: Pair, rest: string)
    requires IntLit(p.x) && IntLit(p.y) && (rest != "" ==> !IsDigit(rest[0]))
    ensures MatchInts(PairText(p) + rest) == |PairText(p)|
  {
    var s := PairText(p) + rest;
    assert s == p.x + ("," + (p.y + rest));
    IntPrefixStops(p.x, "," + (p.y + rest));
    assert s[|p.x| + 1..] == p.y + rest;
    IntPrefixStops(p.y, rest);
  }

  function Texts(pairs: seq<Pair>): (r: seq<string>)
    ensures |r| == |pairs|
  {
    if pairs == [] then [] else [PairText(pairs[0])] + Texts(pairs[1..])
  }

  lemma {:induction false} JoinTexts(pairs: seq<Pair>)
    ensures Join(Texts(pairs), ',') == PairsText(pairs)
  {
    if |pairs| > 1 {
      JoinTexts(pairs[1..]);
      assert Texts(pairs)[1..] == Texts(pairs[1..]);
    } else if |pairs| == 1 {
      assert Texts(pairs[1..]) == [];
    }
  }

  lemma FindFront(p: Pair, rest: string)
    requires IntLit(p.x) && IntLit(p.y) && (rest != "" ==> !IsDigit(rest[0]))
    ensures FindAll(PairText(p) + rest) == [PairText(p)] + FindAll(rest)
  {
    MatchIntPair(p, rest);
    var s := PairText(p) + rest;
    var n := |PairText(p)|;
    assert s[..n] == PairText(p) && s[n..] == rest;
  }

  lemma {:induction false} FindAllPairs(pairs: seq<Pair>)
    requires IntPairs(pairs)
    ensures FindAll(PairsText(pairs)) == Texts(pairs)
  {
    if |pairs| == 1 {
      FindFront(pairs[0], "");
      assert PairText(pairs[0]) + "" == PairText(pairs[0]);
      assert Texts(pairs[1..]) == [];
    } else if |pairs| > 1 {
      var rest := PairsText(pairs[1..]);
      FindAllPairs(pairs[1..]);
      FindFront(pairs[0], "," + rest);
      SkipOne(",", rest);
      assert PairsText(pairs) == PairText(pairs[0]) + ("," + rest);
    }
  }

  lemma SkipOne(c: string, rest: string)
    requires |c| == 1 && c[0] != '-' && !IsDigit(c[0])
    ensures FindAll(c + rest) == FindAll(rest)
  {
    assert (c + rest)[1..] == rest;
    assert DigitsEnd(c + rest, 0) == 0;
  }

  lemma SkipHead(head: string, rest: string)
    requires head == "PD" || head == "PU"
    ensures FindAll(head + rest) == FindAll(rest)
  {
    assert head + rest == head[..1] + (head[1..] + rest);
    SkipOne(head[..1], head[1..] + rest);
    SkipOne(head[1..], rest);
  }

  lemma IntPrefixCut(s: string, m: nat)
    requires 0 < IntPrefix(s) <= m <= |s|
    ensures IntPrefix(s[..m]) == IntPrefix(s)
  {
    DigitsEndCut(s, if s[0] == '-' then 1 else 0, m);
  }

  /** The integer pair at the front of `s`. */
  function MatchedPair(s: string): (p: Pair)
    requires MatchInts(s) > 0
    ensures IntLit(p.x) && IntLit(p.y) && s[..MatchInts(s)] == PairText(p)
  {
    var i := IntPrefix(s);
    var t := s[i + 1..];
    var j := IntPrefix(t);
    IntPrefixCut(s, i);
    IntPrefixCut(t, j);
    assert s[..MatchInts(s)] == s[..i] + "," + t[..j];
    Pair(s[..i], t[..j])
  }

  /** The matches as pairs: each is an integer pair. */
  function FoundPairs(s: string): (r: seq<Pair>)
    ensures IntPairs(r) && Texts(r) == FindAll(s)
    decreases |s|
  {
    if s == "" then []
    else
      var n := MatchInts(s);
      if n > 0 then
        var rest := FoundPairs(s[n..]);
        assert ([MatchedPair(s)] + rest)[1..] == rest;
        [MatchedPair(s)] + rest
      else FoundPairs(s[1..])
  }

  /** The pairs as the chunk loop groups them. */
  function Groups(pairs: seq<Pair>, chunk: seq<Pair>, n: nat, max: nat): seq<seq<Pair>>
    decreases |pairs|
  {
    if pairs == [] then if chunk == [] then [] else [chunk]
    else
      var p := pairs[0];
      if n + |PairText(p)| + 1 > max && chunk != []
      then [chunk] + Groups(pairs[1..], [p], 2 + |PairText(p)| + 1, max)
      else Groups(pairs[1..], chunk + [p], n + |PairText(p)| + 1, max)
  }

  function Render(head: string, groups: seq<seq<Pair>>): seq<string> {
    if groups == [] then [] else [head + PairsText(groups[0])] + Render(head, groups[1..])
  }

  function Flatten(groups: seq<seq<Pair>>): seq<Pair> {
    if groups == [] then [] else groups[0] + Flatten(groups[1..])
  }

  lemma {:induction false} TextsSnoc(pairs: seq<Pair>, p: Pair)
    ensures Texts(pairs + [p]) == Texts(pairs) + [PairText(p)]
  {
    if pairs == [] {
      assert Texts([p][1..]) == [];
    } else {
      assert (pairs + [p])[1..] == pairs[1..] + [p];
      TextsSnoc(pairs[1..], p);
    }
  }

  lemma {:induction false} GroupsFlatten(pairs: seq<Pair>, chunk: seq<Pair>, n: nat, max: nat)
    ensures Flatten(Groups(pairs, chunk, n, max)) == chunk + pairs
    decreases |pairs|
  {
    if pairs == [] {
      if chunk != [] {
        assert Flatten([chunk]) == chunk + Flatten([]);
      }
    } else {
      var p := pairs[0];
      assert [p] + pairs[1..] == pairs;
      if n + |PairText(p)| + 1 > max && chunk != [] {
        GroupsFlatten(pairs[1..], [p], 2 + |PairText(p)| + 1, max);
        var rest := Groups(pairs[1..], [p], 2 + |PairText(p)| + 1, max);
        assert ([chunk] + rest)[1..] == rest;
      } else {
        GroupsFlatten(pairs[1..], chunk + [p], n + |PairText(p)| + 1, max);
        assert (chunk + [p]) + pairs[1..] == chunk + ([p] + pairs[1..]);
      }
    }
  }

  lemma RenderCons(head: string, group: seq<Pair>, rest: seq<seq<Pair>>)
    ensures Render(head, [group] + rest) == [head + PairsText(group)] + Render(head, rest)
  {
    assert ([group] + rest)[1..] == rest;
  }

  lemma {:induction false} RechunkGroups(head: string, pairs: seq<Pair>, chunk: seq<Pair>, n: nat, max: nat)
    ensures Rechunk(head, Texts(pairs), Texts(chunk), n, max) == Render(head, Groups(pairs, chunk, n, max))
    decreases |pairs|
  {
    JoinTexts(chunk);
    if pairs == [] {
      RenderCons(head, chunk, []);
      assert [chunk] + [] == [chunk];
    } else {
      var p := pairs[0];
      assert Texts(pairs)[1..] == Texts(pairs[1..]);
      if n + |PairText(p)| + 1 > max && chunk != [] {
        RechunkGroups(head, pairs[1..], [p], 2 + |PairText(p)| + 1, max);
        RenderCons(head, chunk, Groups(pairs[1..], [p], 2 + |PairText(p)| + 1, max));
        assert Texts([p]) == [PairText(p)] + Texts([p][1..]) == [PairText(p)];
      } else {
        RechunkGroups(head, pairs[1..], chunk + [p], n + |PairText(p)| + 1, max);
        TextsSnoc(chunk, p);
      }
    }
  }

  // ---- the plot is preserved ----------------------------------------------------------

  lemma FlattenPlain(groups: seq<seq<Pair>>)
    requires groups != [] && PlainPairs(Flatten(groups))
    ensures PlainPairs(groups[0]) && PlainPairs(Flatten(groups[1..]))
  {
    var all := Flatten(groups);
    assert forall k :: 0 <= k < |groups[0]| ==> all[k] == groups[0][k];
    var rest := Flatten(groups[1..]);
    assert forall k :: 0 <= k < |rest| ==> all[|groups[0]| + k] == rest[k];
  }

  lemma {:induction false} DrawGroups(t: Turtle, head: string, groups: seq<seq<Pair>>)
    requires head == "PD" || head == "PU"
    requires PlainPairs(Flatten(groups))
    ensures groups != [] || Prepared(t, head) == t ==>
      DrawAll(t, Render(head, groups)) == Visit(Prepared(t, head), Values(Flatten(groups)))
    decreases |groups|
  {
    if groups != [] {
      FlattenPlain(groups);
      var u := Prepared(t, head);
      var a, b := Values(groups[0]), Values(Flatten(groups[1..]));
      DrawMover(t, head, groups[0]);
      var first := Visit(u, a);
      VisitKeepsModes(u, a);
      DrawGroups(first.end, head, groups[1..]);
      assert Render(head, groups)[1..] == Render(head, groups[1..]);
      ValuesAppend(groups[0], Flatten(groups[1..]));
      EvenLength(groups[0]);
      VisitAppend(u, a, b);
    }
  }

  /** Visits tell their coordinates apart. */
  lemma {:induction false} VisitInjective(t: Turtle, a: seq<real>, b: seq<real>)
    requires |a| % 2 == 0 && |b| % 2 == 0 && Visit(t, a).marks == Visit(t, b).marks
    ensures a == b
    decreases |a|
  {
    if |a| >= 2 && |b| >= 2 {
      var u, v := StepTo(t, a[0], a[1]), StepTo(t, b[0], b[1]);
      assert Visit(t, a).marks[0] == MarkOf(u) && Visit(t, b).marks[0] == MarkOf(v);
      assert Visit(t, a).marks[1..] == Visit(u, a[2..]).marks && Visit(t, b).marks[1..] == Visit(v, b[2..]).marks;
      VisitInjective(u, a[2..], b[2..]);
      assert a == [a[0], a[1]] + a[2..] && b == [b[0], b[1]] + b[2..];
    }
  }

  /** The integer pairs found in a command, as numbers. */
  function FoundValues(cmd: string): (r: seq<real>)
    ensures |r| % 2 == 0
  {
    IntPairsArePlain(FoundPairs(cmd));
    EvenLength(FoundPairs(cmd));
    Values(FoundPairs(cmd))
  }

  /** A long command comes out as its found pairs, in groups. */
  lemma SplitGroups(cmd: string, max: nat) returns (groups: seq<seq<Pair>>)
    requires IsLong(cmd, max) && max >= 2
    ensures SplitCommand(cmd, max) == Render(cmd[..2], groups)
    ensures Flatten(groups) == FoundPairs(cmd) && PlainPairs(FoundPairs(cmd))
    ensures cmd[..2] == "PD" || cmd[..2] == "PU"
  {
    var pairs := FoundPairs(cmd);
    IntPairsArePlain(pairs);
    groups := Groups(pairs, [], 2, max);
    RechunkGroups(cmd[..2], pairs, [], 2, max);
    GroupsFlatten(pairs, [], 2, max);
    assert [] + pairs == pairs && Texts([]) == [];
  }

  /** What the pieces of a long command draw. */
  lemma SplitDraws(t: Turtle, cmd: string, max: nat)
    requires IsLong(cmd, max) && max >= 2
    ensures DrawAll(t, SplitCommand(cmd, max)) ==
      if FoundValues(cmd) == [] then Drawing([], t) else Visit(Prepared(t, cmd[..2]), FoundValues(cmd))
  {
    var pairs := FoundPairs(cmd);
    IntPairsArePlain(pairs);
    if pairs == [] {
      assert SplitCommand(cmd, max) == [];
    } else {
      var groups := SplitGroups(cmd, max);
      assert groups != [];
      DrawGroups(t, cmd[..2], groups);
    }
  }

  lemma LongOp(cmd: string, max: nat)
    requires IsLong(cmd, max) && max >= 2
    ensures OpOf(cmd) == cmd[..2] && IsMover(cmd[..2]) && Mnemonic(cmd) == cmd[..2]
  {
    assert cmd[..2] == "PD" || cmd[..2] == "PU";
    assert Upper(cmd[..2]) == cmd[..2];
    MoverOp(cmd);
  }

  /** Whether splitting a long command keeps what it draws: the pairs found must be the numbers
      the command holds.  A command without any found pair is dropped, which matters only when it
      would have drawn or would have changed the pen. */
  predicate KeepsPlot(t: Turtle, cmd: string)
    requires |cmd| >= 2
  {
    var nums := ParseNums(ArgsOf(cmd));
    if FoundValues(cmd) != [] then nums == Some(FoundValues(cmd))
    else nums.None? || |nums.value| % 2 == 1 || (nums.value == [] && Prepared(t, cmd[..2]) == t)
  }

  /** What a long command draws by itself. */
  lemma LongDraws(t: Turtle, cmd: string, max: nat)
    requires IsLong(cmd, max) && max >= 2
    ensures var nums := ParseNums(ArgsOf(cmd));
      Draw(t, cmd) == if nums.Some? && |nums.value| % 2 == 0
        then Visit(Prepared(t, cmd[..2]), nums.value) else Drawing([], t)
  {
    LongOp(cmd, max);
  }

  /** The exact condition, for every over-long command and from every state of the pen. */
  lemma PlotKeptExactly(t: Turtle, cmd: string, max: nat)
    requires IsLong(cmd, max) && max >= 2
    ensures DrawAll(t, SplitCommand(cmd, max)) == Draw(t, cmd) <==> KeepsPlot(t, cmd)
  {
    SplitDraws(t, cmd, max);
    LongDraws(t, cmd, max);
    var nums, found := ParseNums(ArgsOf(cmd)), FoundValues(cmd);
    var u := Prepared(t, cmd[..2]);
    if nums.Some? && |nums.value| % 2 == 0 {
      if found != [] && Visit(u, found) == Visit(u, nums.value) {
        VisitInjective(u, found, nums.value);
      } else if found == [] && Visit(u, nums.value).marks == [] {
        assert Visit(u, []).marks == [];
        VisitInjective(u, [], nums.value);
      }
    }
  }

  /** A command the splitter leaves alone, or one whose numbers it finds. */
  predicate Clean(cmd: string, max: nat) {
    IsLong(cmd, max) ==> FoundValues(cmd) != [] && ParseNums(ArgsOf(cmd)) == Some(FoundValues(cmd))
  }

  lemma CommandDrawsTheSame(t: Turtle, cmd: string, max: nat)
    requires Clean(cmd, max) && max >= 2
    ensures DrawAll(t, SplitCommand(cmd, max)) == Draw(t, cmd)
  {
    if IsLong(cmd, max) {
      PlotKeptExactly(t, cmd, max);
    } else {
      DrawOne(t, cmd);
    }
  }

  lemma DrawOne(t: Turtle, cmd: string)
    ensures DrawAll(t, [cmd]) == Draw(t, cmd)
  {
    var one := Draw(t, cmd);
    assert [cmd][1..] == [];
    assert one.marks + [] == one.marks;
  }

  lemma {:induction false} PartsDrawTheSame(t: Turtle, parts: seq<string>, max: nat)
    requires max >= 2 && forall i :: 0 <= i < |parts| ==> Clean(parts[i], max)
    ensures DrawAll(t, SplitParts(parts, max)) == DrawAll(t, parts)
    decreases |parts|
  {
    if parts != [] {
      CommandDrawsTheSame(t, parts[0], max);
      var first := Draw(t, parts[0]);
      PartsDrawTheSame(first.end, parts[1..], max);
      DrawAllAppend(t, SplitCommand(parts[0], max), SplitParts(parts[1..], max));
    }
  }

  // ---- the text level -----------------------------------------------------------------

  ghost predicate Undivided(parts: seq<string>) {
    forall i :: 0 <= i < |parts| ==> ';' !in parts[i]
  }

  lemma {:induction false} FindAllUndivided(s: string)
    requires ';' !in s
    ensures Undivided(FindAll(s))
    decreases |s|
  {
    if s != "" {
      var n := MatchInts(s);
      if n > 0 {
        FindAllUndivided(s[n..]);
      } else {
        FindAllUndivided(s[1..]);
      }
    }
  }

  lemma {:induction false} JoinUndivided(parts: seq<string>)
    requires Undivided(parts)
    ensures ';' !in Join(parts, ',')
  {
    if |parts| > 1 {
      JoinUndivided(parts[1..]);
    }
  }

  lemma {:induction false} RechunkUndivided(head: string, pairs: seq<string>, chunk: seq<string>, n: nat, max: nat)
    requires ';' !in head && Undivided(pairs) && Undivided(chunk)
    ensures Undivided(Rechunk(head, pairs, chunk, n, max))
    decreases |pairs|
  {
    JoinUndivided(chunk);
    if pairs != [] {
      var p := pairs[0];
      if n + |p| + 1 > max && chunk != [] {
        RechunkUndivided(head, pairs[1..], [p], 2 + |p| + 1, max);
      } else {
        RechunkUndivided(head, pairs[1..], chunk + [p], n + |p| + 1, max);
      }
    }
  }

  lemma {:induction false} SplitPartsUndivided(parts: seq<string>, max: nat)
    requires Undivided(parts) && max >= 2
    ensures Undivided(SplitParts(parts, max))
    decreases |parts|
  {
    if parts != [] {
      FindAllUndivided(parts[0]);
      if IsLong(parts[0], max) {
        RechunkUndivided(parts[0][..2], FindAll(parts[0]), [], 2, max);
      }
      SplitPartsUndivided(parts[1..], max);
    }
  }

  lemma {:induction false} SplitPartsSnoc(parts: seq<string>, last: string, max: nat)
    ensures SplitParts(parts + [last], max) == SplitParts(parts, max) + SplitCommand(last, max)
    decreases |parts|
  {
    if parts == [] {
      assert SplitParts([last], max) == SplitCommand(last, max) + SplitParts([last][1..], max);
    } else {
      assert (parts + [last])[1..] == parts[1..] + [last];
      SplitPartsSnoc(parts[1..], last, max);
    }
  }

  /** Splitting a text splits its instructions and leaves what follows the last terminator. */
  lemma SplitLongTokens(text: string, max: nat)
    requires max >= 2 && !IsLong(Tail(text), max)
    ensures Tokens(SplitLong(text, max)) == SplitParts(Tokens(text), max)
    ensures Tail(SplitLong(text, max)) == Tail(text)
  {
    var parts := Split(text, ';');
    assert parts == Tokens(text) + [Tail(text)];
    SplitPartsSnoc(Tokens(text), Tail(text), max);
    SplitPartsUndivided(parts, max);
    SplitJoin(SplitParts(parts, max), ';');
  }

  /** The plot of a text is preserved, point for point, pen for pen, in both coordinate modes. */
  lemma SplitPreservesPlot(text: string, max: nat)
    requires max >= 2 && !IsLong(Tail(text), max)
    requires forall i :: 0 <= i < |Tokens(text)| ==> Clean(Tokens(text)[i], max)
    ensures Plot(SplitLong(text, max)) == Plot(text)
  {
    SplitLongTokens(text, max);
    PartsDrawTheSame(HOME, Tokens(text), max);
  }

  // ---- exactly which commands survive -------------------------------------------------

  /** The coordinate text is a list of integer pairs. */
  ghost predicate IntList(body: string) {
    exists pairs :: IntPairs(pairs) && pairs != [] && body == PairsText(pairs)
  }

  lemma IntListFound(cmd: string, max: nat, pairs: seq<Pair>)
    requires IsLong(cmd, max) && max >= 2 && IntPairs(pairs) && cmd[2..] == PairsText(pairs)
    ensures FindAll(cmd) == Texts(pairs)
  {
    assert cmd[..2] == "PD" || cmd[..2] == "PU";
    assert cmd == cmd[..2] + PairsText(pairs);
    SkipHead(cmd[..2], PairsText(pairs));
    FindAllPairs(pairs);
  }

  /** Re-chunking keeps the coordinate text exactly when it is a list of integer pairs: a
      blank, a decimal point or a dangling coordinate anywhere is silently dropped. */
  lemma KeepsTextExactly(cmd: string, max: nat)
    requires IsLong(cmd, max) && max >= 2
    ensures Join(FindAll(cmd), ',') == cmd[2..] <==> IntList(cmd[2..])
  {
    if IntList(cmd[2..]) {
      var pairs :| IntPairs(pairs) && pairs != [] && cmd[2..] == PairsText(pairs);
      IntListFound(cmd, max, pairs);
      JoinTexts(pairs);
    } else {
      JoinTexts(FoundPairs(cmd));
    }
  }

  // ---- lists whose numbers are all found ----------------------------------------------

  function Spaces(n: nat): (s: string)
    ensures |s| == n && forall i :: 0 <= i < n ==> s[i] == ' '
  {
    seq(n, _ => ' ')
  }

  /** Pairs with blanks in front of some of them. */
  function SpacedText(pairs: seq<Pair>, gaps: seq<nat>): string
    requires |gaps| == |pairs|
  {
    if pairs == [] then ""
    else Spaces(gaps[0]) + PairText(pairs[0]) + (if |pairs| == 1 then "" else "," + SpacedText(pairs[1..], gaps[1..]))
  }

  lemma {:induction false} SkipSpaces(n: nat, rest: string)
    ensures FindAll(Spaces(n) + rest) == FindAll(rest)
  {
    if n == 0 {
      assert Spaces(0) + rest == rest;
    } else {
      assert Spaces(n) + rest == " " + (Spaces(n - 1) + rest);
      SkipOne(" ", Spaces(n - 1) + rest);
      SkipSpaces(n - 1, rest);
    }
  }

  lemma {:induction false} SpacedFound(pairs: seq<Pair>, gaps: seq<nat>)
    requires |gaps| == |pairs| && IntPairs(pairs)
    ensures FindAll(SpacedText(pairs, gaps)) == Texts(pairs)
  {
    if pairs != [] {
      var rest := if |pairs| == 1 then "" else "," + SpacedText(pairs[1..], gaps[1..]);
      assert Spaces(gaps[0]) + PairText(pairs[0]) + rest == Spaces(gaps[0]) + (PairText(pairs[0]) + rest);
      SkipSpaces(gaps[0], PairText(pairs[0]) + rest);
      FindFront(pairs[0], rest);
      if |pairs| > 1 {
        SpacedFound(pairs[1..], gaps[1..]);
        SkipOne(",", SpacedText(pairs[1..], gaps[1..]));
      } else {
        assert Texts(pairs[1..]) == [];
      }
    }
  }

  lemma {:induction false} DropSpacesAppend(a: string, b: string)
    ensures DropSpaces(a + b) == DropSpaces(a) + DropSpaces(b)
  {
    if a == "" {
      assert a + b == b;
    } else {
      assert (a + b)[1..] == a[1..] + b;
      DropSpacesAppend(a[1..], b);
    }
  }

  lemma {:induction false} DropAllSpaces(n: nat)
    ensures DropSpaces(Spaces(n)) == ""
  {
    if n > 0 {
      assert Spaces(n)[1..] == Spaces(n - 1);
      DropAllSpaces(n - 1);
    }
  }

  lemma PairHasNoSpaces(p: Pair)
    requires PlainPair(p)
    ensures DropSpaces(PairText(p)) == PairText(p)
  {
    PlainCharacters(p.x);
    PlainCharacters(p.y);
    NoSpacesToDrop(PairText(p));
  }

  lemma SpacedFront(n: nat, text: string, rest: string)
    requires DropSpaces(text) == text
    ensures DropSpaces(Spaces(n) + text + rest) == text + DropSpaces(rest)
  {
    hide DropSpaces;
    DropSpacesAppend(Spaces(n) + text, rest);
    DropSpacesAppend(Spaces(n), text);
    DropAllSpaces(n);
  }

  lemma {:induction false} SpacedDrops(pairs: seq<Pair>, gaps: seq<nat>)
    requires |gaps| == |pairs| && PlainPairs(pairs)
    ensures DropSpaces(SpacedText(pairs, gaps)) == PairsText(pairs)
  {
    if pairs != [] {
      var rest := if |pairs| == 1 then "" else "," + SpacedText(pairs[1..], gaps[1..]);
      assert PlainPair(pairs[0]);
      PairHasNoSpaces(pairs[0]);
      SpacedFront(gaps[0], PairText(pairs[0]), rest);
      if |pairs| > 1 {
        SpacedDrops(pairs[1..], gaps[1..]);
        CommaKept(SpacedText(pairs[1..], gaps[1..]));
      }
    }
  }

  lemma CommaKept(s: string)
    ensures DropSpaces("," + s) == "," + DropSpaces(s)
  {
    assert ("," + s)[1..] == s;
  }

  lemma {:induction false} SpacedEnds(pairs: seq<Pair>, gaps: seq<nat>)
    requires |gaps| == |pairs| && PlainPairs(pairs) && pairs != []
    ensures var t := SpacedText(pairs, gaps); t != "" && IsDigit(t[|t| - 1])
  {
    assert PlainPair(pairs[0]);
    PlainCharacters(pairs[0].y);
    if |pairs| > 1 {
      SpacedEnds(pairs[1..], gaps[1..]);
    }
  }

  lemma {:induction false} StripSpaces(n: nat, t: string)
    ensures StripLeft(Spaces(n) + t) == StripLeft(t)
  {
    if n == 0 {
      assert Spaces(0) + t == t;
    } else {
      assert (Spaces(n) + t)[1..] == Spaces(n - 1) + t;
      StripSpaces(n - 1, t);
    }
  }

  /** The blanks behind the head are stripped. */
  lemma ArgsBehindSpaces(head: string, n: nat, tight: string)
    requires head == "PD" || head == "PU"
    requires tight != "" && Tidy(tight)
    ensures ArgsOf(head + (Spaces(n) + tight)) == tight && Strip(tight) == tight
  {
    var body := Spaces(n) + tight;
    var cmd := head + body;
    assert cmd[0] == head[0] && cmd[|cmd| - 1] == tight[|tight| - 1];
    StripTidy(cmd);
    assert Suffix(cmd, 2) == body;
    StripSpaces(n, tight);
    StripTidy(tight);
  }

  /** What follows the first blanks of a spaced list. */
  function Tight(pairs: seq<Pair>, gaps: seq<nat>): string
    requires |gaps| == |pairs| && pairs != []
  {
    PairText(pairs[0]) + (if |pairs| == 1 then "" else "," + SpacedText(pairs[1..], gaps[1..]))
  }

  lemma TightShape(pairs: seq<Pair>, gaps: seq<nat>)
    requires |gaps| == |pairs| && PlainPairs(pairs) && pairs != []
    ensures var tight := Tight(pairs, gaps);
      SpacedText(pairs, gaps) == Spaces(gaps[0]) + tight && tight != "" && Tidy(tight)
  {
    TightText(pairs, gaps);
    SpacedEnds(pairs, gaps);
    TightFront(pairs, gaps);
    TidyEnd(Spaces(gaps[0]), Tight(pairs, gaps));
  }

  lemma TightFront(pairs: seq<Pair>, gaps: seq<nat>)
    requires |gaps| == |pairs| && PlainPairs(pairs) && pairs != []
    ensures var tight := Tight(pairs, gaps); tight != "" && !IsBlank(tight[0])
  {
    hide SpacedText;
    assert PlainPair(pairs[0]);
    PlainCharacters(pairs[0].x);
    assert Tight(pairs, gaps)[0] == pairs[0].x[0];
  }

  lemma TidyEnd(front: string, tight: string)
    requires tight != "" && !IsBlank(tight[0]) && IsDigit((front + tight)[|front + tight| - 1])
    ensures Tidy(tight)
  {
  }

  lemma TightText(pairs: seq<Pair>, gaps: seq<nat>)
    requires |gaps| == |pairs| && pairs != []
    ensures SpacedText(pairs, gaps) == Spaces(gaps[0]) + Tight(pairs, gaps)
  {
  }

  /** The parameters of a spaced list: the blanks in front are stripped, the others dropped. */
  lemma SpacedArgs(head: string, pairs: seq<Pair>, gaps: seq<nat>)
    requires head == "PD" || head == "PU"
    requires |gaps| == |pairs| && PlainPairs(pairs) && pairs != []
    ensures var args := ArgsOf(head + SpacedText(pairs, gaps));
      Strip(args) == args && args != "" && DropSpaces(args) == PairsText(pairs)
  {
    var tight := Tight(pairs, gaps);
    TightShape(pairs, gaps);
    ArgsBehindSpaces(head, gaps[0], tight);
    SpacedDrops(pairs, gaps);
    DropSpacesBehind(gaps[0], tight);
  }

  lemma DropSpacesBehind(n: nat, s: string)
    ensures DropSpaces(Spaces(n) + s) == DropSpaces(s)
  {
    DropSpacesAppend(Spaces(n), s);
    DropAllSpaces(n);
  }

  lemma SpacedParses(head: string, pairs: seq<Pair>, gaps: seq<nat>)
    requires head == "PD" || head == "PU"
    requires |gaps| == |pairs| && PlainPairs(pairs) && pairs != []
    ensures ParseNums(ArgsOf(head + SpacedText(pairs, gaps))) == Some(Values(pairs))
  {
    SpacedArgs(head, pairs, gaps);
    SplitPairs(pairs);
    ParametersPlain(pairs);
  }

  lemma PairTextInjective(p: Pair, q: Pair)
    requires ',' !in p.x && ',' !in q.x && PairText(p) == PairText(q)
    ensures p == q
  {
    var t := PairText(p);
    assert t[|p.x|] == ',' && t[|q.x|] == ',';
    forall k | 0 <= k < |p.x| ensures t[k] != ',' {
      assert t[k] == p.x[k];
    }
    forall k | 0 <= k < |q.x| ensures t[k] != ',' {
      assert t[k] == q.x[k];
    }
    assert p.x == t[..|p.x|] && p.y == t[|p.x| + 1..] && q.x == t[..|q.x|] && q.y == t[|q.x| + 1..];
  }

  lemma {:induction false} TextsInjective(a: seq<Pair>, b: seq<Pair>)
    requires IntPairs(a) && IntPairs(b) && Texts(a) == Texts(b)
    ensures a == b
  {
    if a != [] {
      assert Texts(a)[0] == Texts(b)[0] && Texts(a)[1..] == Texts(a[1..]) && Texts(b)[1..] == Texts(b[1..]);
      IntIsPlain(a[0].x);
      IntIsPlain(b[0].x);
      PlainCharacters(a[0].x);
      PlainCharacters(b[0].x);
      PairTextInjective(a[0], b[0]);
      TextsInjective(a[1..], b[1..]);
      assert a == [a[0]] + a[1..] && b == [b[0]] + b[1..];
    }
  }

  /** Integer pairs, with or without blanks behind the head and the separating commas. */
  lemma SpacedListIsClean(head: string, pairs: seq<Pair>, gaps: seq<nat>, max: nat)
    requires head == "PD" || head == "PU"
    requires |gaps| == |pairs| && IntPairs(pairs) && pairs != []
    ensures Clean(head + SpacedText(pairs, gaps), max)
  {
    var cmd := head + SpacedText(pairs, gaps);
    IntPairsArePlain(pairs);
    SkipHead(head, SpacedText(pairs, gaps));
    SpacedFound(pairs, gaps);
    TextsInjective(FoundPairs(cmd), pairs);
    SpacedParses(head, pairs, gaps);
  }

  // ---- a decimal point changes the plot -----------------------------------------------

  lemma {:induction false} SkipDigits(digits: string, rest: string)
    requires AllDigits(digits) && rest != "" && rest[0] == '.'
    ensures FindAll(digits + rest) == FindAll(rest)
    decreases |digits|
  {
    var s := digits + rest;
    if digits == "" {
      assert s == rest;
    } else {
      AllDigitsEnd(digits, 0);
      DigitsEndStops(digits, rest, 0);
      assert MatchInts(s) == 0;
      assert s[1..] == digits[1..] + rest;
      SkipDigits(digits[1..], rest);
    }
  }

  /** Of `a.b,y` only `b,y` is found. */
  lemma DecimalFound(head: string, a: string, b: string, y: string, rest: string)
    requires head == "PD" || head == "PU"
    requires AllDigits(a) && AllDigits(b) && b != "" && IntLit(y) && (rest != "" ==> !IsDigit(rest[0]))
    ensures FindAll(head + (a + "." + b + "," + y + rest)) == [b + "," + y] + FindAll(rest)
  {
    AllDigitsEnd(b, 0);
    var kept := PairText(Pair(b, y)) + rest;
    assert a + "." + b + "," + y + rest == a + ("." + kept);
    SkipHead(head, a + ("." + kept));
    SkipDigits(a, "." + kept);
    SkipOne(".", kept);
    FindFront(Pair(b, y), rest);
  }

  /** What the splitter sees of a coordinate in front of a comma: the digits behind its point. */
  function LastDigits(x: string): string {
    var k := DigitsEnd(x, if x != "" && x[0] == '-' then 1 else 0);
    if k < |x| then x[k + 1..] else x
  }

  lemma LastDigitsShape(x: string) returns (sign: string, a: string)
    requires Plain(x)
    ensures IntLit(LastDigits(x))
    ensures AllDigits(a) && (sign == "" || sign == "-") && a != ""
    ensures x == LastDigits(x) || x == sign + a + "." + LastDigits(x)
  {
    var j := if x[0] == '-' then 1 else 0;
    var k := DigitsEnd(x, j);
    DigitsEndMeaning(x, j);
    sign, a := x[..j], x[j..k];
    if k < |x| {
      DigitsEndMeaning(x, k + 1);
      var b := x[k + 1..];
      AllDigitsEnd(b, 0);
      assert x == x[..j] + x[j..k] + [x[k]] + b;
    }
  }

  lemma SkipSigned(sign: string, a: string, rest: string)
    requires (sign == "" || sign == "-") && AllDigits(a) && a != "" && rest != "" && rest[0] == '.'
    ensures FindAll(sign + a + rest) == FindAll(rest)
  {
    if sign == "-" {
      var s := sign + a + rest;
      assert s == "-" + (a + rest) && s[1..] == a + rest;
      AllDigitsEnd(a, 0);
      DigitsEndStops(a, rest, 0);
      DigitsShift(s, a + rest, 1, 0);
      assert MatchInts(s) == 0;
    } else {
      assert sign + a + rest == a + rest;
    }
    SkipDigits(a, rest);
  }

  lemma PairSeen(p: Pair, rest: string)
    requires Plain(p.x) && IntLit(p.y) && (rest != "" ==> !IsDigit(rest[0]))
    ensures IntLit(LastDigits(p.x))
    ensures FindAll(PairText(p) + rest) == [PairText(Pair(LastDigits(p.x), p.y))] + FindAll(rest)
  {
    hide FindAll, Plain, LastDigits, IntLit;
    var sign, a := LastDigitsShape(p.x);
    var seen := Pair(LastDigits(p.x), p.y);
    if p.x == seen.x {
      FindFront(p, rest);
    } else {
      var kept := PairText(seen) + rest;
      assert PairText(p) + rest == sign + a + ("." + kept);
      SkipSigned(sign, a, "." + kept);
      SkipOne(".", kept);
      FindFront(seen, rest);
    }
  }

  /** The pairs the splitter finds in a list of plain pairs with whole second coordinates. */
  function Seen(pairs: seq<Pair>): (r: seq<Pair>)
    ensures |r| == |pairs| && forall k :: 0 <= k < |r| ==> r[k] == Pair(LastDigits(pairs[k].x), pairs[k].y)
  {
    if pairs == [] then [] else [Pair(LastDigits(pairs[0].x), pairs[0].y)] + Seen(pairs[1..])
  }

  ghost predicate WholeOrdinates(pairs: seq<Pair>) {
    forall k :: 0 <= k < |pairs| ==> Plain(pairs[k].x) && IntLit(pairs[k].y)
  }

  lemma SeenNext(pairs: seq<Pair>)
    requires |pairs| > 1 && Plain(pairs[0].x) && IntLit(pairs[0].y)
    requires FindAll(PairsText(pairs[1..])) == Texts(Seen(pairs[1..]))
    ensures FindAll(PairsText(pairs)) == Texts(Seen(pairs)) && IntLit(LastDigits(pairs[0].x))
  {
    hide FindAll, IntLit, Plain, LastDigits, PairText;
    var rest := PairsText(pairs[1..]);
    PairSeen(pairs[0], "," + rest);
    SkipOne(",", rest);
    assert PairsText(pairs) == PairText(pairs[0]) + ("," + rest);
    assert Seen(pairs)[1..] == Seen(pairs[1..]);
  }

  lemma {:induction false} SeenFound(pairs: seq<Pair>)
    requires WholeOrdinates(pairs)
    ensures FindAll(PairsText(pairs)) == Texts(Seen(pairs)) && IntPairs(Seen(pairs))
  {
    hide IntLit, Plain, LastDigits, PairText;
    if |pairs| == 1 {
      PairSeen(pairs[0], "");
      assert PairText(pairs[0]) + "" == PairText(pairs[0]);
      assert Texts(Seen(pairs)[1..]) == [];
    } else if |pairs| > 1 {
      SeenFound(pairs[1..]);
      SeenNext(pairs);
      assert Seen(pairs)[1..] == Seen(pairs[1..]);
    }
  }

  lemma {:induction false} ValuesDiffer(a: seq<Pair>, b: seq<Pair>)
    requires PlainPairs(a) && PlainPairs(b) && |a| == |b|
    ensures Values(a) == Values(b) <==>
      forall k :: 0 <= k < |a| ==>
        PlainPair(a[k]) && PlainPair(b[k]) && Value(a[k].x) == Value(b[k].x) && Value(a[k].y) == Value(b[k].y)
  {
    hide Value, Plain;
    if a != [] {
      ValuesDiffer(a[1..], b[1..]);
      assert PlainPair(a[0]) && PlainPair(b[0]);
      var va, vb := Values(a), Values(b);
      assert va[2..] == Values(a[1..]) && vb[2..] == Values(b[1..]);
      assert va == va[..2] + va[2..] && vb == vb[..2] + vb[2..];
      assert forall k :: 0 < k < |a| ==> a[k] == a[1..][k - 1] && b[k] == b[1..][k - 1];
    }
  }

  lemma WholeArePlain(pairs: seq<Pair>)
    requires WholeOrdinates(pairs)
    ensures PlainPairs(pairs)
  {
    forall k | 0 <= k < |pairs| ensures PlainPair(pairs[k]) {
      IntIsPlain(pairs[k].y);
    }
  }

  /** What is found in such a list, and what it holds. */
  lemma FieldsFound(head: string, pairs: seq<Pair>)
    requires (head == "PD" || head == "PU") && pairs != [] && WholeOrdinates(pairs)
    ensures PlainPairs(pairs) && PlainPairs(Seen(pairs))
    ensures FoundValues(head + PairsText(pairs)) == Values(Seen(pairs))
    ensures ParseNums(ArgsOf(head + PairsText(pairs))) == Some(Values(pairs))
  {
    hide IntLit, Plain, FindAll, ParseNums, ArgsOf;
    var cmd := head + PairsText(pairs);
    WholeArePlain(pairs);
    SkipHead(head, PairsText(pairs));
    SeenFound(pairs);
    IntPairsArePlain(Seen(pairs));
    TextsInjective(FoundPairs(cmd), Seen(pairs));
    MoverReads(head, pairs);
    ParsePairs(pairs);
  }

  /** The exact condition on the fields, for over-long lists of plain pairs with whole second
      coordinates: the plot is kept, from every state, if and only if every first coordinate is
      worth what stands behind its point. */
  lemma FieldsKeptExactly(t: Turtle, head: string, pairs: seq<Pair>, max: nat)
    requires (head == "PD" || head == "PU") && pairs != [] && WholeOrdinates(pairs)
    requires IsLong(head + PairsText(pairs), max) && max >= 2
    ensures DrawAll(t, SplitCommand(head + PairsText(pairs), max)) == Draw(t, head + PairsText(pairs)) <==>
      forall k :: 0 <= k < |pairs| ==>
        Plain(LastDigits(pairs[k].x)) && Value(LastDigits(pairs[k].x)) == Value(pairs[k].x)
  {
    hide DrawAll, Draw, SplitCommand, FoundValues, ParseNums, Plain, Value, LastDigits, IntLit;
    var cmd := head + PairsText(pairs);
    FieldsFound(head, pairs);
    PlotKeptExactly(t, cmd, max);
    ValuesDiffer(Seen(pairs), pairs);
    EvenLength(Seen(pairs));
    assert forall k :: 0 <= k < |pairs| ==> PlainPair(Seen(pairs)[k]) && PlainPair(pairs[k]);
  }

  lemma DecimalScans(a: string, b: string)
    requires AllDigits(a) && AllDigits(b)
    ensures var s := a + "." + b;
      && DigitsEnd(s, 0) == |a| && DigitsEnd(s, |a| + 1) == |s|
      && s[|a|] == '.' && s[..|a|] == a && s[|a| + 1..] == b
  {
    var s := a + "." + b;
    AllDigitsEnd(a, 0);
    AllDigitsEnd(b, 0);
    assert s == a + ("." + b);
    DigitsEndStops(a, "." + b, 0);
    DigitsShift(s, b, |a| + 1, 0);
  }

  lemma WholeValue(b: string)
    requires AllDigits(b) && b != ""
    ensures IntLit(b) && Plain(b) && Value(b) == NatValue(b) as real
  {
    AllDigitsEnd(b, 0);
    assert IsDigit(b[0]) && b[..|b|] == b;
  }

  lemma DecimalValue(a: string, b: string)
    requires AllDigits(a) && AllDigits(b) && a != "" && b != ""
    ensures Plain(a + "." + b) && Value(a + "." + b) == NatValue(a) as real + Fraction(b)
  {
    var s := a + "." + b;
    DecimalScans(a, b);
    assert s[0] == a[0] && IsDigit(s[0]);
  }

  lemma PairsTextCons(p: Pair, rest: seq<Pair>)
    ensures PairsText([p] + rest) == PairText(p) + if rest == [] then "" else "," + PairsText(rest)
  {
    assert ([p] + rest)[1..] == rest;
  }

  /** An over-long list of plain pairs that begins with a decimal: unless the decimal and its
      fraction digits are the same number, splitting changes what is drawn, from every state. */
  lemma DecimalChangesPlot(t: Turtle, head: string, a: string, b: string, y: string, rest: seq<Pair>, max: nat)
    requires head == "PD" || head == "PU"
    requires AllDigits(a) && AllDigits(b) && a != "" && b != "" && IntLit(y) && PlainPairs(rest)
    requires IsLong(head + PairsText([Pair(a + "." + b, y)] + rest), max) && max >= 2
    requires NatValue(b) as real != NatValue(a) as real + Fraction(b)
    ensures var cmd := head + PairsText([Pair(a + "." + b, y)] + rest);
      DrawAll(t, SplitCommand(cmd, max)) != Draw(t, cmd)
  {
    var first := Pair(a + "." + b, y);
    var pairs := [first] + rest;
    var cmd := head + PairsText(pairs);
    DecimalValue(a, b);
    WholeValue(b);
    IntIsPlain(y);
    var tail := if rest == [] then "" else "," + PairsText(rest);
    PairsTextCons(first, rest);
    assert PairsText(pairs) == a + "." + b + "," + y + tail;
    DecimalFound(head, a, b, y, tail);
    DecimalFirst(cmd, Pair(b, y));
    assert PlainPair(pairs[0]);
    MoverReads(head, pairs);
    ParsePairs(pairs);
    PlotKeptExactly(t, cmd, max);
  }

  lemma DecimalFirst(cmd: string, p: Pair)
    requires IntLit(p.x) && IntLit(p.y) && FindAll(cmd) != [] && FindAll(cmd)[0] == PairText(p)
    ensures Plain(p.x) && FoundValues(cmd) != [] && FoundValues(cmd)[0] == Value(p.x)
  {
    var pairs := FoundPairs(cmd);
    assert Texts(pairs)[0] == PairText(pairs[0]);
    IntIsPlain(p.x);
    IntIsPlain(pairs[0].x);
    PlainCharacters(p.x);
    PlainCharacters(pairs[0].x);
    PairTextInjective(pairs[0], p);
    IntPairsArePlain(pairs);
  }

  lemma {:induction false} PairsLength(pairs: seq<Pair>, n: nat)
    requires forall i :: 0 <= i < |pairs| ==> |PairText(pairs[i])| == n
    ensures |PairsText(pairs)| + (if pairs == [] then 0 else 1) == |pairs| * (n + 1)
  {
    if |pairs| > 1 {
      PairsLength(pairs[1..], n);
      assert |pairs| * (n + 1) == (|pairs| - 1) * (n + 1) + (n + 1);
    }
  }

  function FortyPoints(): seq<Pair> { seq(40, _ => Pair("1.5", "7")) }

  lemma FortyIsLong()
    ensures IsLong("PD" + PairsText(FortyPoints()), MAX_CHARS)
  {
    PairsLength(FortyPoints(), 5);
  }

  lemma OneAndAHalf()
    ensures AllDigits("1") && AllDigits("5") && IntLit("7") && "1" + "." + "5" == "1.5" && Plain("1.5") && Plain("7")
    ensures NatValue("5") as real != NatValue("1") as real + Fraction("5")
  {
    SmallValues();
    DecimalValue("1", "5");
    assert "1" + "." + "5" == "1.5";
    IntIsPlain("7");
  }

  /** A payload of forty points at 1.5,7: split, it is drawn at 5,7. */
  lemma ShippedSplitChangesDecimals(text: string)
    requires text == "PD" + PairsText(seq(40, _ => Pair("1.5", "7"))) + ";"
    ensures Plot(SplitLong(text, MAX_CHARS)) != Plot(text)
  {
    hide Plot, SplitLong, Plain, IntLit, PairsText, NatValue, Fraction, IsLong, SplitCommand, Draw, DrawAll;
    var first, rest := Pair("1.5", "7"), seq(39, _ => Pair("1.5", "7"));
    var pairs := FortyPoints();
    assert pairs == [first] + rest;
    OneAndAHalf();
    FortyIsLong();
    var cmd := "PD" + PairsText(pairs);
    DecimalChangesPlot(HOME, "PD", "1", "5", "7", rest, MAX_CHARS);
    PairsTextEnds(pairs);
    OneCommand(cmd, MAX_CHARS);
  }

  lemma SmallValues()
    ensures NatValue("1") == 1 && NatValue("5") == 5 && Fraction("5") == 0.5
  {
    assert "1"[..0] == "" && "5"[..0] == "" && "5"[1..] == "";
  }

  /** The plot of a text of one command. */
  lemma OneCommand(cmd: string, max: nat)
    requires ';' !in cmd && max >= 2
    ensures Plot(cmd + ";") == Draw(HOME, cmd) && Plot(SplitLong(cmd + ";", max)) ==
      DrawAll(HOME, SplitCommand(cmd, max))
  {
    OneToken(cmd);
    SplitLongTokens(cmd + ";", max);
    DrawOne(HOME, cmd);
    SplitOneToken(cmd, max);
  }

  lemma SplitOneToken(cmd: string, max: nat)
    ensures SplitParts([cmd], max) == SplitCommand(cmd, max)
  {
    assert [cmd][1..] == [];
    assert SplitCommand(cmd, max) + [] == SplitCommand(cmd, max);
  }

  // ---- idempotence --------------------------------------------------------------------

  ghost predicate Stable(cmd: string, max: nat) { SplitCommand(cmd, max) == [cmd] }

  ghost predicate AllStable(cmds: seq<string>, max: nat) {
    forall i :: 0 <= i < |cmds| ==> Stable(cmds[i], max)
  }

  lemma FindOnePair(head: string, p: Pair)
    requires (head == "PD" || head == "PU") && IntLit(p.x) && IntLit(p.y)
    ensures FindAll(head + PairText(p)) == [PairText(p)]
  {
    SkipHead(head, PairText(p));
    FindAllPairs([p]);
    assert PairsText([p]) == PairText(p);
    assert Texts([p]) == [PairText(p)] + Texts([p][1..]);
  }

  lemma RechunkOne(head: string, pair: string, max: nat)
    ensures Rechunk(head, [pair], [], 2, max) == [head + pair]
  {
    assert [pair][1..] == [] && [] + [pair] == [pair];
    assert Rechunk(head, [pair], [], 2, max) == Rechunk(head, [], [pair], 2 + |pair| + 1, max);
  }

  lemma PairIsStable(head: string, p: Pair, max: nat)
    requires (head == "PD" || head == "PU") && IntLit(p.x) && IntLit(p.y)
    ensures Stable(head + PairText(p), max)
  {
    FindOnePair(head, p);
    RechunkOne(head, PairText(p), max);
    assert (head + PairText(p))[..2] == head;
  }

  lemma StableCons(head: string, group: seq<Pair>, rest: seq<seq<Pair>>, max: nat)
    requires Stable(head + PairsText(group), max) && AllStable(Render(head, rest), max)
    ensures AllStable(Render(head, [group] + rest), max)
  {
    RenderCons(head, group, rest);
  }

  lemma TextsSize(chunk: seq<Pair>, p: Pair)
    ensures JoinedSize(Texts(chunk + [p])) == JoinedSize(Texts(chunk)) + |PairText(p)| + 1
  {
    TextsSnoc(chunk, p);
    JoinedSizeSnoc(Texts(chunk), PairText(p));
  }

  lemma ChunkIsStable(head: string, chunk: seq<Pair>, n: nat, max: nat)
    requires (head == "PD" || head == "PU") && chunk != [] && IntPairs(chunk)
    requires n == 2 + JoinedSize(Texts(chunk)) && (|chunk| == 1 || n <= max)
    ensures Stable(head + PairsText(chunk), max)
  {
    if |chunk| == 1 {
      PairIsStable(head, chunk[0], max);
    } else {
      JoinTexts(chunk);
      JoinSize(Texts(chunk), ',');
    }
  }

  /** A group the chunk loop may emit. */
  ghost predicate Fitting(group: seq<Pair>, max: nat) {
    group != [] && IntPairs(group) && (|group| == 1 || 2 + JoinedSize(Texts(group)) <= max)
  }

  ghost predicate AllFitting(groups: seq<seq<Pair>>, max: nat) {
    groups == [] || (Fitting(groups[0], max) && AllFitting(groups[1..], max))
  }

  lemma FittingGrows(chunk: seq<Pair>, p: Pair, n: nat, max: nat)
    requires IntPairs(chunk) && IntLit(p.x) && IntLit(p.y)
    requires n == 2 + JoinedSize(Texts(chunk)) && (n + |PairText(p)| + 1 <= max || chunk == [])
    ensures Fitting(chunk + [p], max) && n + |PairText(p)| + 1 == 2 + JoinedSize(Texts(chunk + [p]))
  {
    TextsSize(chunk, p);
  }

  lemma {:induction false} GroupsFit(pairs: seq<Pair>, chunk: seq<Pair>, n: nat, max: nat)
    requires IntPairs(pairs) && n == 2 + JoinedSize(Texts(chunk)) && (chunk != [] ==> Fitting(chunk, max))
    ensures AllFitting(Groups(pairs, chunk, n, max), max)
    decreases |pairs|
  {
    hide IntLit, PairText;
    if pairs != [] {
      var p, rest := pairs[0], pairs[1..];
      var m := |PairText(p)| + 1;
      if n + m > max && chunk != [] {
        FittingGrows([], p, 2, max);
        assert [] + [p] == [p];
        GroupsFit(rest, [p], 2 + m, max);
        assert ([chunk] + Groups(rest, [p], 2 + m, max))[1..] == Groups(rest, [p], 2 + m, max);
      } else {
        FittingGrows(chunk, p, n, max);
        GroupsFit(rest, chunk + [p], n + m, max);
      }
    }
  }

  lemma {:induction false} RenderStable(head: string, groups: seq<seq<Pair>>, max: nat)
    requires (head == "PD" || head == "PU") && AllFitting(groups, max)
    ensures AllStable(Render(head, groups), max)
  {
    if groups != [] {
      ChunkIsStable(head, groups[0], 2 + JoinedSize(Texts(groups[0])), max);
      RenderStable(head, groups[1..], max);
      StableCons(head, groups[0], groups[1..], max);
      assert [groups[0]] + groups[1..] == groups;
    }
  }

  lemma CommandPiecesStable(cmd: string, max: nat)
    requires max >= 2
    ensures AllStable(SplitCommand(cmd, max), max)
  {
    if IsLong(cmd, max) {
      var pairs := FoundPairs(cmd);
      RechunkGroups(cmd[..2], pairs, [], 2, max);
      GroupsFit(pairs, [], 2, max);
      RenderStable(cmd[..2], Groups(pairs, [], 2, max), max);
    }
  }

  lemma {:induction false} PartsStable(parts: seq<string>, max: nat)
    requires max >= 2
    ensures AllStable(SplitParts(parts, max), max)
    decreases |parts|
  {
    if parts != [] {
      CommandPiecesStable(parts[0], max);
      PartsStable(parts[1..], max);
    }
  }

  lemma {:induction false} StablePartsStay(parts: seq<string>, max: nat)
    requires AllStable(parts, max)
    ensures SplitParts(parts, max) == parts
    decreases |parts|
  {
    if parts != [] {
      StablePartsStay(parts[1..], max);
      assert [parts[0]] + parts[1..] == parts;
    }
  }

  /** Splitting twice is splitting once, for any text at all. */
  lemma SplitIdempotent(text: string, max: nat)
    requires max >= 2
    ensures SplitLong(SplitLong(text, max), max) == SplitLong(text, max)
  {
    var out := SplitParts(Split(text, ';'), max);
    SplitPartsUndivided(Split(text, ';'), max);
    PartsStable(Split(text, ';'), max);
    if out == [] {
      assert Split("", ';') == [""];
      assert SplitParts([""], max) == [""] + SplitParts([""][1..], max);
    } else {
      SplitJoin(out, ';');
      StablePartsStay(out, max);
    }
  }

  // ---- what the streamer gets ---------------------------------------------------------

  lemma {:induction false} FindShifts(a: string, b: string, lo: nat)
    requires lo <= |b|
    ensures var s := a + b; var r := Find(b, ';', lo, |b|);
      Find(s, ';', |a| + lo, |s|) == if r == -1 then -1 else |a| + r
    decreases |b| - lo
  {
    if lo < |b| && b[lo] != ';' {
      FindShifts(a, b, lo + 1);
    }
  }

  lemma FirstInstruction(t: string, rest: string)
    requires ';' !in t
    ensures var s := t + ";" + rest; InstructionLength(s, 0) == |t| + 1 && Boundary(s, |t| + 1)
    ensures forall i :: 0 < i <= |t| ==> !Boundary(t + ";" + rest, i)
  {
    FindFirst(t, rest, 0);
    var s := t + ";" + rest;
    forall i | 0 < i <= |t|
      ensures !Boundary(s, i)
    {
      assert s[i - 1] == t[i - 1];
    }
  }

  lemma LaterInstruction(t: string, rest: string, j: nat)
    requires j < |rest|
    ensures var s := t + ";" + rest;
      var i := |t| + 1 + j;
      && InstructionLength(s, i) == InstructionLength(rest, j)
      && (Boundary(s, i) && j > 0 ==> Boundary(rest, j))
      && (Boundary(rest, j + InstructionLength(rest, j)) ==> Boundary(s, i + InstructionLength(rest, j)))
  {
    FindShifts(t + ";", rest, j);
  }

  ghost predicate ShortAt(payload: string, i: nat, bound: nat)
    requires i < |payload|
  {
    InstructionLength(payload, i) <= bound && Boundary(payload, i + InstructionLength(payload, i))
  }

  lemma ShortPrefix(t: string, rest: string, bound: nat, i: nat)
    requires ';' !in t && |t| < bound && InstructionsWithin(rest, bound)
    requires i < |t + ";" + rest| && (i == 0 || Boundary(t + ";" + rest, i))
    ensures ShortAt(t + ";" + rest, i, bound)
  {
    hide InstructionLength;
    FirstInstruction(t, rest);
    if i > 0 {
      LaterInstruction(t, rest, i - |t| - 1);
    }
  }

  lemma WithinCons(t: string, rest: string, bound: nat)
    requires ';' !in t && |t| < bound && InstructionsWithin(rest, bound)
    ensures InstructionsWithin(t + ";" + rest, bound)
  {
    hide InstructionLength, Boundary;
    var s := t + ";" + rest;
    forall i | 0 <= i < |s| && (i == 0 || Boundary(s, i))
      ensures InstructionLength(s, i) <= bound && Boundary(s, i + InstructionLength(s, i))
    {
      ShortPrefix(t, rest, bound, i);
    }
  }

  /** A terminated text of short instructions never shows the streamer a long one. */
  lemma {:induction false} ShortInstructions(parts: seq<string>, bound: nat)
    requires Undivided(parts)
    requires forall i :: 0 <= i < |parts| ==> |parts[i]| < bound
    ensures InstructionsWithin(Terminate(parts), bound)
  {
    if parts != [] {
      hide InstructionLength, Boundary, InstructionsWithin;
      ShortInstructions(parts[1..], bound);
      WithinCons(parts[0], Terminate(parts[1..]), bound);
      assert InstructionsWithin(Terminate(parts), bound);
    }
  }

  /** After splitting, with every other instruction short too, the shipped streamer settings
      never meet an instruction they must refuse. */
  lemma SplitTextAlwaysFits(tokens: seq<string>, env: Env, retries: nat, stallPolls: nat)
    requires Undivided(tokens)
    requires forall i :: 0 <= i < |tokens| ==> PairsFit(FindAll(tokens[i]), MAX_CHARS)
    requires forall i :: 0 <= i < |tokens| ==> "PD" <= tokens[i] || "PU" <= tokens[i] || |tokens[i]| <= MAX_CHARS
    ensures var payload := Terminate(SplitParts(tokens, MAX_CHARS));
      var o := Run(Config(320, 256, retries, stallPolls), env, payload, Start(FRESH_PORT)).0;
      InstructionsWithin(payload, MAX_CHARS + 1) && !(o.Interrupted? && o.reason.InstructionTooLong?)
  {
    var out := SplitParts(tokens, MAX_CHARS);
    SplitShort(tokens, MAX_CHARS);
    SplitPartsUndivided(tokens, MAX_CHARS);
    ShortInstructions(out, MAX_CHARS + 1);
    NeverTooLong(Config(320, 256, retries, stallPolls), env, Terminate(out), Start(FRESH_PORT), MAX_CHARS + 1);
  }
}
