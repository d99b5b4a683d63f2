/** Relative movers, where the plotter's pair-wise execution parts from whole execution. */
module Relative {
  import opened Protocol
  import opened Text
  import opened Numbers
  import opened Device
  import opened Emulator
  import opened Schedules

  function Stepped(dev: Device, p: Pair): Device
    requires PlainPair(p)
  {
    Target(dev, Value(p.x), Value(p.y), true)
  }

  /** A relative mover popped pair by pair: each pop adds its own pair. */
  function Walk(dev: Device, pairs: seq<Pair>): Device
    requires PlainPairs(pairs)
    decreases |pairs|
  {
    if pairs == [] then dev
    else
      var n := |pairs| - 1;
      PlainSlices(pairs, n);
      assert PlainPair(pairs[n]);
      Stepped(Walk(dev, pairs[..n]), pairs[n])
  }

  lemma ExecuteRelativeBody(dev: Device, body: string, token: string)
    requires body != "" && Tidy(body) && IsDigit(body[|body| - 1])
    requires token == "PR" + body + ";" || token == "PR" + body + ","
    ensures Execute(dev, token) == Effect(Move(dev, body, true), None)
  {
    ParamsOf("PR", body, token);
    assert Upper("PR") == "PR";
    ExecuteKnown(dev, "PR", body, token);
  }

  /** That is what the executor does with the partial and final tokens of `PR`. */
  lemma ExecuteRelative(dev: Device, pairs: seq<Pair>, token: string)
    requires pairs != [] && PlainPairs(pairs) && PlainPair(pairs[|pairs| - 1])
    requires token == "PR" + PairsText(pairs) + ";" || token == "PR" + PairsText(pairs) + ","
    ensures Execute(dev, token) == Effect(Stepped(dev, pairs[|pairs| - 1]), None)
  {
    PairsTextEnds(pairs);
    ExecuteRelativeBody(dev, PairsText(pairs), token);
    MoveStepped(dev, pairs);
  }

  lemma MoveStepped(dev: Device, pairs: seq<Pair>)
    requires pairs != [] && PlainPairs(pairs) && PlainPair(pairs[|pairs| - 1])
    ensures Move(dev, PairsText(pairs), true) == Stepped(dev, pairs[|pairs| - 1])
  {
    MovePairs(dev, pairs, true);
  }

  function Sum(pairs: seq<Pair>): (real, real)
    requires PlainPairs(pairs)
    decreases |pairs|
  {
    if pairs == [] then (0.0, 0.0)
    else
      var n := |pairs| - 1;
      PlainSlices(pairs, n);
      assert PlainPair(pairs[n]);
      var before := Sum(pairs[..n]);
      (before.0 + Value(pairs[n].x), before.1 + Value(pairs[n].y))
  }

  predicate InClip(c: Clip, x: real, y: real) {
    c.xmin as real <= x <= c.xmax as real && c.ymin as real <= y <= c.ymax as real
  }

  /** No stop of the walk needs clamping. */
  ghost predicate StaysInClip(dev: Device, pairs: seq<Pair>)
    requires PlainPairs(pairs)
    decreases |pairs|
  {
    pairs == [] ||
    (var n := |pairs| - 1;
     PlainSlices(pairs, n);
     InClip(dev.clip, dev.x + Sum(pairs).0, dev.y + Sum(pairs).1) && StaysInClip(dev, pairs[..n]))
  }

  lemma {:induction false} WalkAddsUp(dev: Device, pairs: seq<Pair>)
    requires PlainPairs(pairs) && StaysInClip(dev, pairs)
    ensures var w := Walk(dev, pairs);
      w.clip == dev.clip && w.x == dev.x + Sum(pairs).0 && w.y == dev.y + Sum(pairs).1
    decreases |pairs|
  {
    if pairs != [] {
      var n := |pairs| - 1;
      PlainSlices(pairs, n);
      WalkAddsUp(dev, pairs[..n]);
    }
  }

  lemma SteppedInClip(dev: Device, p: Pair)
    requires PlainPair(p) && InClip(dev.clip, dev.x + Value(p.x), dev.y + Value(p.y))
    ensures Stepped(dev, p).x == dev.x + Value(p.x) && Stepped(dev, p).y == dev.y + Value(p.y)
    ensures Stepped(dev, p).clip == dev.clip
  {
  }

  /** Pair-wise and whole execution of `PR` agree exactly when the earlier pairs cancel out. */
  lemma RelativeAgreesWhen(dev: Device, earlier: seq<Pair>, last: Pair)
    requires PlainPairs(earlier) && PlainPair(last) && PlainPairs(earlier + [last])
    requires StaysInClip(dev, earlier)
    requires InClip(dev.clip, dev.x + Sum(earlier).0 + Value(last.x), dev.y + Sum(earlier).1 + Value(last.y))
    requires InClip(dev.clip, dev.x + Value(last.x), dev.y + Value(last.y))
    ensures var whole := Stepped(dev, last);
      var walked := Walk(dev, earlier + [last]);
      (walked.x == whole.x && walked.y == whole.y) <==> Sum(earlier) == (0.0, 0.0)
  {
    assert (earlier + [last])[..|earlier|] == earlier;
    WalkAddsUp(dev, earlier);
    SteppedInClip(Walk(dev, earlier), last);
    SteppedInClip(dev, last);
  }

  // ---- clamped walks ------------------------------------------------------------------

  /** Two targets that end at the same place: equal, or beyond the same side of the clip. */
  predicate SameStop(u: real, v: real, lo: int, hi: int) {
    u == v || (u <= lo as real && v <= lo as real) || (u >= hi as real && v >= hi as real)
  }

  lemma ClampSame(u: real, v: real, lo: int, hi: int)
    requires lo < hi
    ensures Clamp(u, lo, hi) == Clamp(v, lo, hi) <==> SameStop(u, v, lo, hi)
  {
  }

  predicate HasExtent(c: Clip) { c.xmin < c.xmax && c.ymin < c.ymax }

  lemma {:induction false} WalkKeepsClip(dev: Device, pairs: seq<Pair>)
    requires PlainPairs(pairs)
    ensures Walk(dev, pairs).clip == dev.clip
    decreases |pairs|
  {
    if pairs != [] {
      PlainSlices(pairs, |pairs| - 1);
      WalkKeepsClip(dev, pairs[..|pairs| - 1]);
    }
  }

  lemma SteppedClamps(dev: Device, p: Pair)
    requires PlainPair(p)
    ensures Stepped(dev, p).x == Clamp(dev.x + Value(p.x), dev.clip.xmin, dev.clip.xmax)
    ensures Stepped(dev, p).y == Clamp(dev.y + Value(p.y), dev.clip.ymin, dev.clip.ymax)
  {
  }

  /** The exact condition, clamped stops included: on each axis the last step leads from where the
      walk has come, and from the start, to the same place or past the same edge. */
  lemma RelativeAgreesExactly(dev: Device, earlier: seq<Pair>, last: Pair)
    requires PlainPairs(earlier) && PlainPair(last) && PlainPairs(earlier + [last]) && HasExtent(dev.clip)
    ensures var whole := Stepped(dev, last);
      var walked := Walk(dev, earlier + [last]);
      var at := Walk(dev, earlier);
      (walked.x == whole.x && walked.y == whole.y) <==>
        (SameStop(at.x + Value(last.x), dev.x + Value(last.x), dev.clip.xmin, dev.clip.xmax)
         && SameStop(at.y + Value(last.y), dev.y + Value(last.y), dev.clip.ymin, dev.clip.ymax))
  {
    hide Walk, Stepped, Clamp, SameStop;
    var all := earlier + [last];
    assert all[..|earlier|] == earlier && all[..|earlier| + 1] == all;
    WalkNext(dev, all, |earlier|);
    var at := Walk(dev, earlier);
    WalkKeepsClip(dev, earlier);
    SteppedClamps(at, last);
    SteppedClamps(dev, last);
    ClampSame(at.x + Value(last.x), dev.x + Value(last.x), dev.clip.xmin, dev.clip.xmax);
    ClampSame(at.y + Value(last.y), dev.y + Value(last.y), dev.clip.ymin, dev.clip.ymax);
  }

  // ---- every schedule of one relative mover -------------------------------------------

  datatype Stage = Before | Within(j: nat) | After(whole: bool)

  /** How far one `PR` has come, and where the pen is. */
  ghost predicate Stands(d: Device, pairs: seq<Pair>, unsent: string, p: Plotter, stage: Stage)
    requires pairs != [] && PlainPairs(pairs)
  {
    && !p.halted
    && match stage
       case Before =>
         p.mover == None && p.token == "" && p.dev == d && p.inbuf + unsent == "PR" + PairsText(pairs) + ";"
       case Within(j) =>
         && j < |pairs| && PlainPairs(pairs[..j])
         && p.mover == Some("PR") && p.token == PartialToken("PR", pairs[..j])
         && p.dev == Walk(d, pairs[..j]) && p.inbuf + unsent == PairsText(pairs[j..]) + ";"
       case After(whole) =>
         && p.mover == None && p.token == "" && p.inbuf + unsent == ""
         && PlainPair(pairs[|pairs| - 1])
         && p.dev == if whole then Stepped(d, pairs[|pairs| - 1]) else Walk(d, pairs)
  }

  lemma WalkNext(d: Device, pairs: seq<Pair>, j: nat)
    requires j < |pairs| && PlainPairs(pairs) && PlainPairs(pairs[..j]) && PlainPairs(pairs[..j + 1])
      && PlainPair(pairs[j])
    ensures Walk(d, pairs[..j + 1]) == Stepped(Walk(d, pairs[..j]), pairs[j])
  {
    assert pairs[..j + 1][..j] == pairs[..j];
  }

  /** One arrived pair of a relative mover, in full. */
  lemma WorkStep(d: Device, pairs: seq<Pair>, p: Plotter, j: nat, rest: string)
    requires j < |pairs| && PlainPairs(pairs) && PlainPairs(pairs[..j]) && PlainPairs(pairs[..j + 1])
    requires |PairText(pairs[j])| < PAIR_WINDOW
    requires !p.halted && p.mover == Some("PR") && p.token == PartialToken("PR", pairs[..j])
    requires p.dev == Walk(d, pairs[..j])
    requires p.inbuf == PairText(pairs[j]) + rest && rest != "" && (rest[0] == ',' || rest[0] == ';')
    ensures var token := "PR" + PairsText(pairs[..j + 1]) + [rest[0]];
      Work(p) == p.(
        inbuf := rest[1..],
        mover := if rest[0] == ';' then None else p.mover,
        token := if rest[0] == ';' then "" else token,
        dev := Walk(d, pairs[..j + 1]),
        commands := if rest[0] == ';' then p.commands + [token] else p.commands)
  {
    hide Execute, PopPair, PairsText, Stepped, Walk;
    assert PlainPair(pairs[j]);
    PopArrivedPair(p, pairs[j], rest);
    PartialTokenNext("PR", pairs, j);
    ExecuteRelative(p.dev, pairs[..j + 1], "PR" + PairsText(pairs[..j + 1]) + [rest[0]]);
    WalkNext(d, pairs, j);
  }

  /** The next pair has arrived. */
  lemma WithinTakes(d: Device, pairs: seq<Pair>, unsent: string, p: Plotter, j: nat) returns (stage: Stage)
    requires pairs != [] && PlainPairs(pairs) && forall k :: 0 <= k < |pairs| ==> |PairText(pairs[k])| < PAIR_WINDOW
    requires Stands(d, pairs, unsent, p, Within(j)) && |p.inbuf| > |PairText(pairs[j])|
    ensures Stands(d, pairs, unsent, Work(p), stage) && !stage.Before? && stage != After(true)
    ensures Work(p) != p
  {
    hide Work, Walk, Stepped, Plain;
    var text := PairText(pairs[j]);
    PlainSlices(pairs, j);
    PlainSlices(pairs, j + 1);
    assert PlainPair(pairs[|pairs| - 1]);
    TailShape(pairs, j, "");
    assert PairsText(pairs[j..]) + ";" + "" == PairsText(pairs[j..]) + ";";
    CutText(text, TailAfter(pairs[j..], ""), p.inbuf, unsent);
    var rest := p.inbuf[|text|..];
    WorkStep(d, pairs, p, j, rest);
    if j + 1 == |pairs| {
      assert pairs[..j + 1] == pairs;
      stage := After(false);
    } else {
      assert PairsText(pairs[j + 1..]) + ";" + "" == PairsText(pairs[j + 1..]) + ";";
      stage := Within(j + 1);
    }
  }

  lemma WithinWaits(d: Device, pairs: seq<Pair>, unsent: string, p: Plotter, j: nat)
    requires pairs != [] && PlainPairs(pairs) && forall k :: 0 <= k < |pairs| ==> |PairText(pairs[k])| < PAIR_WINDOW
    requires Stands(d, pairs, unsent, p, Within(j)) && |p.inbuf| <= |PairText(pairs[j])|
    ensures Work(p) == p && unsent != "" && |p.inbuf| < PAIR_WINDOW
  {
    hide Work, Walk, Stepped, Plain;
    assert PlainPair(pairs[j]);
    TailShape(pairs, j, "");
    assert PairsText(pairs[j..]) + ";" + "" == PairsText(pairs[j..]) + ";";
    CutText(PairText(pairs[j]), TailAfter(pairs[j..], ""), p.inbuf, unsent);
    WorkMissesPair(p, pairs[j]);
  }

  lemma WorkWithin(d: Device, pairs: seq<Pair>, unsent: string, p: Plotter, j: nat) returns (stage: Stage)
    requires pairs != [] && PlainPairs(pairs) && forall k :: 0 <= k < |pairs| ==> |PairText(pairs[k])| < PAIR_WINDOW
    requires Stands(d, pairs, unsent, p, Within(j))
    ensures Stands(d, pairs, unsent, Work(p), stage) && !stage.Before? && stage != After(true)
    ensures Work(p) == p ==> unsent != "" && |p.inbuf| < PAIR_WINDOW
  {
    hide Work, Walk, Stepped, Plain, PairText, PairsText;
    if |p.inbuf| > |PairText(pairs[j])| {
      stage := WithinTakes(d, pairs, unsent, p, j);
    } else {
      WithinWaits(d, pairs, unsent, p, j);
      stage := Within(j);
    }
  }

  /** The whole instruction is there: it is executed at once. */
  lemma WorkAtOnce(d: Device, pairs: seq<Pair>, unsent: string, p: Plotter)
    requires pairs != [] && PlainPairs(pairs) && Stands(d, pairs, unsent, p, Before)
    requires |p.inbuf| > |"PR" + PairsText(pairs)|
    ensures Stands(d, pairs, unsent, Work(p), After(true)) && |Work(p).inbuf| < |p.inbuf|
  {
    var t := "PR" + PairsText(pairs);
    CutText(t, ";", p.inbuf, unsent);
    var rest := p.inbuf[|t|..];
    assert rest == ";" + rest[1..] && p.inbuf == t + ";" + rest[1..];
    assert rest[1..] + unsent == "";
    WorkWholeRelative(p, pairs, rest[1..]);
  }

  lemma WorkWholeRelative(p: Plotter, pairs: seq<Pair>, rest: string)
    requires pairs != [] && PlainPairs(pairs) && !p.halted && p.mover.None?
    requires p.inbuf == "PR" + PairsText(pairs) + ";" + rest
    ensures PlainPair(pairs[|pairs| - 1])
    ensures Work(p) == p.(inbuf := rest, dev := Stepped(p.dev, pairs[|pairs| - 1]),
                          commands := p.commands + ["PR" + PairsText(pairs) + ";"])
  {
    hide Execute, PopToken, PairsText, Stepped;
    var t := "PR" + PairsText(pairs);
    assert PlainPair(pairs[|pairs| - 1]);
    PairsTextEnds(pairs);
    PopWhole(p, t, rest);
    ExecuteRelative(p.dev, pairs, t + ";");
  }

  lemma EnterRelative(d: Device, pairs: seq<Pair>, unsent: string, p: Plotter)
    requires pairs != [] && PlainPairs(pairs) && Stands(d, pairs, unsent, p, Before)
    requires 2 < |p.inbuf| <= |"PR" + PairsText(pairs)|
    ensures IsMover(Mnemonic(p.inbuf)) && ';' !in p.inbuf && Stands(d, pairs, unsent, Entered(p), Within(0))
  {
    var t := "PR" + PairsText(pairs);
    PairsTextEnds(pairs);
    CutText(t, ";", p.inbuf, unsent);
    NoTerminatorInPrefix(t, p.inbuf);
    assert Prefix(p.inbuf, 2) == "PR" && Upper("PR") == "PR";
    DropHead(p.inbuf, unsent, "PR", PairsText(pairs), "");
    assert ";" + "" == ";" && PairsText(pairs) + ";" + "" == PairsText(pairs) + ";";
    assert pairs[..0] == [] && pairs[0..] == pairs;
  }

  lemma WorkStands(d: Device, pairs: seq<Pair>, unsent: string, p: Plotter, stage: Stage) returns (next: Stage)
    requires pairs != [] && PlainPairs(pairs) && forall k :: 0 <= k < |pairs| ==> |PairText(pairs[k])| < PAIR_WINDOW
    requires Stands(d, pairs, unsent, p, stage)
    ensures Stands(d, pairs, unsent, Work(p), next)
    ensures Work(p) == p && unsent == "" ==> next.After?
    ensures next == After(true) ==> stage == After(true) || (stage.Before? && |p.inbuf| > |"PR" + PairsText(pairs)|)
    ensures next.Before? ==> stage.Before?
  {
    match stage {
      case After(_) =>
        assert p.inbuf == "";
        WorkWaits(p);
        next := stage;
      case Within(j) => next := WorkWithin(d, pairs, unsent, p, j);
      case Before =>
        var t := "PR" + PairsText(pairs);
        if |p.inbuf| > |t| {
          WorkAtOnce(d, pairs, unsent, p);
          next := After(true);
        } else if |p.inbuf| > 2 {
          EnterRelative(d, pairs, unsent, p);
          WorkEnters(p);
          next := WorkWithin(d, pairs, unsent, Entered(p), 0);
        } else {
          PairsTextEnds(pairs);
          CutText(t, ";", p.inbuf, unsent);
          NoTerminatorInPrefix(t, p.inbuf);
          WorkWaits(p);
          next := Before;
        }
    }
  }

  lemma {:induction false} PlayStands(d: Device, pairs: seq<Pair>, unsent: string, p: Plotter, stage: Stage,
      turns: seq<Turn>)
    returns (next: Stage)
    requires pairs != [] && PlainPairs(pairs) && forall k :: 0 <= k < |pairs| ==> |PairText(pairs[k])| < PAIR_WINDOW
    requires Stands(d, pairs, unsent, p, stage)
    ensures var (q, left) := Play(p, unsent, turns); Stands(d, pairs, left, q, next)
    decreases |turns|
  {
    if turns == [] {
      next := stage;
    } else {
      match turns[0] {
        case Arrive(n) =>
          var k := Arrival(p, unsent, n);
          AcceptFits(p, unsent[..k]);
          ArrivalBytes(p.inbuf, unsent, k);
          next := PlayStands(d, pairs, unsent[k..], Accept(p, unsent[..k]), stage, turns[1..]);
        case Execute1 =>
          var h := WorkStands(d, pairs, unsent, p, stage);
          next := PlayStands(d, pairs, unsent, Work(p), h, turns[1..]);
      }
    }
  }

  /** A relative mover under any schedule ends in one of two places, and which one depends on the
      schedule: the last pair added once, or every pair added in turn. */
  lemma RelativeEndsInEither(p: Plotter, pairs: seq<Pair>, turns: seq<Turn>)
    requires Idle(p) && pairs != [] && PlainPairs(pairs)
    requires forall k :: 0 <= k < |pairs| ==> |PairText(pairs[k])| < PAIR_WINDOW
    ensures var (q, left) := Play(p, "PR" + PairsText(pairs) + ";", turns);
      PlainPair(pairs[|pairs| - 1])
      && (left == "" && Work(q) == q ==> q.dev == Walk(p.dev, pairs) || q.dev == Stepped(p.dev, pairs[|pairs| - 1]))
  {
    var text := "PR" + PairsText(pairs) + ";";
    var (q, left) := Play(p, text, turns);
    assert "" + text == text;
    assert PlainPair(pairs[|pairs| - 1]);
    var stage := PlayStands(p.dev, pairs, text, p, Before, turns);
    if left == "" && Work(q) == q {
      var next := WorkStands(p.dev, pairs, left, q, stage);
    }
  }

  // ---- two schedules, two places ------------------------------------------------------

  lemma PlayArrives(p: Plotter, unsent: string, n: nat, turns: seq<Turn>)
    requires n <= |unsent| && |p.inbuf| + n <= INPUT_BUFFER_BYTES
    ensures Play(p, unsent, [Arrive(n)] + turns) == Play(p.(inbuf := p.inbuf + unsent[..n]), unsent[n..], turns)
  {
    hide Play;
    PlayOne(p, unsent, Arrive(n), turns);
  }

  lemma PlayOne(p: Plotter, unsent: string, turn: Turn, turns: seq<Turn>)
    ensures Play(p, unsent, [turn] + turns) ==
      match turn
      case Arrive(n) =>
        var k := Arrival(p, unsent, n);
        Play(Accept(p, unsent[..k]), unsent[k..], turns)
      case Execute1 => Play(Work(p), unsent, turns)
  {
    assert ([turn] + turns)[1..] == turns;
  }

  lemma PlayWorks(p: Plotter, unsent: string, turns: seq<Turn>)
    ensures Play(p, unsent, [Execute1] + turns) == Play(Work(p), unsent, turns)
  {
    PlayOne(p, unsent, Execute1, turns);
  }

  function RelativeText(pairs: seq<Pair>): string { "PR" + PairsText(pairs) + ";" }

  /** All bytes first, then one round, if the buffer holds them. */
  lemma AtOnce(p: Plotter, pairs: seq<Pair>)
    requires Idle(p) && pairs != [] && PlainPairs(pairs) && |RelativeText(pairs)| <= INPUT_BUFFER_BYTES
    ensures var (q, left) := Play(p, RelativeText(pairs), [Arrive(|RelativeText(pairs)|), Execute1]);
      left == "" && PlainPair(pairs[|pairs| - 1]) && q.dev == Stepped(p.dev, pairs[|pairs| - 1])
      && q.inbuf == "" && q.mover.None?
  {
    hide Work, Stepped, PairsText;
    var text := RelativeText(pairs);
    PlayArrives(p, text, |text|, [Execute1]);
    assert [Arrive(|text|)] + [Execute1] == [Arrive(|text|), Execute1];
    assert p.inbuf + text[..|text|] == text && text == text + "";
    var full := p.(inbuf := text);
    PlayWorks(full, "", []);
    assert [Execute1] + [] == [Execute1];
    WorkWholeRelative(full, pairs, "");
  }

  lemma TwoPairsText(a: Pair, b: Pair)
    ensures PairsText([a, b]) == PairText(a) + "," + PairText(b) && PairsText([a]) == PairText(a)
  {
    assert [a, b][1..] == [b];
  }

  /** A round after the first pair, and one after the rest. */
  lemma TwoPairsInTurn(p: Plotter, a: Pair, b: Pair)
    requires Idle(p) && PlainPair(a) && PlainPair(b) && PlainPairs([a, b])
    requires |PairText(a)| < PAIR_WINDOW && |PairText(b)| < PAIR_WINDOW
    ensures var text := "PR" + PairsText([a, b]) + ";";
      var (q, left) := Play(p, text, [Arrive(|PairText(a)| + 3), Execute1, Arrive(|PairText(b)| + 1), Execute1]);
      left == "" && q.dev == Walk(p.dev, [a, b])
  {
    hide Work, Walk;
    var pairs := [a, b];
    var text := "PR" + PairsText(pairs) + ";";
    var front, back := "PR" + PairText(a) + ",", PairText(b) + ";";
    TwoPairsText(a, b);
    assert text == front + back && text[..|front|] == front && text[|front|..] == back;
    var p1 := p.(inbuf := front);
    assert p.inbuf + front == front;
    FirstInTurn(p1, a, b);
    var p2 := p1.(inbuf := "", mover := Some("PR"), token := front, dev := Walk(p.dev, pairs[..1]));
    var p3 := p2.(inbuf := back);
    assert "" + back == back && back[..|back|] == back && back[|back|..] == "";
    SecondInTurn(p3, p.dev, a, b);
    var last: seq<Turn> := [Execute1];
    PlayArrives(p, text, |front|, [Execute1, Arrive(|back|), Execute1]);
    PlayWorks(p1, back, [Arrive(|back|), Execute1]);
    PlayArrives(p2, back, |back|, last);
    PlayWorks(p3, "", []);
    assert [Arrive(|front|)] + [Execute1, Arrive(|back|), Execute1] ==
      [Arrive(|front|), Execute1, Arrive(|back|), Execute1];
    assert [Execute1] + [Arrive(|back|), Execute1] == [Execute1, Arrive(|back|), Execute1];
    assert [Arrive(|back|)] + last == [Arrive(|back|), Execute1] && [Execute1] + [] == last;
  }

  lemma FirstInTurn(p: Plotter, a: Pair, b: Pair)
    requires !p.halted && p.mover.None? && p.token == "" && p.inbuf == "PR" + PairText(a) + ","
    requires PlainPair(a) && PlainPairs([a, b]) && PlainPairs([a, b][..1]) && |PairText(a)| < PAIR_WINDOW
    ensures Work(p) ==
      p.(inbuf := "", mover := Some("PR"), token := "PR" + PairText(a) + ",", dev := Walk(p.dev, [a, b][..1]))
  {
    hide Work, Walk, PairsText;
    var pairs := [a, b];
    PlainCharacters(a.x);
    PlainCharacters(a.y);
    assert Prefix(p.inbuf, 2) == "PR" && Upper("PR") == "PR";
    WorkEnters(p);
    var e := Entered(p);
    assert e.inbuf == PairText(a) + ",";
    TwoPairsText(a, b);
    assert pairs[..0] == [] && pairs[..1] == [a];
    assert PlainPairs(pairs[..0]) && PlainPairs(pairs[..0 + 1]);
    WalkNothing(p.dev);
    WorkStep(p.dev, pairs, e, 0, ",");
  }

  lemma WalkNothing(d: Device)
    ensures Walk(d, []) == d
  {
  }

  lemma SecondInTurn(p: Plotter, d: Device, a: Pair, b: Pair)
    requires PlainPairs([a, b]) && PlainPairs([a, b][..1]) && PlainPair(b) && |PairText(b)| < PAIR_WINDOW
    requires !p.halted && p.mover == Some("PR") && p.token == "PR" + PairText(a) + ","
    requires p.inbuf == PairText(b) + ";" && p.dev == Walk(d, [a, b][..1])
    ensures Work(p).dev == Walk(d, [a, b])
  {
    hide Work, Walk, PairsText;
    var pairs := [a, b];
    TwoPairsText(a, b);
    assert pairs[..1] == [a] && pairs[..2] == pairs;
    WorkStep(d, pairs, p, 1, ";");
  }

  // ---- when the schedule does not matter ----------------------------------------------

  /** Once pair-wise, or too long to arrive whole: the mover is not executed at once. */
  ghost predicate Piecewise(pairs: seq<Pair>, p: Plotter, stage: Stage) {
    && |p.inbuf| <= INPUT_BUFFER_BYTES && stage != After(true)
    && (stage.Before? ==> |RelativeText(pairs)| > INPUT_BUFFER_BYTES)
  }

  lemma {:induction false} PlayPiecewise(d: Device, pairs: seq<Pair>, unsent: string, p: Plotter, stage: Stage,
      turns: seq<Turn>)
    returns (next: Stage)
    requires pairs != [] && PlainPairs(pairs) && forall k :: 0 <= k < |pairs| ==> |PairText(pairs[k])| < PAIR_WINDOW
    requires Stands(d, pairs, unsent, p, stage) && Piecewise(pairs, p, stage)
    ensures var (q, left) := Play(p, unsent, turns);
      Stands(d, pairs, left, q, next) && Piecewise(pairs, q, next) && (!stage.Before? ==> !next.Before?)
    decreases |turns|
  {
    hide Work, Accept, Walk, Stepped;
    if turns == [] {
      next := stage;
    } else {
      match turns[0] {
        case Arrive(n) =>
          var k := Arrival(p, unsent, n);
          AcceptFits(p, unsent[..k]);
          ArrivalBytes(p.inbuf, unsent, k);
          next := PlayPiecewise(d, pairs, unsent[k..], Accept(p, unsent[..k]), stage, turns[1..]);
        case Execute1 =>
          var h := WorkStands(d, pairs, unsent, p, stage);
          WorkShrinks(p);
          next := PlayPiecewise(d, pairs, unsent, Work(p), h, turns[1..]);
      }
    }
  }

  ghost predicate Complete(q: Plotter, left: string) { left == "" && Work(q) == q }

  /** A complete run of this schedule leaves the device `d`. */
  ghost predicate EndsAs(p: Plotter, pairs: seq<Pair>, d: Device, turns: seq<Turn>) {
    var (q, left) := Play(p, RelativeText(pairs), turns);
    Complete(q, left) ==> q.dev == d
  }

  ghost predicate AlwaysEndsAs(p: Plotter, pairs: seq<Pair>, d: Device) {
    forall turns :: EndsAs(p, pairs, d, turns)
  }

  /** Every complete run leaves the same device. */
  ghost predicate ScheduleFree(p: Plotter, pairs: seq<Pair>) { exists d :: AlwaysEndsAs(p, pairs, d) }

  lemma StandsAtFirst(p: Plotter, pairs: seq<Pair>)
    requires Idle(p) && pairs != [] && PlainPairs(pairs)
    ensures Stands(p.dev, pairs, RelativeText(pairs), p, Before)
  {
    assert "" + RelativeText(pairs) == RelativeText(pairs);
  }

  /** Too long to arrive whole: every complete run goes through every pair. */
  lemma LongIsWalked(p: Plotter, pairs: seq<Pair>, turns: seq<Turn>)
    requires Idle(p) && pairs != [] && PlainPairs(pairs)
    requires forall k :: 0 <= k < |pairs| ==> |PairText(pairs[k])| < PAIR_WINDOW
    requires |RelativeText(pairs)| > INPUT_BUFFER_BYTES
    ensures EndsAs(p, pairs, Walk(p.dev, pairs), turns)
  {
    hide Work, Walk, Stepped, PairsText;
    var text := RelativeText(pairs);
    var (q, left) := Play(p, text, turns);
    StandsAtFirst(p, pairs);
    var stage := PlayPiecewise(p.dev, pairs, text, p, Before, turns);
    if Complete(q, left) {
      var next := WorkStands(p.dev, pairs, left, q, stage);
      assert next != After(true);
    }
  }

  /** Some complete run goes through every pair: three bytes first, then a round. */
  lemma SomeRunWalks(p: Plotter, pairs: seq<Pair>) returns (turns: seq<Turn>)
    requires Idle(p) && pairs != [] && PlainPairs(pairs)
    requires forall k :: 0 <= k < |pairs| ==> |PairText(pairs[k])| < PAIR_WINDOW
    requires |RelativeText(pairs)| <= INPUT_BUFFER_BYTES
    ensures var (q, left) := Play(p, RelativeText(pairs), turns);
      Complete(q, left) && q.dev == Walk(p.dev, pairs)
  {
    hide Work, Walk, Stepped, PairsText, Play;
    var text := RelativeText(pairs);
    var (p1, left1) := Play(p, text, [Arrive(3), Execute1]);
    var stage := EnteredPiecewise(p, pairs);
    var later := ComesToRest(p1, left1);
    turns := [Arrive(3), Execute1] + later;
    PlayAppend(p, text, [Arrive(3), Execute1], later);
    var next := PlayPiecewise(p.dev, pairs, left1, p1, stage, later);
    var (q, left) := Play(p1, left1, later);
    RestsWalked(p.dev, pairs, left, q, next);
  }

  lemma RestsWalked(d: Device, pairs: seq<Pair>, left: string, q: Plotter, stage: Stage)
    requires pairs != [] && PlainPairs(pairs) && forall k :: 0 <= k < |pairs| ==> |PairText(pairs[k])| < PAIR_WINDOW
    requires Stands(d, pairs, left, q, stage) && Piecewise(pairs, q, stage) && !stage.Before? && AtRest(q, left)
    ensures Complete(q, left) && q.dev == Walk(d, pairs)
  {
    hide Work, Walk, Stepped, PairsText;
    if stage.Within? {
      var next := WorkWithin(d, pairs, left, q, stage.j);
    } else {
      assert |q.inbuf + left| == 0;
    }
  }

  lemma EnteredPiecewise(p: Plotter, pairs: seq<Pair>) returns (stage: Stage)
    requires Idle(p) && pairs != [] && PlainPairs(pairs)
    requires forall k :: 0 <= k < |pairs| ==> |PairText(pairs[k])| < PAIR_WINDOW
    ensures var (q, left) := Play(p, RelativeText(pairs), [Arrive(3), Execute1]);
      Stands(p.dev, pairs, left, q, stage) && !stage.Before? && Piecewise(pairs, q, stage)
  {
    hide Work, Walk, Stepped, PairsText;
    var text := RelativeText(pairs);
    PairsTextEnds(pairs);
    TwoTurns(p, text);
    StandsAtFirst(p, pairs);
    var a := p.(inbuf := text[..3]);
    assert Accept(p, text[..3]) == a;
    assert text[..3] + text[3..] == text;
    EnterRelative(p.dev, pairs, text[3..], a);
    WorkEnters(a);
    stage := WorkWithin(p.dev, pairs, text[3..], Entered(a), 0);
    WorkShrinks(a);
  }

  /** The exact condition, for a relative mover of any number of pairs: the schedule does not matter
      if and only if the mover is too long for the buffer, so that it never arrives whole, or adding
      every pair in turn ends where adding the last one does. */
  lemma ScheduleFreeExactly(p: Plotter, pairs: seq<Pair>)
    requires Idle(p) && pairs != [] && PlainPairs(pairs)
    requires forall k :: 0 <= k < |pairs| ==> |PairText(pairs[k])| < PAIR_WINDOW
    ensures PlainPair(pairs[|pairs| - 1])
    ensures ScheduleFree(p, pairs) <==>
      |RelativeText(pairs)| > INPUT_BUFFER_BYTES || Walk(p.dev, pairs) == Stepped(p.dev, pairs[|pairs| - 1])
  {
    hide Walk, Stepped, PairsText, Play;
    assert PlainPair(pairs[|pairs| - 1]);
    var walked := Walk(p.dev, pairs);
    if |RelativeText(pairs)| > INPUT_BUFFER_BYTES {
      forall turns ensures EndsAs(p, pairs, walked, turns) {
        LongIsWalked(p, pairs, turns);
      }
      assert AlwaysEndsAs(p, pairs, walked);
    } else if walked == Stepped(p.dev, pairs[|pairs| - 1]) {
      forall turns ensures EndsAs(p, pairs, walked, turns) {
        RelativeEndsInEither(p, pairs, turns);
      }
      assert AlwaysEndsAs(p, pairs, walked);
    } else {
      var inTurn := SomeRunWalks(p, pairs);
      AtOnce(p, pairs);
      var atOnce := [Arrive(|RelativeText(pairs)|), Execute1];
      WorkWaits(Play(p, RelativeText(pairs), atOnce).0);
      forall d ensures !AlwaysEndsAs(p, pairs, d) {
        assert !(EndsAs(p, pairs, d, inTurn) && EndsAs(p, pairs, d, atOnce));
      }
    }
  }

  /** `PR1,0,2,0;` from the origin: x is 2 when it arrives at once, 3 when it arrives in pairs. */
  lemma RelativeExample(p: Plotter)
    requires Idle(p) && p.dev == PowerUp(A4_CLIP)
    ensures Play(p, "PR1,0,2,0;", [Arrive(10), Execute1]).0.dev.x == 2.0
    ensures Play(p, "PR1,0,2,0;", [Arrive(6), Execute1, Arrive(4), Execute1]).0.dev.x == 3.0
  {
    hide Play, Plain, Value, Stepped, Walk, PairsText;
    var a, b := Pair("1", "0"), Pair("2", "0");
    SmallPairs();
    ExampleText();
    assert PlainPairs([a, b]);
    AtOnce(p, [a, b]);
    TwoPairsInTurn(p, a, b);
    ExampleEnds(p.dev);
  }

  lemma ExampleText()
    ensures RelativeText([Pair("1", "0"), Pair("2", "0")]) == "PR1,0,2,0;"
  {
    TwoPairsText(Pair("1", "0"), Pair("2", "0"));
  }

  lemma ExampleEnds(dev: Device)
    requires dev == PowerUp(A4_CLIP)
    ensures var pairs := [Pair("1", "0"), Pair("2", "0")];
      && PlainPairs(pairs) && PlainPair(pairs[1])
      && Walk(dev, pairs).x == 3.0 && Stepped(dev, pairs[1]).x == 2.0
  {
    hide Plain, Value;
    SmallPairs();
    var a, b := Pair("1", "0"), Pair("2", "0");
    var pairs := [a, b];
    assert pairs[..0] == [] && pairs[..1] == [a] && pairs[..2] == pairs;
    assert PlainPairs(pairs[..0]) && PlainPairs(pairs[..1]);
    WalkNext(dev, pairs, 0);
    WalkNext(dev, pairs, 1);
    SteppedClamps(dev, a);
    SteppedClamps(dev, b);
    SteppedClamps(Walk(dev, [a]), b);
    WalkKeepsClip(dev, [a]);
  }

  lemma SmallPairs()
    ensures Plain("1") && Plain("0") && Plain("2") && Value("1") == 1.0 && Value("0") == 0.0 && Value("2") == 2.0
  {
    assert IntText(1) == "1" && IntText(0) == "0" && IntText(2) == "2";
    IntRoundTrip(1);
    IntRoundTrip(0);
    IntRoundTrip(2);
  }
}
