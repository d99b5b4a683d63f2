/** Schedules: when a run has come to rest, and how to arrange one. */
module Schedules {
  import opened Protocol
  import opened Text
  import opened Numbers
  import opened Device
  import opened Emulator

  /** Nothing will ever change: a round does nothing, and nothing can arrive. */
  predicate AtRest(p: Plotter, unsent: string) {
    Work(p) == p && (unsent == "" || |p.inbuf| >= INPUT_BUFFER_BYTES)
  }

  /** Every round that does anything uses up bytes, or leaves a mover. */
  function Budget(p: Plotter, unsent: string): nat {
    3 * |unsent| + 2 * |p.inbuf| + if p.mover.Some? then 1 else 0
  }

  predicate Spends(p: Plotter, q: Plotter) { |q.inbuf| <= |p.inbuf| && Budget(q, "") < Budget(p, "") }

  lemma PopPairSpends(p: Plotter)
    requires p.mover.Some?
    ensures PopPair(p) == (None, p) || Spends(p, PopPair(p).1)
  {
    hide MatchPair;
  }

  lemma PopSpends(p: Plotter)
    ensures PopToken(p) == (None, p) || Spends(p, PopToken(p).1)
  {
    hide PopPair, MatchPair;
    if p.mover.Some? {
      PopPairSpends(p);
    } else if Find(p.inbuf, ';', 0, |p.inbuf|) == -1 && IsMover(Mnemonic(p.inbuf)) && |p.inbuf| > 2 {
      PopPairSpends(Entered(p));
    }
  }

  lemma SettleSpends(p: Plotter, q: Plotter, token: string)
    requires Spends(p, q)
    ensures Spends(p, Settle(q, token))
  {
    hide Execute;
  }

  lemma WorkSpends(p: Plotter)
    ensures Work(p) == p || Spends(p, Work(p))
  {
    hide Execute, PopToken, Settle, Spends;
    PopSpends(p);
    var (token, q) := PopToken(p);
    if !p.halted && token.Some? {
      SettleSpends(p, q, token.value);
    }
  }

  /** From anywhere some schedule comes to rest. */
  lemma {:induction false} ComesToRest(p: Plotter, unsent: string) returns (turns: seq<Turn>)
    ensures var (q, left) := Play(p, unsent, turns); AtRest(q, left)
    decreases Budget(p, unsent)
  {
    hide Work;
    if Work(p) != p {
      WorkSpends(p);
      var later := ComesToRest(Work(p), unsent);
      turns := [Execute1] + later;
      assert turns[1..] == later;
    } else if unsent != "" && |p.inbuf| < INPUT_BUFFER_BYTES {
      var later := ComesToRest(Accept(p, unsent[..1]), unsent[1..]);
      turns := [Arrive(1)] + later;
      assert turns[1..] == later && Arrival(p, unsent, 1) == 1;
    } else {
      turns := [];
    }
  }

  lemma {:induction false} PlayAppend(p: Plotter, unsent: string, a: seq<Turn>, b: seq<Turn>)
    ensures var (q, left) := Play(p, unsent, a); Play(p, unsent, a + b) == Play(q, left, b)
    decreases |a|
  {
    if a == [] {
      assert a + b == b;
    } else {
      assert (a + b)[1..] == a[1..] + b;
      match a[0] {
        case Arrive(n) =>
          var k := Arrival(p, unsent, n);
          PlayAppend(Accept(p, unsent[..k]), unsent[k..], a[1..], b);
        case Execute1 => PlayAppend(Work(p), unsent, a[1..], b);
      }
    }
  }

  /** A schedule that does the same while more is waiting behind. */
  lemma {:induction false} Unhurried(p: Plotter, unsent: string, more: string, turns: seq<Turn>)
    returns (same: seq<Turn>)
    ensures var (q, left) := Play(p, unsent, turns); Play(p, unsent + more, same) == (q, left + more)
    decreases |turns|
  {
    hide Work, Accept;
    if turns == [] {
      same := [];
    } else {
      match turns[0] {
        case Arrive(n) =>
          var k := Arrival(p, unsent, n);
          var later := Unhurried(Accept(p, unsent[..k]), unsent[k..], more, turns[1..]);
          same := [Arrive(k)] + later;
          assert same[1..] == later && Arrival(p, unsent + more, k) == k;
          assert (unsent + more)[..k] == unsent[..k] && (unsent + more)[k..] == unsent[k..] + more;
        case Execute1 =>
          var later := Unhurried(Work(p), unsent, more, turns[1..]);
          same := [Execute1] + later;
          assert same[1..] == later;
      }
    }
  }

  lemma WorkShrinks(p: Plotter)
    ensures |Work(p).inbuf| <= |p.inbuf|
  {
    hide Execute, Work;
    WorkSpends(p);
  }

  lemma TwoTurns(q: Plotter, unsent: string)
    requires q.inbuf == "" && |unsent| >= 3
    ensures Play(q, unsent, [Arrive(3), Execute1]) == (Work(Accept(q, unsent[..3])), unsent[3..])
  {
    hide Work, Accept;
    assert [Arrive(3), Execute1][1..] == [Execute1] && [Execute1][1..] == [];
    assert Play(Accept(q, unsent[..3]), unsent[3..], [Execute1]) == (Work(Accept(q, unsent[..3])), unsent[3..]);
  }
}
