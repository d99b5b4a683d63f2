/** Cutting the reply stream into lines, one at a time, over reads of any size: what was read past
    a line is kept for the next one. */
module Responder {
  import opened Text

  predicate EndsLine(c: char) { c == '\r' || c == '\n' }

  ghost predicate OneLine(s: string) { forall i :: 0 <= i < |s| ==> !EndsLine(s[i]) }

  /** Everything the port gave from read `first` up to, not including, read `last`. */
  function Received(incoming: nat -> string, first: nat, last: nat): string
    decreases last
  {
    if last <= first then "" else Received(incoming, first, last - 1) + incoming(last - 1)
  }

  /** What was buffered and what was read since. */
  function Stream(incoming: nat -> string, start: string, first: nat, last: nat): string {
    start + Received(incoming, first, last)
  }

  lemma StreamNext(incoming: nat -> string, start: string, first: nat, last: nat)
    requires first <= last
    ensures Stream(incoming, start, first, last + 1) == Stream(incoming, start, first, last) + incoming(last)
  {
  }

  lemma StreamStarts(incoming: nat -> string, start: string, first: nat)
    ensures Stream(incoming, start, first, first) == start
  {
  }

  lemma CutAt(s: string, at: nat)
    requires at < |s|
    ensures s == s[..at] + [s[at]] + s[at + 1..]
  {
  }

  /** A stream has one first line: reading it cannot depend on how it arrived. */
  lemma FirstLineUnique(a: string, ta: char, ra: string, b: string, tb: char, rb: string)
    requires OneLine(a) && OneLine(b) && EndsLine(ta) && EndsLine(tb)
    requires a + [ta] + ra == b + [tb] + rb
    ensures a == b && ta == tb && ra == rb
  {
    var s := a + [ta] + ra;
    forall i | 0 <= i < |a| ensures s[i] == a[i] { }
    forall i | 0 <= i < |b| ensures s[i] == b[i] { }
    assert s[|a|] == ta && s[|b|] == tb;
    assert a == s[..|a|] && b == s[..|b|];
    assert ra == s[|a| + 1..] && rb == s[|b| + 1..];
  }

  class Responder {
    const incoming: nat -> string
    var buf: string
    var taken: nat

    constructor (incoming: nat -> string)
      ensures this.incoming == incoming && buf == "" && taken == 0
    {
      this.incoming, buf, taken := incoming, "", 0;
    }

    method FindTerminator() returns (at: int)
      ensures at == -1 ==> OneLine(buf)
      ensures at != -1 ==> 0 <= at < |buf| && EndsLine(buf[at]) && OneLine(buf[..at])
    {
      at := 0;
      while at < |buf|
        invariant 0 <= at <= |buf| && OneLine(buf[..at])
      {
        if EndsLine(buf[at]) {
          return;
        }
        at := at + 1;
      }
      assert buf[..at] == buf;
      at := -1;
    }

    /** Read one line, giving up after `patience` reads.  Nothing is lost: what was buffered and
        what arrived is the line, its terminator and what is buffered now.  It reads no further than
        it has to. */
    method ReadLine(patience: nat) returns (line: Option<string>, ghost end: char)
      modifies this`buf, this`taken
      ensures old(taken) <= taken <= old(taken) + patience
      ensures line.Some? ==> OneLine(line.value) && EndsLine(end)
      ensures line.Some? && taken > old(taken) ==> OneLine(Stream(incoming, old(buf), old(taken), taken - 1))
      ensures line.None? ==> OneLine(buf) && taken == old(taken) + patience
      ensures Stream(incoming, old(buf), old(taken), taken) ==
        if line.Some? then line.value + [end] + buf else buf
    {
      hide OneLine, Stream;
      end := '\r';
      var last := taken + patience;
      StreamStarts(incoming, buf, taken);
      while true
        invariant old(taken) <= taken <= last == old(taken) + patience
        invariant buf == Stream(incoming, old(buf), old(taken), taken)
        invariant taken > old(taken) ==> OneLine(Stream(incoming, old(buf), old(taken), taken - 1))
        decreases last - taken
      {
        var at := FindTerminator();
        if at != -1 {
          end := buf[at];
          line := Some(buf[..at]);
          CutAt(buf, at);
          buf := buf[at + 1..];
          return;
        }
        if taken == last {
          return None, end;
        }
        StreamNext(incoming, old(buf), old(taken), taken);
        buf := buf + incoming(taken);
        taken := taken + 1;
      }
    }

    /** Forget what is buffered and what is waiting. */
    method Drain(waiting: nat)
      modifies this`buf, this`taken
      ensures buf == "" && taken == old(taken) + waiting
    {
      buf := "";
      taken := taken + waiting;
    }
  }
}
