/** Character-level vocabulary shared by the models: searching for a terminator, splitting a text
    at a separator and joining the pieces again, and concatenating.  Payloads are `string`s of
    ASCII text; one character is one byte. */
module Text {
  datatype Option<+T> = None | Some(value: T)

  /** Offset of the first `c` in `s[lo..hi]`, or -1. */
  function Find(s: string, c: char, lo: nat, hi: nat): (r: int)
    requires lo <= hi <= |s|
    ensures r == -1 <==> c !in s[lo..hi]
    ensures r != -1 ==> lo <= r < hi && s[r] == c && c !in s[lo..r]
    decreases hi - lo
  {
    if lo == hi then -1
    else if s[lo] == c then lo
    else
      var r := Find(s, c, lo + 1, hi);
      assert s[lo..hi] == [s[lo]] + s[lo + 1..hi];
      assert r != -1 ==> s[lo..r] == [s[lo]] + s[lo + 1..r];
      r
  }

  /** The terminator behind an instruction is the first one. */
  lemma {:induction false} FindFirst(t: string, rest: string, lo: nat)
    requires ';' !in t && lo <= |t|
    ensures var s := t + ";" + rest; Find(s, ';', lo, |s|) == |t|
    decreases |t| - lo
  {
    if lo < |t| {
      FindFirst(t, rest, lo + 1);
    }
  }

  /** Offset of the last `c` in `s[lo..hi]`, or -1. */
  function FindLast(s: string, c: char, lo: nat, hi: nat): (r: int)
    requires lo <= hi <= |s|
    ensures r == -1 <==> c !in s[lo..hi]
    ensures r != -1 ==> lo <= r < hi && s[r] == c && c !in s[r + 1..hi]
    decreases hi - lo
  {
    if lo == hi then -1
    else if s[hi - 1] == c then hi - 1
    else
      var r := FindLast(s, c, lo, hi - 1);
      assert s[lo..hi] == s[lo..hi - 1] + [s[hi - 1]];
      assert r != -1 ==> s[r + 1..hi] == s[r + 1..hi - 1] + [s[hi - 1]];
      r
  }

  function Concat(parts: seq<string>): string {
    if parts == [] then "" else parts[0] + Concat(parts[1..])
  }

  lemma {:induction false} ConcatAppend(a: seq<string>, b: seq<string>)
    ensures Concat(a + b) == Concat(a) + Concat(b)
  {
    if a == [] {
      assert a + b == b;
    } else {
      assert (a + b)[1..] == a[1..] + b;
      ConcatAppend(a[1..], b);
    }
  }

  lemma ConcatSnoc(a: seq<string>, x: string)
    ensures Concat(a + [x]) == Concat(a) + x
  {
    ConcatAppend(a, [x]);
    assert Concat([x]) == x;
  }

  /** The pieces of `s` between separators; always at least one piece. */
  function Split(s: string, sep: char): (r: seq<string>)
    ensures |r| >= 1
    ensures forall i :: 0 <= i < |r| ==> sep !in r[i]
  {
    if s == "" then [""]
    else if s[0] == sep then [""] + Split(s[1..], sep)
    else
      var r := Split(s[1..], sep);
      [[s[0]] + r[0]] + r[1..]
  }

  function Join(parts: seq<string>, sep: char): string {
    if parts == [] then ""
    else if |parts| == 1 then parts[0]
    else parts[0] + [sep] + Join(parts[1..], sep)
  }

  lemma {:induction false} SplitPlain(a: string, sep: char)
    requires sep !in a
    ensures Split(a, sep) == [a]
  {
    if a != "" {
      SplitPlain(a[1..], sep);
      assert [a[0]] + a[1..] == a;
    }
  }

  lemma {:induction false} SplitCons(a: string, sep: char, rest: string)
    requires sep !in a
    ensures Split(a + [sep] + rest, sep) == [a] + Split(rest, sep)
  {
    var s := a + [sep] + rest;
    if a == "" {
      assert s[1..] == rest;
    } else {
      assert s[1..] == a[1..] + [sep] + rest;
      SplitCons(a[1..], sep, rest);
      assert [a[0]] + a[1..] == a;
    }
  }

  lemma {:induction false} SplitJoin(parts: seq<string>, sep: char)
    requires |parts| >= 1
    requires forall i :: 0 <= i < |parts| ==> sep !in parts[i]
    ensures Split(Join(parts, sep), sep) == parts
  {
    if |parts| == 1 {
      SplitPlain(parts[0], sep);
    } else {
      SplitJoin(parts[1..], sep);
      SplitCons(parts[0], sep, Join(parts[1..], sep));
      assert [parts[0]] + parts[1..] == parts;
    }
  }

  lemma {:induction false} JoinSplit(s: string, sep: char)
    ensures Join(Split(s, sep), sep) == s
  {
    if s != "" {
      JoinSplit(s[1..], sep);
      var r := Split(s[1..], sep);
      if s[0] == sep {
        assert ([""] + r)[1..] == r;
        assert s == [sep] + s[1..];
      } else {
        var q := [[s[0]] + r[0]] + r[1..];
        assert q[1..] == r[1..];
        assert s == [s[0]] + s[1..];
      }
    }
  }

  /** Each instruction followed by its terminator. */
  function Terminate(instrs: seq<string>): string {
    if instrs == [] then "" else instrs[0] + ";" + Terminate(instrs[1..])
  }

  lemma {:induction false} SplitTerminate(instrs: seq<string>)
    requires forall i :: 0 <= i < |instrs| ==> ';' !in instrs[i]
    ensures Split(Terminate(instrs), ';') == instrs + [""]
  {
    if instrs == [] {
      assert instrs + [""] == [""];
    } else {
      SplitTerminate(instrs[1..]);
      SplitCons(instrs[0], ';', Terminate(instrs[1..]));
      assert [instrs[0]] + (instrs[1..] + [""]) == instrs + [""];
    }
  }

  lemma {:induction false} TerminateAppend(a: seq<string>, b: seq<string>)
    ensures Terminate(a + b) == Terminate(a) + Terminate(b)
  {
    if a == [] {
      assert a + b == b;
    } else {
      assert (a + b)[1..] == a[1..] + b;
      TerminateAppend(a[1..], b);
    }
  }
}
