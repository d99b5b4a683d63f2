/** The plotter's RS-232 handler. */
module ControlChannel {
  // Device-control escapes are taken out of the byte stream before the graphics buffer,
  // wherever the reads happen to cut it.

  import opened Text

  const ESC: char := '\U{1b}'
  /** An escape is looked for in this many bytes, the ESC itself included. */
  const ESCAPE_SPAN: nat := 14

  datatype Parsed = Parsed(escapes: seq<string>, graphics: string, pending: string)

  predicate Ends(c: char) { c == ';' || c == ':' }

  /** First terminator in `s[lo..hi]`, or -1. */
  function FindEnd(s: string, lo: nat, hi: nat): (r: int)
    requires hi <= |s|
    ensures r != -1 ==> lo <= r < hi && Ends(s[r]) && forall k :: lo <= k < r ==> !Ends(s[k])
    decreases hi - lo
  {
    if lo >= hi then -1 else if Ends(s[lo]) then lo else FindEnd(s, lo + 1, hi)
  }

  /** Where the escape that starts `s` ends: its terminator, or -1. */
  function EscapeEnd(s: string): (r: int)
    ensures r != -1 ==> 2 <= r < |s|
  {
    FindEnd(s, 2, if |s| < ESCAPE_SPAN then |s| else ESCAPE_SPAN)
  }

  /** An escape ends at the first semicolon or colon behind its letter, if that is among its first
      fourteen bytes. */
  lemma EscapeEndExactly(s: string, r: int)
    ensures r != -1 ==>
      (EscapeEnd(s) == r <==>
        && 2 <= r < 14 && r < |s| && (s[r] == ';' || s[r] == ':')
        && forall k :: 2 <= k < r ==> s[k] != ';' && s[k] != ':')
    ensures EscapeEnd(s) == -1 <==> forall k :: 2 <= k < 14 && k < |s| ==> s[k] != ';' && s[k] != ':'
  {
    FirstEnd(s, 2, if |s| < 14 then |s| else 14);
  }

  lemma {:induction false} FirstEnd(s: string, lo: nat, hi: nat)
    requires hi <= |s|
    ensures FindEnd(s, lo, hi) == -1 <==> forall k :: lo <= k < hi ==> s[k] != ';' && s[k] != ':'
    decreases hi - lo
  {
    if lo < hi && !Ends(s[lo]) {
      FirstEnd(s, lo + 1, hi);
    }
  }

  /** Specification: what one read block splits into. */
  function Demux(s: string): (r: Parsed)
    decreases |s|
  {
    if s == "" then Parsed([], "", "")
    else if s[0] != ESC then Plain(s[..1], Demux(s[1..]))
    else
      var end := EscapeEnd(s);
      if end != -1 then Token(s[..end + 1], Demux(s[end + 1..]))
      else if |s| < ESCAPE_SPAN then Parsed([], "", s)
      else Plain(s[..1], Demux(s[1..]))
  }

  function Plain(bytes: string, rest: Parsed): Parsed { rest.(graphics := bytes + rest.graphics) }

  function Token(token: string, rest: Parsed): Parsed { rest.(escapes := [token] + rest.escapes) }

  function Then(a: Parsed, b: Parsed): Parsed {
    Parsed(a.escapes + b.escapes, a.graphics + b.graphics, b.pending)
  }

  lemma ThenPlain(bytes: string, a: Parsed, b: Parsed)
    ensures Then(Plain(bytes, a), b) == Plain(bytes, Then(a, b))
  {
    assert (bytes + a.graphics) + b.graphics == bytes + (a.graphics + b.graphics);
  }

  lemma ThenToken(token: string, a: Parsed, b: Parsed)
    ensures Then(Token(token, a), b) == Token(token, Then(a, b))
  {
    assert ([token] + a.escapes) + b.escapes == [token] + (a.escapes + b.escapes);
  }

  lemma ThenNothing(b: Parsed)
    ensures Then(Parsed([], "", ""), b) == b
  {
    assert [] + b.escapes == b.escapes && "" + b.graphics == b.graphics;
  }

  lemma PlainTwice(a: string, b: string, rest: Parsed)
    ensures Plain(a, Plain(b, rest)) == Plain(a + b, rest) && Plain("", rest) == rest
  {
    assert a + (b + rest.graphics) == (a + b) + rest.graphics && "" + rest.graphics == rest.graphics;
  }

  /** Plain bytes in front of a block pass straight through. */
  lemma {:induction false} DemuxPrefix(a: string, b: string)
    requires ESC !in a
    ensures Demux(a + b) == Plain(a, Demux(b))
  {
    if a == "" {
      assert a + b == b;
      PlainTwice("", "", Demux(b));
    } else {
      assert (a + b)[1..] == a[1..] + b && (a + b)[..1] == a[..1];
      DemuxPrefix(a[1..], b);
      PlainTwice(a[..1], a[1..], Demux(b));
      assert a[..1] + a[1..] == a;
    }
  }

  /** What the loop has split off so far, in front of what the rest will give. */
  lemma AbsorbToken(escapes: seq<string>, graphics: string, bytes: string, token: string, rest: Parsed)
    ensures Then(Parsed(escapes, graphics, ""), Plain(bytes, Token(token, rest))) ==
      Then(Parsed(escapes + [token], graphics + bytes, ""), rest)
  {
    assert graphics + (bytes + rest.graphics) == (graphics + bytes) + rest.graphics;
    assert escapes + ([token] + rest.escapes) == (escapes + [token]) + rest.escapes;
  }

  lemma AbsorbPlain(escapes: seq<string>, graphics: string, bytes: string, rest: Parsed)
    ensures Then(Parsed(escapes, graphics, ""), Plain(bytes, rest)) == Then(Parsed(escapes, graphics + bytes, ""), rest)
  {
    assert graphics + (bytes + rest.graphics) == (graphics + bytes) + rest.graphics;
  }

  lemma AbsorbEnd(escapes: seq<string>, graphics: string, tail: string)
    ensures Then(Parsed(escapes, graphics, ""), Parsed([], "", tail)) == Parsed(escapes, graphics, tail)
  {
    assert escapes + [] == escapes && graphics + "" == graphics;
  }

  /** One round of the loop: plain bytes up to the next ESC, then that escape. */
  lemma NextEscape(stream: string, i: nat, j: nat)
    requires i <= j < |stream| && ESC !in stream[i..j] && stream[j] == ESC
    ensures var tail := stream[j..];
      var end := EscapeEnd(tail);
      Demux(stream[i..]) == Plain(stream[i..j],
        if end != -1 then Token(tail[..end + 1], Demux(stream[j + end + 1..]))
        else if |stream| - j < ESCAPE_SPAN then Parsed([], "", tail)
        else Plain([ESC], Demux(stream[j + 1..])))
  {
    var tail := stream[j..];
    assert stream[i..] == stream[i..j] + tail;
    DemuxPrefix(stream[i..j], tail);
    var end := EscapeEnd(tail);
    assert tail[..1] == [ESC] && tail[1..] == stream[j + 1..];
    if end != -1 {
      assert tail[end + 1..] == stream[j + end + 1..];
    }
  }

  /** What the loop has collected and what the rest will give. */
  function Outlook(escapes: seq<string>, graphics: string, rest: Parsed): Parsed {
    Then(Parsed(escapes, graphics, ""), rest)
  }

  lemma RoundLast(stream: string, i: nat, escapes: seq<string>, graphics: string)
    requires i <= |stream| && ESC !in stream[i..]
    ensures Outlook(escapes, graphics, Demux(stream[i..])) == Parsed(escapes, graphics + stream[i..], "")
  {
    var rest := stream[i..];
    DemuxPrefix(rest, "");
    assert rest + "" == rest;
    AbsorbPlain(escapes, graphics, rest, Demux(""));
    AbsorbEnd(escapes, graphics + rest, "");
  }

  lemma RoundToken(stream: string, i: nat, j: nat, end: nat, escapes: seq<string>, graphics: string)
    requires i <= j < |stream| && ESC !in stream[i..j] && stream[j] == ESC && end == EscapeEnd(stream[j..])
    ensures j + end + 1 <= |stream|
    ensures Outlook(escapes, graphics, Demux(stream[i..])) ==
      Outlook(escapes + [stream[j..][..end + 1]], graphics + stream[i..j], Demux(stream[j + end + 1..]))
  {
    NextEscape(stream, i, j);
    var rest := Demux(stream[j + end + 1..]);
    assert Demux(stream[i..]) == Plain(stream[i..j], Token(stream[j..][..end + 1], rest));
    AbsorbToken(escapes, graphics, stream[i..j], stream[j..][..end + 1], rest);
  }

  lemma RoundTail(stream: string, i: nat, j: nat, escapes: seq<string>, graphics: string)
    requires i <= j < |stream| && ESC !in stream[i..j] && stream[j] == ESC
    requires EscapeEnd(stream[j..]) == -1 && |stream| - j < ESCAPE_SPAN
    ensures Outlook(escapes, graphics, Demux(stream[i..])) == Parsed(escapes, graphics + stream[i..j], stream[j..])
  {
    NextEscape(stream, i, j);
    AbsorbPlain(escapes, graphics, stream[i..j], Parsed([], "", stream[j..]));
    AbsorbEnd(escapes, graphics + stream[i..j], stream[j..]);
  }

  lemma RoundStray(stream: string, i: nat, j: nat, escapes: seq<string>, graphics: string)
    requires i <= j < |stream| && ESC !in stream[i..j] && stream[j] == ESC
    requires EscapeEnd(stream[j..]) == -1 && |stream| - j >= ESCAPE_SPAN
    ensures Outlook(escapes, graphics, Demux(stream[i..])) ==
      Outlook(escapes, graphics + stream[i..j] + [ESC], Demux(stream[j + 1..]))
  {
    NextEscape(stream, i, j);
    AbsorbPlain(escapes, graphics, stream[i..j], Plain([ESC], Demux(stream[j + 1..])));
    AbsorbPlain(escapes, graphics + stream[i..j], [ESC], Demux(stream[j + 1..]));
  }

  /** What is collected at offset `i` and what the rest will give are the whole result. */
  ghost predicate Ahead(stream: string, i: nat, escapes: seq<string>, graphics: string) {
    i <= |stream| && Demux(stream) == Outlook(escapes, graphics, Demux(stream[i..]))
  }

  lemma AheadAtStart(stream: string)
    ensures Ahead(stream, 0, [], "")
  {
    ThenNothing(Demux(stream));
    assert stream[0..] == stream;
  }

  lemma AheadToken(stream: string, i: nat, j: nat, end: nat, escapes: seq<string>, graphics: string)
    requires i <= j < |stream| && ESC !in stream[i..j] && stream[j] == ESC && end == EscapeEnd(stream[j..])
    requires Ahead(stream, i, escapes, graphics)
    ensures Ahead(stream, j + end + 1, escapes + [stream[j..][..end + 1]], graphics + stream[i..j])
  {
    RoundToken(stream, i, j, end, escapes, graphics);
  }

  lemma AheadStray(stream: string, i: nat, j: nat, escapes: seq<string>, graphics: string)
    requires i <= j < |stream| && ESC !in stream[i..j] && stream[j] == ESC
    requires EscapeEnd(stream[j..]) == -1 && |stream| - j >= ESCAPE_SPAN
    requires Ahead(stream, i, escapes, graphics)
    ensures Ahead(stream, j + 1, escapes, graphics + stream[i..j] + [ESC])
  {
    RoundStray(stream, i, j, escapes, graphics);
  }

  /** The handler's loop over one block. */
  method SplitControlChannel(stream: string) returns (r: Parsed)
    ensures r == Demux(stream)
  {
    var escapes: seq<string> := [];
    var graphics := "";
    var i := 0;
    AheadAtStart(stream);
    while i < |stream|
      invariant 0 <= i <= |stream|
      invariant Ahead(stream, i, escapes, graphics)
      decreases |stream| - i
    {
      var j := Find(stream, ESC, i, |stream|);
      if j == -1 {
        RoundLast(stream, i, escapes, graphics);
        return Parsed(escapes, graphics + stream[i..], "");
      }
      var tail := stream[j..];
      var end := EscapeEnd(tail);
      if end != -1 {
        AheadToken(stream, i, j, end, escapes, graphics);
        graphics, escapes, i := graphics + stream[i..j], escapes + [tail[..end + 1]], j + end + 1;
      } else if |stream| - j < ESCAPE_SPAN {
        RoundTail(stream, i, j, escapes, graphics);
        return Parsed(escapes, graphics + stream[i..j], tail);
      } else {
        AheadStray(stream, i, j, escapes, graphics);
        graphics, i := graphics + stream[i..j] + [ESC], j + 1;
      }
    }
    RoundLast(stream, i, escapes, graphics);
    assert graphics + stream[i..] == graphics;
    return Parsed(escapes, graphics, "");
  }

  lemma {:induction false} FindEndStable(a: string, b: string, lo: nat, hi: nat)
    requires hi <= |a|
    ensures FindEnd(a + b, lo, hi) == FindEnd(a, lo, hi)
    decreases hi - lo
  {
    if lo < hi && !Ends(a[lo]) {
      FindEndStable(a, b, lo + 1, hi);
    }
  }

  /** A terminator found in a shorter window is found in a longer one. */
  lemma {:induction false} FindEndWider(s: string, lo: nat, mid: nat, hi: nat)
    requires mid <= hi <= |s|
    requires FindEnd(s, lo, mid) != -1
    ensures FindEnd(s, lo, hi) == FindEnd(s, lo, mid)
    decreases mid - lo
  {
    if lo < mid && !Ends(s[lo]) {
      FindEndWider(s, lo + 1, mid, hi);
    }
  }

  /** More bytes behind a block do not change an escape that is already decided. */
  lemma EscapeEndStable(a: string, b: string)
    requires EscapeEnd(a) != -1 || |a| >= ESCAPE_SPAN
    ensures EscapeEnd(a + b) == EscapeEnd(a)
  {
    var s := a + b;
    var mid := if |a| < ESCAPE_SPAN then |a| else ESCAPE_SPAN;
    var hi := if |s| < ESCAPE_SPAN then |s| else ESCAPE_SPAN;
    FindEndStable(a, b, 2, mid);
    if mid < hi {
      FindEndWider(s, 2, mid, hi);
    }
  }

  /** Reading `a` and then `b` behind its withheld tail is reading `a + b`. */
  ghost predicate Cuts(a: string, b: string) {
    Demux(a + b) == Then(Demux(a), Demux(Demux(a).pending + b))
  }

  lemma CutWithheld(a: string, b: string)
    requires Demux(a) == Parsed([], "", a)
    ensures Cuts(a, b)
  {
    ThenNothing(Demux(a + b));
  }

  lemma DemuxToken(a: string, b: string, end: nat)
    requires a != "" && a[0] == ESC && end == EscapeEnd(a)
    ensures Demux(a + b) == Token(a[..end + 1], Demux(a[end + 1..] + b))
  {
    var s := a + b;
    EscapeEndStable(a, b);
    assert s[end + 1..] == a[end + 1..] + b && s[..end + 1] == a[..end + 1];
  }

  lemma CutToken(a: string, b: string, end: nat)
    requires a != "" && a[0] == ESC && end == EscapeEnd(a) && Cuts(a[end + 1..], b)
    ensures Cuts(a, b)
  {
    DemuxToken(a, b, end);
    var rest := Demux(a[end + 1..]);
    ThenToken(a[..end + 1], rest, Demux(rest.pending + b));
  }

  lemma CutByte(a: string, b: string)
    requires a != "" && (a[0] != ESC || (EscapeEnd(a) == -1 && |a| >= ESCAPE_SPAN)) && Cuts(a[1..], b)
    ensures Cuts(a, b)
  {
    var s := a + b;
    if a[0] == ESC {
      EscapeEndStable(a, b);
    }
    assert s[1..] == a[1..] + b && s[..1] == a[..1];
    var rest := Demux(a[1..]);
    ThenPlain(a[..1], rest, Demux(rest.pending + b));
  }

  /** Cut independence, for every cut. */
  lemma {:induction false} DemuxCut(a: string, b: string)
    ensures Demux(a + b) == Then(Demux(a), Demux(Demux(a).pending + b))
    decreases |a|
  {
    if a == "" {
      CutWithheld(a, b);
    } else {
      var end := EscapeEnd(a);
      if a[0] == ESC && end != -1 {
        DemuxCut(a[end + 1..], b);
        CutToken(a, b, end);
      } else if a[0] == ESC && |a| < ESCAPE_SPAN {
        CutWithheld(a, b);
      } else {
        DemuxCut(a[1..], b);
        CutByte(a, b);
      }
    }
  }

  /** The reader thread: each block is parsed behind the tail withheld from the last one. */
  function ReadBlocks(pending: string, blocks: seq<string>): Parsed
    decreases |blocks|
  {
    if blocks == [] then Parsed([], "", pending)
    else
      var first := Demux(pending + blocks[0]);
      Then(first, ReadBlocks(first.pending, blocks[1..]))
  }

  /** A withheld tail is still withheld when looked at alone. */
  lemma {:induction false} PendingIsWithheld(s: string)
    ensures var p := Demux(s).pending; Demux(p) == Parsed([], "", p)
    decreases |s|
  {
    if s != "" {
      var end := EscapeEnd(s);
      if s[0] != ESC || (end == -1 && |s| >= ESCAPE_SPAN) {
        PendingIsWithheld(s[1..]);
      } else if end != -1 {
        PendingIsWithheld(s[end + 1..]);
      }
    }
  }

  lemma ReadBlocksNext(pending: string, blocks: seq<string>, all: Parsed)
    requires blocks != []
    requires var first := Demux(pending + blocks[0]); ReadBlocks(first.pending, blocks[1..]) == all
    ensures ReadBlocks(pending, blocks) == Then(Demux(pending + blocks[0]), all)
  {
  }

  lemma ConcatFront(pending: string, blocks: seq<string>)
    requires blocks != []
    ensures (pending + blocks[0]) + Concat(blocks[1..]) == pending + Concat(blocks)
  {
  }

  /** However the stream is cut into reads, the outcome is that of one single read. */
  lemma {:induction false} ReadsDoNotMatter(pending: string, blocks: seq<string>)
    requires Demux(pending) == Parsed([], "", pending)
    ensures ReadBlocks(pending, blocks) == Demux(pending + Concat(blocks))
    decreases |blocks|
  {
    if blocks == [] {
      assert pending + "" == pending;
    } else {
      var block := pending + blocks[0];
      var rest := Concat(blocks[1..]);
      PendingIsWithheld(block);
      ReadsDoNotMatter(Demux(block).pending, blocks[1..]);
      ReadBlocksNext(pending, blocks, Demux(Demux(block).pending + rest));
      DemuxCut(block, rest);
      ConcatFront(pending, blocks);
    }
  }

  // ---- multiplexing -------------------------------------------------------------------

  datatype Item = Data(bytes: string) | Escape(token: string)

  /** A complete device-control sequence as the host writes it. */
  predicate CompleteEscape(t: string) {
    && 3 <= |t| <= ESCAPE_SPAN
    && t[0] == ESC && Ends(t[|t| - 1])
    && forall k :: 2 <= k < |t| - 1 ==> !Ends(t[k])
  }

  predicate GoodItem(i: Item) {
    match i
    case Data(bytes) => ESC !in bytes
    case Escape(token) => CompleteEscape(token)
  }

  function Mux(items: seq<Item>): string {
    if items == [] then ""
    else (if items[0].Data? then items[0].bytes else items[0].token) + Mux(items[1..])
  }

  function DataOf(items: seq<Item>): string {
    if items == [] then ""
    else (if items[0].Data? then items[0].bytes else "") + DataOf(items[1..])
  }

  function EscapesOf(items: seq<Item>): seq<string> {
    if items == [] then []
    else (if items[0].Escape? then [items[0].token] else []) + EscapesOf(items[1..])
  }

  /** Nothing but plain bytes and complete escapes. */
  ghost predicate Separated(items: seq<Item>) {
    forall i :: 0 <= i < |items| ==> items[i].Escape? ==> CompleteEscape(items[i].token)
  }

  /** The block is these items and the withheld tail; the handler gives out exactly them. */
  ghost predicate SplitInto(s: string, r: Parsed, items: seq<Item>) {
    Mux(items) + r.pending == s && EscapesOf(items) == r.escapes && DataOf(items) == r.graphics && Separated(items)
  }

  lemma SplitPlainByte(s: string, rest: Parsed, items: seq<Item>)
    requires s != "" && SplitInto(s[1..], rest, items)
    ensures SplitInto(s, Plain(s[..1], rest), [Data(s[..1])] + items)
  {
    var all := [Data(s[..1])] + items;
    assert all[1..] == items;
    assert (s[..1] + Mux(items)) + rest.pending == s[..1] + s[1..];
    assert [] + EscapesOf(items) == EscapesOf(items);
  }

  lemma SplitEscape(s: string, end: nat, rest: Parsed, items: seq<Item>)
    requires 2 <= end < |s| && CompleteEscape(s[..end + 1]) && SplitInto(s[end + 1..], rest, items)
    ensures SplitInto(s, Token(s[..end + 1], rest), [Escape(s[..end + 1])] + items)
  {
    var token := s[..end + 1];
    var all := [Escape(token)] + items;
    assert all[1..] == items;
    assert (token + Mux(items)) + rest.pending == token + s[end + 1..];
    assert "" + DataOf(items) == DataOf(items);
  }

  /** No byte is lost, invented or moved: the block is plain bytes and complete escapes in some
      order, followed by the withheld tail; graphics are exactly the plain bytes, in order, and
      the escapes exactly the complete ones, in order. */
  lemma {:induction false} DemuxConserves(s: string) returns (items: seq<Item>)
    ensures SplitInto(s, Demux(s), items)
    decreases |s|
  {
    if s == "" {
      return [];
    }
    var end := EscapeEnd(s);
    if s[0] != ESC || (end == -1 && |s| >= ESCAPE_SPAN) {
      items := DemuxConserves(s[1..]);
      SplitPlainByte(s, Demux(s[1..]), items);
      items := [Data(s[..1])] + items;
    } else if end != -1 {
      items := DemuxConserves(s[end + 1..]);
      SplitEscape(s, end, Demux(s[end + 1..]), items);
      items := [Escape(s[..end + 1])] + items;
    } else {
      items := [];
    }
  }

  lemma {:induction false} FindEndSkips(t: string, lo: nat)
    requires CompleteEscape(t) && 2 <= lo <= |t| - 1
    ensures FindEnd(t, lo, |t|) == |t| - 1
    decreases |t| - lo
  {
    if lo < |t| - 1 {
      FindEndSkips(t, lo + 1);
    }
  }

  lemma DemuxEscape(t: string, rest: string)
    requires CompleteEscape(t)
    ensures Demux(t + rest) == Token(t, Demux(rest))
  {
    var s := t + rest;
    FindEndSkips(t, 2);
    EscapeEndStable(t, rest);
    assert s[..|t|] == t && s[|t|..] == rest;
  }

  /** Demultiplexing undoes multiplexing: the payload and the queries come back unchanged. */
  lemma {:induction false} DemuxMux(items: seq<Item>)
    requires forall i :: 0 <= i < |items| ==> GoodItem(items[i])
    ensures Demux(Mux(items)) == Parsed(EscapesOf(items), DataOf(items), "")
  {
    if items != [] {
      assert GoodItem(items[0]);
      DemuxMux(items[1..]);
      var rest := Mux(items[1..]);
      match items[0] {
        case Data(bytes) =>
          DemuxPrefix(bytes, rest);
          assert [] + EscapesOf(items[1..]) == EscapesOf(items[1..]);
        case Escape(token) =>
          DemuxEscape(token, rest);
          assert "" + DataOf(items[1..]) == DataOf(items[1..]);
      }
    }
  }

  /** Together: any cutting of a multiplexed stream into reads recovers payload and queries. */
  lemma DemuxMuxAnyReads(items: seq<Item>, blocks: seq<string>)
    requires forall i :: 0 <= i < |items| ==> GoodItem(items[i])
    requires Concat(blocks) == Mux(items)
    ensures ReadBlocks("", blocks) == Parsed(EscapesOf(items), DataOf(items), "")
  {
    ReadsDoNotMatter("", blocks);
    assert "" + Concat(blocks) == Concat(blocks);
    DemuxMux(items);
  }

  const ASK_SPACE: string := [ESC] + ".B;"
  const ASK_ERROR: string := [ESC] + ".E;"
  const ABORT: string := [ESC] + ".K"
  const PEN_UP: string := "PU;"

  /** The abort sequence carries no terminator of its own, so the handler takes the pen-up
      written behind it for the rest of the escape: no pen-up reaches the graphics buffer. */
  lemma AbortSwallowsPenUp(rest: string)
    ensures CompleteEscape(ASK_SPACE) && CompleteEscape(ASK_ERROR)
    ensures Demux(ABORT + PEN_UP + rest) == Token(ABORT + PEN_UP, Demux(rest))
  {
    var t := ABORT + PEN_UP;
    assert t == [ESC, '.', 'K', 'P', 'U', ';'];
    DemuxEscape(t, rest);
  }
}
