/** Boundary-safe cutting of an HP-GL payload: the streamer's window rule, the transport's
    chunk rule, and the transport's greedy division of a whole payload. */
module Chunking {
  import opened Text

  /** A cut at `e` falls just past a terminator. */
  predicate Boundary(data: string, e: nat) {
    0 < e <= |data| && data[e - 1] == ';'
  }

  lemma NoBoundaryInside(data: string, a: nat, b: nat)
    requires a <= b <= |data|
    requires ';' !in data[a..b]
    ensures forall e :: a < e <= b ==> !Boundary(data, e)
  {
    forall e | a < e <= b ensures !Boundary(data, e) {
      assert data[a..b][e - 1 - a] == data[e - 1];
    }
  }

  /** End of the streamer's next chunk: just past the last `;` of the window, or -1. */
  function SplitChunk(payload: string, start: nat, maxBytes: nat): (end: int)
    requires start <= |payload|
    ensures end != -1 ==> start < end <= start + maxBytes && Boundary(payload, end)
    ensures forall e :: start < e <= start + maxBytes && Boundary(payload, e) ==> end != -1 && e <= end
  {
    var windowEnd := if start + maxBytes < |payload| then start + maxBytes else |payload|;
    if windowEnd == start then -1
    else
      var cut := FindLast(payload, ';', start, windowEnd);
      NoBoundaryInside(payload, if cut == -1 then start else cut + 1, windowEnd);
      if cut != -1 then cut + 1 else -1
  }

  /** End of the transport's next chunk from `start` within `room` bytes. */
  function NextStop(data: string, start: nat, room: int): (stop: nat)
    requires start < |data|
    ensures start < stop <= |data|
    ensures stop < |data| ==> Boundary(data, stop)
    ensures forall e :: start < e <= start + room && Boundary(data, e) ==> e <= stop
    ensures start + room >= |data| ==> stop == |data|
    ensures forall e :: start + room < e < stop && start < e ==> !Boundary(data, e)
  {
    var room' := if room > 0 then room else 0;
    var end := if start + room' < |data| then start + room' else |data|;
    if end == |data| then |data|
    else
      var idx := FindLast(data, ';', start, end);
      if idx >= start then
        NoBoundaryInside(data, idx + 1, end);
        idx + 1
      else
        var next := Find(data, ';', end, |data|);
        NoBoundaryInside(data, start, end);
        NoBoundaryInside(data, end, if next == -1 then |data| else next);
        if next == -1 then |data| else next + 1
  }

  /** A chunk `data[a..b]` ends at a boundary, and either fits or is one instruction. */
  ghost predicate GoodChunk(data: string, a: nat, b: nat, max: nat) {
    && a < b <= |data|
    && (b == |data| || data[b - 1] == ';')
    && (b - a <= max || ';' !in data[a..b - 1])
  }

  lemma NextStopIsGood(data: string, start: nat, max: nat)
    requires start < |data|
    ensures GoodChunk(data, start, NextStop(data, start, max), max)
  {
    var stop := NextStop(data, start, max);
    forall i | start <= i < stop - 1 && stop - start > max ensures data[i] != ';' {
      assert !Boundary(data, i + 1);
    }
  }

  /** Greedy stays ahead: from a later start, the greedy stop is never behind. */
  lemma GreedyStaysAhead(data: string, a: nat, b: nat, g: nat, max: nat)
    requires GoodChunk(data, a, b, max)
    requires a <= g < |data|
    ensures b <= NextStop(data, g, max)
  {
    if b - a <= max {
      assert b == |data| || Boundary(data, b);
    } else {
      NoBoundaryInside(data, a, b - 1);
    }
  }

  /** A division of `data[from..]`: the ends of its chunks, in order. */
  ghost predicate Division(data: string, from: nat, ends: seq<nat>, max: nat)
    requires from <= |data|
    decreases |ends|
  {
    if from == |data| then ends == []
    else ends != [] && GoodChunk(data, from, ends[0], max) && Division(data, ends[0], ends[1..], max)
  }

  function GreedyEnds(data: string, from: nat, max: nat): (ends: seq<nat>)
    requires from <= |data|
    decreases |data| - from
  {
    if from == |data| then []
    else
      var stop := NextStop(data, from, max);
      [stop] + GreedyEnds(data, stop, max)
  }

  lemma {:induction false} GreedyIsDivision(data: string, from: nat, max: nat)
    requires from <= |data|
    ensures Division(data, from, GreedyEnds(data, from, max), max)
    decreases |data| - from
  {
    if from < |data| {
      NextStopIsGood(data, from, max);
      GreedyIsDivision(data, NextStop(data, from, max), max);
    }
  }

  /** The greedy division has the fewest chunks of all divisions. */
  lemma {:induction false} GreedyIsOptimal(data: string, from: nat, ahead: nat, ends: seq<nat>, max: nat)
    requires from <= ahead <= |data|
    requires Division(data, from, ends, max)
    ensures |GreedyEnds(data, ahead, max)| <= |ends|
    decreases |ends|
  {
    if ahead < |data| {
      GreedyStaysAhead(data, from, ends[0], ahead, max);
      GreedyIsOptimal(data, ends[0], NextStop(data, ahead, max), ends[1..], max);
    }
  }

  function Pieces(data: string, from: nat, ends: seq<nat>, max: nat): (r: seq<string>)
    requires from <= |data|
    requires Division(data, from, ends, max)
    ensures |r| == |ends|
    decreases |ends|
  {
    if ends == [] then [] else [data[from..ends[0]]] + Pieces(data, ends[0], ends[1..], max)
  }

  /** Division is lossless. */
  lemma {:induction false} PiecesConcat(data: string, from: nat, ends: seq<nat>, max: nat)
    requires from <= |data|
    requires Division(data, from, ends, max)
    ensures Concat(Pieces(data, from, ends, max)) == data[from..]
    decreases |ends|
  {
    if ends != [] {
      PiecesConcat(data, ends[0], ends[1..], max);
      var rest := Pieces(data, ends[0], ends[1..], max);
      var pieces := [data[from..ends[0]]] + rest;
      assert Pieces(data, from, ends, max) == pieces;
      assert pieces[0] == data[from..ends[0]] && pieces[1..] == rest;
      assert data[from..] == data[from..ends[0]] + data[ends[0]..];
    }
  }

  datatype ChunkResult = Chunks(chunks: seq<string>) | BadMaxLen

  /** The transport's division loop: lossless, boundary-safe, and with the fewest chunks. */
  method SplitChunks(data: string, maxLen: int) returns (r: ChunkResult)
    ensures r.BadMaxLen? <==> maxLen <= 0
    ensures r.Chunks? ==>
      && Concat(r.chunks) == data
      && exists ends :: Division(data, 0, ends, maxLen) && r.chunks == Pieces(data, 0, ends, maxLen)
    ensures r.Chunks? ==> forall ends :: Division(data, 0, ends, maxLen) ==> |r.chunks| <= |ends|
  {
    if maxLen <= 0 {
      return BadMaxLen;
    }
    var chunks: seq<string> := [];
    var start := 0;
    ghost var all := GreedyEnds(data, 0, maxLen);
    GreedyIsDivision(data, 0, maxLen);
    ghost var whole := Pieces(data, 0, all, maxLen);
    while start < |data|
      invariant 0 <= start <= |data|
      invariant Division(data, start, GreedyEnds(data, start, maxLen), maxLen)
      invariant whole == chunks + Pieces(data, start, GreedyEnds(data, start, maxLen), maxLen)
      decreases |data| - start
    {
      var stop := NextStop(data, start, maxLen);
      ghost var rest := GreedyEnds(data, start, maxLen);
      assert rest[1..] == GreedyEnds(data, stop, maxLen);
      chunks := chunks + [data[start..stop]];
      start := stop;
    }
    assert chunks == whole;
    PiecesConcat(data, 0, all, maxLen);
    forall ends | Division(data, 0, ends, maxLen) ensures |chunks| <= |ends| {
      GreedyIsOptimal(data, 0, 0, ends, maxLen);
    }
    return Chunks(chunks);
  }

  /** On `;`-terminated data the streamer and the transport cut at the same place
      whenever the streamer finds a cut at all. */
  lemma ChunkersAgree(data: string, start: nat, room: nat)
    requires start < |data| && data[|data| - 1] == ';'
    ensures var end := SplitChunk(data, start, room);
      && (end != -1 ==> NextStop(data, start, room) == end)
      && (end == -1 <==> NextStop(data, start, room) > start + room)
  {
    var stop := NextStop(data, start, room);
    assert Boundary(data, |data|);
    assert Boundary(data, stop);
  }
}
