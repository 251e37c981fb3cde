/** The bounded transcript ring (internal/core/transcript/ring.go). */
module Transcript {
  import opened Basics

  /** The ring's append-only history seen through a window of `capacity` bytes. */
  function RetainedStart(total: nat, capacity: nat): nat {
    if total > capacity then total - capacity else 0
  }

  datatype Chunk = Chunk(start: nat, next: nat, data: Bytes, gap: bool)

  /** What a read starting at `after` delivers when `log` is everything ever appended.
      A negative `max` means no limit. */
  function ReadLog(log: Bytes, capacity: nat, after: nat, max: int): (c: Chunk)
    ensures c.gap ==> after < c.start == |log| - capacity
    ensures !c.gap ==> c.start == if after <= |log| then after else |log|
    ensures c.start <= c.next <= |log| && c.data == log[c.start..c.next]
    ensures c.next == |log| || (0 <= max == c.next - c.start)
  {
    var gap := after < RetainedStart(|log|, capacity);
    var from := if gap then RetainedStart(|log|, capacity) else if after > |log| then |log| else after;
    var n := if 0 <= max < |log| - from then max else |log| - from;
    Chunk(from, from + n, log[from..from + n], gap)
  }

  /** The physical position of sequence number `i`. */
  function Slot(i: nat, capacity: nat): (p: nat)
    requires capacity > 0
    ensures p < capacity
  {
    i % capacity
  }

  /** Within one turn of the ring, positions advance by one and wrap once. */
  lemma SlotShift(a: nat, k: nat, capacity: nat)
    requires 0 < capacity && k < capacity
    ensures Slot(a + k, capacity)
         == if Slot(a, capacity) + k < capacity then Slot(a, capacity) + k else Slot(a, capacity) + k - capacity
  {
    var q, p := a / capacity, a % capacity;
    assert a + k == q * capacity + (p + k);
    if p + k < capacity {
      ModUnique(a + k, q, p + k, capacity);
    } else {
      assert a + k == (q + 1) * capacity + (p + k - capacity);
      ModUnique(a + k, q + 1, p + k - capacity, capacity);
    }
  }

  lemma ModUnique(x: nat, q: nat, r: nat, m: nat)
    requires 0 < m && r < m && x == q * m + r
    ensures x % m == r
  {
    var d := x / m - q;
    assert d * m == r - x % m;
    if d > 0 {
      AtLeastOnce(d, m);
    } else if d < 0 {
      AtLeastOnce(-d, m);
    }
  }

  lemma AtLeastOnce(d: int, m: nat)
    requires d >= 1
    ensures d * m >= m
  {
  }

  /** Two sequence numbers less than one turn apart never share a position. */
  lemma SlotInjective(a: nat, b: nat, capacity: nat)
    requires 0 < capacity && a < b < a + capacity
    ensures Slot(a, capacity) != Slot(b, capacity)
  {
    SlotShift(a, b - a, capacity);
  }

  class Ring {
    const buf: array<Byte>
    var total: nat
    ghost var log: Bytes // everything ever appended

    /** Every retained sequence number finds its own byte at its position. */
    ghost predicate Valid()
      reads this, buf
    {
      && buf.Length > 0
      && total == |log|
      && forall i: nat :: RetainedStart(total, buf.Length) <= i < total ==>
           buf[Slot(i, buf.Length)] == log[i]
    }

    constructor (capacity: nat)
      requires capacity > 0
      ensures Valid() && fresh(buf) && buf.Length == capacity && log == []
    {
      buf := new Byte[capacity];
      total := 0;
      log := [];
    }

    /** Copies `src` to `buf` starting at `at`, like the built-in copy. */
    method CopyIn(at: nat, src: Bytes)
      requires at + |src| <= buf.Length
      modifies buf
      ensures forall p :: 0 <= p < buf.Length ==>
        buf[p] == if at <= p < at + |src| then src[p - at] else old(buf[p])
    {
      var k := 0;
      while k < |src|
        invariant 0 <= k <= |src|
        invariant forall p :: 0 <= p < buf.Length ==>
          buf[p] == if at <= p < at + k then src[p - at] else old(buf[p])
      {
        buf[at + k] := src[k];
        k := k + 1;
      }
    }

    /** Writes `src` at the positions of the sequence numbers `from`, `from + 1`, ..., wrapping once. */
    method CopyWrapped(from: nat, src: Bytes)
      requires 0 < buf.Length && |src| <= buf.Length
      modifies buf
      ensures forall k :: 0 <= k < |src| ==> buf[Slot(from + k, buf.Length)] == src[k]
      ensures forall i: nat :: i < from && from + |src| <= i + buf.Length ==>
        buf[Slot(i, buf.Length)] == old(buf[Slot(i, buf.Length)])
    {
      var start := Slot(from, buf.Length);
      var first := buf.Length - start;
      if first > |src| {
        first := |src|;
      }
      CopyIn(start, src[..first]);
      if |src| > first {
        CopyIn(0, src[first..]);
      }
      forall k | 0 <= k < |src|
        ensures buf[Slot(from + k, buf.Length)] == src[k]
      {
        if k < buf.Length { SlotShift(from, k, buf.Length); }
      }
      forall i: nat | i < from && from + |src| <= i + buf.Length
        ensures buf[Slot(i, buf.Length)] == old(buf[Slot(i, buf.Length)])
      {
        OutsideCopy(i, from, |src|, first, buf.Length);
      }
    }

    method Append(data: Bytes)
      requires Valid()
      modifies this`total, this`log, buf
      ensures Valid()
      ensures log == old(log) + data
    {
      if |data| == 0 {
        assert log + data == log;
        return;
      }
      if |data| >= buf.Length {
        Replace(data);
      } else {
        Extend(data);
      }
    }

    /** Data that fills the ring: only its end is kept. */
    method Replace(data: Bytes)
      requires Valid() && |data| >= buf.Length
      modifies this`total, this`log, buf
      ensures Valid()
      ensures log == old(log) + data
    {
      var capacity := buf.Length;
      var from := total + |data| - capacity;
      CopyWrapped(from, data[|data| - capacity..]);
      log := log + data;
      total := total + |data|;
      forall i: nat | from <= i < total
        ensures buf[Slot(i, capacity)] == log[i]
      {
        assert buf[Slot(from + (i - from), capacity)] == data[|data| - capacity..][i - from];
      }
    }

    /** Data that leaves some of what the ring holds. */
    method Extend(data: Bytes)
      requires Valid() && |data| < buf.Length
      modifies this`total, this`log, buf
      ensures Valid()
      ensures log == old(log) + data
    {
      var capacity := buf.Length;
      CopyWrapped(total, data);
      log := log + data;
      forall i: nat | RetainedStart(total + |data|, capacity) <= i < total + |data|
        ensures buf[Slot(i, capacity)] == log[i]
      {
        if i >= total {
          assert buf[Slot(total + (i - total), capacity)] == data[i - total];
        }
      }
      total := total + |data|;
    }

    method Len() returns (n: nat)
      requires Valid()
      ensures n == |log|
    {
      n := total;
    }

    method ReadAfter(after: nat, max: int) returns (c: Chunk)
      requires Valid()
      ensures c == ReadLog(log, buf.Length, after, max)
    {
      var retainedStart := 0;
      if total > buf.Length {
        retainedStart := total - buf.Length;
      }
      var gap := after < retainedStart;
      var from := after;
      if gap {
        from := retainedStart;
      }
      if from > total {
        from := total;
      }
      var n := total - from;
      if 0 <= max < n {
        n := max;
      }
      var data := ReadRange(from, n);
      c := Chunk(from, from + n, data, gap);
    }

    method ReadRange(from: nat, n: nat) returns (out: Bytes)
      requires Valid()
      requires RetainedStart(total, buf.Length) <= from && from + n <= total
      ensures out == log[from..from + n]
    {
      if n == 0 {
        return [];
      }
      var capacity := buf.Length;
      var start := Slot(from, capacity);
      var first := capacity - start;
      if first > n {
        first := n;
      }
      out := buf[start..start + first];
      if n > first {
        out := out + buf[..n - first];
      }
      forall k | 0 <= k < n
        ensures out[k] == log[from + k]
      {
        SlotShift(from, k, capacity);
        assert buf[Slot(from + k, capacity)] == log[from + k];
      }
    }
  }

  /** A position whose sequence number lies within one turn before the copied range is not written. */
  lemma OutsideCopy(i: nat, from: nat, n: nat, first: nat, capacity: nat)
    requires 0 < capacity && n <= capacity
    requires i < from && from + n <= i + capacity
    requires first == if capacity - Slot(from, capacity) > n then n else capacity - Slot(from, capacity)
    ensures !(Slot(from, capacity) <= Slot(i, capacity) < Slot(from, capacity) + first)
    ensures n > first ==> !(Slot(i, capacity) < n - first)
  {
    var p, j := Slot(i, capacity), Slot(from, capacity);
    if j <= p < j + first {
      SlotShift(from, p - j, capacity);
      SlotInjective(i, from + (p - j), capacity);
    }
    if n > first && p < n - first {
      var k := p + capacity - j;
      SlotShift(from, k, capacity);
      SlotInjective(i, from + k, capacity);
    }
  }

  // ---- A polling client: any interleaving of appends and reads ----

  datatype PollOp = Write(data: Bytes) | Poll(max: int)

  datatype Seen = Seen(total: nat, chunk: Chunk)

  datatype Poller = Poller(log: Bytes, cursor: nat, seen: seq<Seen>)

  /** The client starts at sequence 0 and passes each chunk's `next` to the following read. */
  function PollRun(capacity: nat, ops: seq<PollOp>): (p: Poller) {
    if ops == [] then Poller([], 0, [])
    else
      var p := PollRun(capacity, ops[..|ops| - 1]);
      match ops[|ops| - 1]
      case Write(data) => p.(log := p.log + data)
      case Poll(max) =>
        var c := ReadLog(p.log, capacity, p.cursor, max);
        p.(cursor := c.next, seen := p.seen + [Seen(|p.log|, c)])
  }

  function CursorOf(seen: seq<Seen>): nat {
    if seen == [] then 0 else seen[|seen| - 1].chunk.next
  }

  /** The received data with every reported gap, and nothing else, filled in from `log`. */
  function Filled(log: Bytes, seen: seq<Seen>): (r: Bytes) {
    if seen == [] then []
    else
      var before := seen[..|seen| - 1];
      var c := seen[|seen| - 1].chunk;
      var missed := if c.gap && CursorOf(before) <= c.start <= |log| then log[CursorOf(before)..c.start] else [];
      Filled(log, before) + missed + c.data
  }

  /** Each reported gap is a nonempty interval that had already been overwritten. */
  ghost predicate GapsHonest(capacity: nat, seen: seq<Seen>) {
    forall i :: 0 <= i < |seen| ==>
      var c := seen[i].chunk;
      var from := CursorOf(seen[..i]);
      && (c.gap <==> from < c.start)
      && (c.gap ==> c.start == seen[i].total - capacity)
      && from <= c.start
  }

  ghost predicate Within(log: Bytes, seen: seq<Seen>) {
    forall i :: 0 <= i < |seen| ==> seen[i].chunk.start <= |log|
  }

  lemma {:induction false} FilledStable(log: Bytes, more: Bytes, seen: seq<Seen>)
    requires Within(log, seen)
    ensures Filled(log + more, seen) == Filled(log, seen)
  {
    if seen != [] {
      var before, c := seen[..|seen| - 1], seen[|seen| - 1].chunk;
      FilledStable(log, more, before);
      if c.gap && CursorOf(before) <= c.start {
        assert (log + more)[CursorOf(before)..c.start] == log[CursorOf(before)..c.start];
      }
    }
  }

  /** What one more read adds to an account that was complete so far. */
  lemma {:induction false} FilledRead(log: Bytes, capacity: nat, seen: seq<Seen>, max: int)
    requires CursorOf(seen) <= |log| && Filled(log, seen) == log[..CursorOf(seen)]
    ensures var c := ReadLog(log, capacity, CursorOf(seen), max);
      Filled(log, seen + [Seen(|log|, c)]) == log[..c.next]
  {
    var c := ReadLog(log, capacity, CursorOf(seen), max);
    FilledSnoc(log, seen, Seen(|log|, c));
    Splice(log, CursorOf(seen), c.start, c.next);
  }

  lemma {:induction false} FilledSnoc(log: Bytes, seen: seq<Seen>, s: Seen)
    requires CursorOf(seen) <= s.chunk.start <= |log|
    ensures Filled(log, seen + [s])
         == Filled(log, seen) + (if s.chunk.gap then log[CursorOf(seen)..s.chunk.start] else []) + s.chunk.data
  {
    assert (seen + [s])[..|seen|] == seen;
  }

  lemma Splice(log: Bytes, a: nat, b: nat, c: nat)
    requires a <= b <= c <= |log|
    ensures log[..c] == log[..a] + log[a..b] + log[b..c]
    ensures a == b ==> log[a..b] == []
  {
  }

  lemma GapsHonestRead(log: Bytes, capacity: nat, seen: seq<Seen>, max: int)
    requires CursorOf(seen) <= |log| && GapsHonest(capacity, seen)
    ensures GapsHonest(capacity, seen + [Seen(|log|, ReadLog(log, capacity, CursorOf(seen), max))])
  {
    var seen' := seen + [Seen(|log|, ReadLog(log, capacity, CursorOf(seen), max))];
    forall i | 0 <= i < |seen'|
      ensures seen'[..i] == if i < |seen| then seen[..i] else seen
    {
    }
  }

  /** A poller receives the log up to its cursor, with exactly the reported gaps missing. */
  lemma {:induction false} PollerReceivesLog(capacity: nat, ops: seq<PollOp>)
    ensures var p := PollRun(capacity, ops);
      && p.cursor == CursorOf(p.seen) <= |p.log|
      && Filled(p.log, p.seen) == p.log[..p.cursor]
      && GapsHonest(capacity, p.seen)
      && Within(p.log, p.seen)
  {
    if ops != [] {
      PollerReceivesLog(capacity, ops[..|ops| - 1]);
      var q := PollRun(capacity, ops[..|ops| - 1]);
      match ops[|ops| - 1] {
        case Write(data) =>
          FilledStable(q.log, data, q.seen);
          assert (q.log + data)[..q.cursor] == q.log[..q.cursor];
        case Poll(max) =>
          FilledRead(q.log, capacity, q.seen, max);
          GapsHonestRead(q.log, capacity, q.seen, max);
      }
    }
  }

  /** The data alone, as the client concatenates it. */
  function Received(seen: seq<Seen>): (r: Bytes) {
    if seen == [] then [] else Received(seen[..|seen| - 1]) + seen[|seen| - 1].chunk.data
  }

  lemma {:induction false} GaplessFilled(log: Bytes, seen: seq<Seen>)
    requires forall i :: 0 <= i < |seen| ==> !seen[i].chunk.gap
    ensures Filled(log, seen) == Received(seen)
  {
    if seen != [] {
      GaplessFilled(log, seen[..|seen| - 1]);
    }
  }

  /** A poller that saw no gap holds a verbatim prefix; after one unlimited read, the whole log. */
  lemma GaplessPollerHoldsLog(capacity: nat, ops: seq<PollOp>)
    requires forall i :: 0 <= i < |PollRun(capacity, ops).seen| ==> !PollRun(capacity, ops).seen[i].chunk.gap
    ensures var p := PollRun(capacity, ops); p.cursor <= |p.log| && Received(p.seen) == p.log[..p.cursor]
    ensures ops != [] && ops[|ops| - 1].Poll? && ops[|ops| - 1].max < 0 ==>
      var p := PollRun(capacity, ops); p.cursor == |p.log| && Received(p.seen) == p.log
  {
    PollerReceivesLog(capacity, ops);
    var p := PollRun(capacity, ops);
    GaplessFilled(p.log, p.seen);
  }
}
