/** The redaction window (internal/core/secret/window.go) and what it keeps out of the ring. */
module Secret {
  import opened Basics

  /** What stands in the ring for `n` redacted bytes. */
  function Placeholder(n: nat): Bytes {
    "[redacted " + Decimal(n) + " bytes]"
  }

  function Filtered(active: bool, data: Bytes): Bytes {
    if active then Placeholder(|data|) else data
  }

  /** A placeholder tells the number of bytes it stands for, and so nothing more than that. */
  lemma PlaceholderTellsLength(n: nat, m: nat)
    ensures Placeholder(n) == Placeholder(m) <==> n == m
    ensures Placeholder(n)[10..|Placeholder(n)| - 7] == Decimal(n)
  {
    assert Placeholder(n)[10..|Placeholder(n)| - 7] == Decimal(n);
    assert Placeholder(m)[10..|Placeholder(m)| - 7] == Decimal(m);
    DecimalRoundTrip(n);
    DecimalRoundTrip(m);
  }

  class Window {
    var active: bool

    constructor ()
      ensures !active
    {
      active := false;
    }

    method Begin()
      modifies this
      ensures active
    {
      active := true;
    }

    method Finish()
      modifies this
      ensures !active
    {
      active := false;
    }

    method FilterTarget(data: Bytes) returns (r: Bytes)
      ensures r == Filtered(active, data)
    {
      if !active {
        return data;
      }
      return "[redacted " + Decimal(|data|) + " bytes]";
    }
  }

  /** One chunk the reader handled, with the window as it sampled it. */
  datatype Read = Read(active: bool, raw: Bytes)

  /** Everything those reads put into the ring. */
  function RingLog(taken: seq<Read>): (log: Bytes) {
    if taken == [] then []
    else
      var last := taken[|taken| - 1];
      RingLog(taken[..|taken| - 1]) + Filtered(last.active, last.raw)
  }

  /** Two reads an observer of the ring must not be able to tell apart. */
  predicate Alike(a: Read, b: Read) {
    a.active == b.active && if a.active then |a.raw| == |b.raw| else a.raw == b.raw
  }

  /** Only the length of what is read under an open window reaches the ring. */
  lemma {:induction false} RedactionNonInterference(a: seq<Read>, b: seq<Read>)
    requires |a| == |b| && forall i :: 0 <= i < |a| ==> Alike(a[i], b[i])
    ensures RingLog(a) == RingLog(b)
  {
    if a != [] {
      RedactionNonInterference(a[..|a| - 1], b[..|b| - 1]);
    }
  }

  /** The placeholders of those reads, one after the other. */
  function Masked(chunks: seq<Read>): Bytes {
    if chunks == [] then [] else Masked(chunks[..|chunks| - 1]) + Placeholder(|chunks[|chunks| - 1].raw|)
  }

  /** Reads made under an open window from the `k`-th on add only their placeholders to the ring. */
  lemma {:induction false} MaskedFrom(taken: seq<Read>, k: nat)
    requires k <= |taken| && forall i :: k <= i < |taken| ==> taken[i].active
    ensures RingLog(taken) == RingLog(taken[..k]) + Masked(taken[k..])
  {
    if k == |taken| {
      WholePrefix(taken);
    } else {
      var n := |taken| - 1;
      MaskedFrom(taken[..n], k);
      FrontAndRest(taken, k);
      Associates(RingLog(taken[..k]), Masked(taken[..n][k..]), Placeholder(|taken[n].raw|));
    }
  }

  lemma FrontAndRest(taken: seq<Read>, k: nat)
    requires k < |taken|
    ensures var n := |taken| - 1;
      taken[..n][..k] == taken[..k] && taken[k..] == taken[..n][k..] + [taken[n]] && taken[k..][..n - k] == taken[..n][k..]
  {
  }
}
