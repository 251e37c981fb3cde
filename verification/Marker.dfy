/** The completion marker (internal/gateway/marker.go). */
module Marker {
  import opened Basics
  import ManagedCommand

  datatype Marker = Marker(transactionId: Bytes, nonce: Bytes)

  /** The whitespace class of the marker pattern. */
  predicate IsSpace(c: Byte) { c == '\t' || c == '\n' || c == '\U{0C}' || c == '\r' || c == ' ' }

  predicate IsIdByte(c: Byte) { 'a' <= c <= 'z' || '0' <= c <= '9' || c == '-' }

  predicate AllIdBytes(s: Bytes) {
    forall i :: 0 <= i < |s| ==> IsIdByte(s[i])
  }

  predicate AllHex(s: Bytes) {
    forall i :: 0 <= i < |s| ==> IsHex(s[i])
  }

  /** Identifiers are a short prefix and 16 hex digits; nonces are 128 bits in hex. */
  predicate Good(m: Marker) {
    0 < |m.transactionId| < 32 && AllIdBytes(m.transactionId) && |m.nonce| == 32 && AllHex(m.nonce)
  }

  const TAG: Bytes := "GWMARK:"

  /** The part of a completion line before the status digits. */
  function Header(m: Marker): (h: Bytes) {
    TAG + m.transactionId + ":" + m.nonce + ":"
  }

  /** The fragment appended to the command text on the same physical line. */
  function ShellSuffix(m: Marker): (s: Bytes) {
    "; printf '\\n" + Header(m) + "%d\\n' \"$?\""
  }

  // ---- The pattern GWMARK:([^:\s]+):([0-9a-f]{32}):(-?[0-9]+) ----

  /** End of the longest run of bytes satisfying the identifier class from `i`. */
  function IdEnd(buf: Bytes, i: nat): (e: nat)
    requires i <= |buf|
    ensures i <= e <= |buf|
    ensures forall k :: i <= k < e ==> buf[k] != ':' && !IsSpace(buf[k])
    ensures e < |buf| ==> buf[e] == ':' || IsSpace(buf[e])
    decreases |buf| - i
  {
    if i < |buf| && buf[i] != ':' && !IsSpace(buf[i]) then IdEnd(buf, i + 1) else i
  }

  function DigitsEnd(buf: Bytes, i: nat): (e: nat)
    requires i <= |buf|
    ensures i <= e <= |buf|
    ensures forall k :: i <= k < e ==> IsDigit(buf[k])
    ensures e < |buf| ==> !IsDigit(buf[e])
    decreases |buf| - i
  {
    if i < |buf| && IsDigit(buf[i]) then DigitsEnd(buf, i + 1) else i
  }

  datatype Match = Match(end: nat, id: Bytes, nonce: Bytes, status: Bytes)

  /** The match starting at `i`, if there is one; the pattern leaves no choice of extent. */
  function MatchAt(buf: Bytes, i: nat): (r: Option<Match>)
    ensures r.Some? ==> i < r.value.end <= |buf|
  {
    if !OccursAt(buf, TAG, i) then None
    else
      var a := i + |TAG|;
      var b := IdEnd(buf, a);
      if !(a < b && b + 34 <= |buf| && buf[b] == ':') then None
      else if !(buf[b + 33] == ':' && forall k :: b + 1 <= k < b + 33 ==> IsHex(buf[k])) then None
      else
        var c := b + 34;
        var d := if c < |buf| && buf[c] == '-' then c + 1 else c;
        var e := DigitsEnd(buf, d);
        if d < e then Some(Match(e, buf[a..b], buf[b + 1..b + 33], buf[c..e])) else None
  }

  /** All leftmost non-overlapping matches from `i` on. */
  function Matches(buf: Bytes, i: nat): (r: seq<Match>)
    decreases |buf| - i
  {
    if i >= |buf| then []
    else match MatchAt(buf, i)
      case None => Matches(buf, i + 1)
      case Some(m) => [m] + Matches(buf, m.end)
  }

  const MAX_INT: int := 0x7fff_ffff_ffff_ffff

  predicate IsNumeral(s: Bytes) {
    s != [] && if s[0] == '-' then |s| > 1 && AllDigits(s[1..]) else AllDigits(s)
  }

  /** The number scanned from a numeral, failing outside the 64-bit range. */
  function ScanInt(s: Bytes): (r: Option<int>) {
    if !IsNumeral(s) then None
    else
      var v := if s[0] == '-' then 0 - DigitsValue(s[1..]) else DigitsValue(s) as int;
      if -MAX_INT - 1 <= v <= MAX_INT then Some(v) else None
  }

  predicate Own(m: Marker, x: Match) {
    x.id == m.transactionId && x.nonce == m.nonce && ScanInt(x.status).Some?
  }

  function FirstOwn(m: Marker, ms: seq<Match>): (r: Option<int>) {
    if ms == [] then None
    else if Own(m, ms[0]) then ScanInt(ms[0].status)
    else FirstOwn(m, ms[1..])
  }

  /** What the marker search finds in `buf`. */
  function Search(m: Marker, buf: Bytes): Option<int> {
    FirstOwn(m, Matches(buf, 0))
  }

  method Find(m: Marker, buf: Bytes) returns (r: Option<int>)
    ensures r == Search(m, buf)
  {
    var ms := Matches(buf, 0);
    var k := 0;
    while k < |ms|
      invariant 0 <= k <= |ms|
      invariant Search(m, buf) == FirstOwn(m, ms[k..])
    {
      if ms[k].id != m.transactionId || ms[k].nonce != m.nonce {
        k := k + 1;
        continue;
      }
      var code := ScanInt(ms[k].status);
      if code == None {
        k := k + 1;
        continue;
      }
      return code;
    }
    return None;
  }

  // ---- Soundness ----

  /** `buf` holds this marker's header at `p`, directly followed by the numeral `status`,
      which no further digit extends. */
  ghost predicate Carries(buf: Bytes, m: Marker, p: nat, status: Bytes) {
    && OccursAt(buf, Header(m) + status, p)
    && IsNumeral(status)
    && var e := p + |Header(m)| + |status|;
       (e < |buf| ==> !IsDigit(buf[e]))
  }

  /** Where the parts of a match stand: the identifier ends at `b`, the status starts at `c`. */
  lemma MatchParts(buf: Bytes, i: nat) returns (b: nat, c: nat)
    requires MatchAt(buf, i).Some?
    ensures var x := MatchAt(buf, i).value;
      && OccursAt(buf, TAG, i)
      && i + 7 <= b && c == b + 34 && c < x.end <= |buf|
      && x.id == buf[i + 7..b] && buf[b] == ':'
      && x.nonce == buf[b + 1..b + 33] && buf[b + 33] == ':'
      && x.status == buf[c..x.end]
      && (x.end < |buf| ==> !IsDigit(buf[x.end]))
      && (var d := if buf[c] == '-' then c + 1 else c; d < x.end && forall k :: d <= k < x.end ==> IsDigit(buf[k]))
  {
    b := IdEnd(buf, i + |TAG|);
    c := b + 34;
  }

  lemma NumeralSlice(buf: Bytes, c: nat, e: nat)
    requires c < e <= |buf|
    requires var d := if buf[c] == '-' then c + 1 else c; d < e && forall k :: d <= k < e ==> IsDigit(buf[k])
    ensures IsNumeral(buf[c..e])
  {
    if buf[c] == '-' {
      assert buf[c..e][1..] == buf[c + 1..e];
    }
  }

  lemma MatchShape(buf: Bytes, i: nat)
    requires MatchAt(buf, i).Some?
    ensures var x := MatchAt(buf, i).value; Carries(buf, Marker(x.id, x.nonce), i, x.status)
    ensures var x := MatchAt(buf, i).value; x.end == i + |Header(Marker(x.id, x.nonce))| + |x.status|
  {
    var x := MatchAt(buf, i).value;
    var b, c := MatchParts(buf, i);
    NumeralSlice(buf, c, x.end);
    HeaderStands(buf, i, b, x.end, Marker(x.id, x.nonce), x.status);
  }

  /** The parts side by side are the header and the status. */
  lemma HeaderStands(buf: Bytes, i: nat, b: nat, e: nat, m: Marker, status: Bytes)
    requires OccursAt(buf, TAG, i) && i + 7 <= b && b + 34 <= e <= |buf|
    requires buf[i + 7..b] == m.transactionId && buf[b] == ':'
    requires buf[b + 1..b + 33] == m.nonce && buf[b + 33] == ':' && buf[b + 34..e] == status
    ensures OccursAt(buf, Header(m) + status, i) && e == i + |Header(m)| + |status|
  {
    SixPieces(buf, i, i + 7, b, b + 1, b + 33, b + 34, e);
    OneByte(buf, b);
    OneByte(buf, b + 33);
  }

  lemma OneByte(buf: Bytes, i: nat)
    requires i < |buf|
    ensures buf[i..i + 1] == [buf[i]]
  {
  }

  lemma SliceAt(buf: Bytes, a: nat, b: nat, c: nat)
    requires a <= b <= c <= |buf|
    ensures buf[a..c] == buf[a..b] + buf[b..c]
  {
  }

  lemma SixPieces(buf: Bytes, a: nat, b: nat, c: nat, d: nat, e: nat, f: nat, g: nat)
    requires a <= b <= c <= d <= e <= f <= g <= |buf|
    ensures buf[a..g] == buf[a..b] + buf[b..c] + buf[c..d] + buf[d..e] + buf[e..f] + buf[f..g]
  {
    SliceAt(buf, a, f, g);
    SliceAt(buf, a, e, f);
    SliceAt(buf, a, d, e);
    SliceAt(buf, a, c, d);
    SliceAt(buf, a, b, c);
  }

  lemma {:induction false} FoundSomewhere(m: Marker, buf: Bytes, i: nat)
    requires FirstOwn(m, Matches(buf, i)).Some?
    ensures exists p: nat, status :: Carries(buf, m, p, status) && ScanInt(status) == FirstOwn(m, Matches(buf, i))
    decreases |buf| - i
  {
    match MatchAt(buf, i) {
      case None =>
        FoundSomewhere(m, buf, i + 1);
      case Some(x) =>
        if Own(m, x) {
          MatchShape(buf, i);
          assert Marker(x.id, x.nonce) == m;
          assert Carries(buf, m, i, x.status);
        } else {
          assert Matches(buf, i)[1..] == Matches(buf, x.end);
          FoundSomewhere(m, buf, x.end);
        }
    }
  }

  /** A status is only ever read off this transaction's own identifier and nonce. */
  lemma SearchSound(m: Marker, buf: Bytes)
    requires Search(m, buf).Some?
    ensures exists p: nat, status :: Carries(buf, m, p, status) && ScanInt(status) == Search(m, buf)
  {
    FoundSomewhere(m, buf, 0);
  }

  // ---- The echoed command line ----

  /** No occurrence of the nonce in `buf` is followed by a colon and a numeral. */
  ghost predicate NonceOnlyEchoed(m: Marker, buf: Bytes) {
    forall i: nat :: OccursAt(buf, m.nonce, i) ==>
      i + 33 >= |buf| || buf[i + 32] != ':' || (!IsDigit(buf[i + 33]) && buf[i + 33] != '-')
  }

  lemma EchoOnlyFindsNothing(m: Marker, buf: Bytes)
    requires Good(m) && NonceOnlyEchoed(m, buf)
    ensures Search(m, buf) == None
  {
    if Search(m, buf).Some? {
      SearchSound(m, buf);
      var p: nat, status :| Carries(buf, m, p, status) && ScanInt(status) == Search(m, buf);
      NonceThenNumeral(m, buf, p, status);
      assert false;
    }
  }

  /** A header followed by a numeral shows the nonce followed by a colon and that numeral. */
  lemma NonceThenNumeral(m: Marker, buf: Bytes, p: nat, status: Bytes)
    requires Good(m) && OccursAt(buf, Header(m) + status, p) && IsNumeral(status)
    ensures var i := p + |TAG| + |m.transactionId| + 1;
      OccursAt(buf, m.nonce, i) && i + 33 < |buf| && buf[i + 32] == ':' && (IsDigit(buf[i + 33]) || buf[i + 33] == '-')
  {
    var i := p + |TAG| + |m.transactionId| + 1;
    var before := TAG + m.transactionId + ":";
    var after := ":" + status;
    assert Header(m) + status == before + (m.nonce + after);
    OccursRightPart(buf, before, m.nonce + after, p);
    assert OccursAt(buf, m.nonce + after, i);
    OccursLeftPart(buf, m.nonce, after, i);
    OccursRightPart(buf, m.nonce, after, i);
    assert buf[i + 32] == buf[i + 32..i + 32 + |after|][0];
    assert buf[i + 33] == buf[i + 32..i + 32 + |after|][1] == status[0];
  }

  lemma OccursLeftPart(buf: Bytes, x: Bytes, y: Bytes, i: nat)
    requires OccursAt(buf, x + y, i)
    ensures OccursAt(buf, x, i)
  {
    assert buf[i..i + |x|] == buf[i..i + |x + y|][..|x|];
  }

  lemma OccursRightPart(buf: Bytes, x: Bytes, y: Bytes, i: nat)
    requires OccursAt(buf, x + y, i)
    ensures OccursAt(buf, y, i + |x|)
  {
    assert buf[i + |x|..i + |x| + |y|] == buf[i..i + |x + y|][|x|..];
  }

  /** A hex-only occurrence avoids every position holding another byte. */
  lemma OccurrenceAvoids(m: Marker, buf: Bytes, i: nat, stop: nat)
    requires Good(m) && OccursAt(buf, m.nonce, i) && stop < |buf| && !IsHex(buf[stop])
    ensures stop < i || i + 32 <= stop
  {
    forall k | i <= k < i + 32
      ensures IsHex(buf[k])
    {
      assert buf[k] == buf[i..i + 32][k - i];
    }
  }

  lemma OccursLeft(a: Bytes, b: Bytes, needle: Bytes, i: nat)
    requires OccursAt(a + b, needle, i) && i + |needle| <= |a|
    ensures OccursAt(a, needle, i)
  {
    assert a[i..i + |needle|] == (a + b)[i..i + |needle|];
  }

  lemma OccursRight(a: Bytes, b: Bytes, needle: Bytes, i: nat)
    requires OccursAt(a + b, needle, i) && |a| <= i
    ensures OccursAt(b, needle, i - |a|)
  {
    var j := i - |a|;
    assert b[j..j + |needle|] == (a + b)[i..i + |needle|];
  }

  /** Wherever the nonce occurs in an echo of the written line, it is where the suffix put it. */
  lemma NonceInEcho(m: Marker, pre: Bytes, post: Bytes, i: nat)
    requires Good(m) && !Occurs(pre, m.nonce) && !Occurs(post, m.nonce)
    requires OccursAt(pre + ShellSuffix(m) + post, m.nonce, i)
    ensures i == |pre| + 19 + |m.transactionId| + 1
  {
    var buf := pre + ShellSuffix(m) + post;
    var s, n := ShellSuffix(m), |m.transactionId|;
    assert |s| == 19 + n + 1 + 32 + 1 + 10;
    assert buf[|pre|] == s[0] == ';';
    assert buf[|pre| + 18] == s[18] == ':';
    assert buf[|pre| + 19 + n] == s[19 + n] == ':';
    assert buf[|pre| + 19 + n + 33] == s[19 + n + 33] == ':';
    assert buf[|pre| + |s| - 1] == s[|s| - 1] == '"';
    OccurrenceAvoids(m, buf, i, |pre|);
    OccurrenceAvoids(m, buf, i, |pre| + 18);
    OccurrenceAvoids(m, buf, i, |pre| + 19 + n);
    OccurrenceAvoids(m, buf, i, |pre| + 19 + n + 33);
    OccurrenceAvoids(m, buf, i, |pre| + |s| - 1);
    if i + 32 <= |pre| {
      assert buf == pre + (s + post);
      OccursLeft(pre, s + post, m.nonce, i);
    }
    if i >= |pre| + |s| {
      OccursRight(pre + s, post, m.nonce, i);
    }
  }

  /** The terminal's echo of the written line never completes the transaction: what stands
      before it (prompt and command text) and after it must merely not contain the nonce. */
  lemma EchoNeverCompletes(m: Marker, pre: Bytes, post: Bytes)
    requires Good(m) && !Occurs(pre, m.nonce) && !Occurs(post, m.nonce)
    ensures Search(m, pre + ShellSuffix(m) + post) == None
  {
    var buf := pre + ShellSuffix(m) + post;
    var s, n := ShellSuffix(m), |m.transactionId|;
    forall i: nat | OccursAt(buf, m.nonce, i)
      ensures i + 33 < |buf| && buf[i + 33] == '%'
    {
      NonceInEcho(m, pre, post, i);
      assert buf[i + 33] == s[19 + n + 34] == '%';
    }
    EchoOnlyFindsNothing(m, buf);
  }

  // ---- Recovery of a printed status ----

  lemma {:induction false} IdEndIs(buf: Bytes, i: nat, e: nat)
    requires i <= e < |buf| && buf[e] == ':'
    requires forall k :: i <= k < e ==> IsIdByte(buf[k])
    ensures IdEnd(buf, i) == e
    decreases e - i
  {
    if i < e {
      IdEndIs(buf, i + 1, e);
    }
  }

  lemma {:induction false} DigitsEndIs(buf: Bytes, i: nat, e: nat)
    requires i <= e <= |buf| && (e < |buf| ==> !IsDigit(buf[e]))
    requires forall k :: i <= k < e ==> IsDigit(buf[k])
    ensures DigitsEnd(buf, i) == e
    decreases e - i
  {
    if i < e {
      DigitsEndIs(buf, i + 1, e);
    }
  }

  /** Byte by byte, what follows position `p` when the header and `digits` stand there. */
  lemma HeaderBytes(m: Marker, buf: Bytes, p: nat, digits: Bytes)
    requires Good(m) && OccursAt(buf, Header(m) + digits, p)
    ensures var b := p + 7 + |m.transactionId|;
      && OccursAt(buf, TAG, p)
      && b + 34 + |digits| <= |buf|
      && buf[p + 7..b] == m.transactionId && buf[b] == ':'
      && buf[b + 1..b + 33] == m.nonce && buf[b + 33] == ':'
      && buf[b + 34..b + 34 + |digits|] == digits
  {
    var whole := Header(m) + digits;
    var n := |m.transactionId|;
    assert buf[p..p + |whole|] == whole;
    assert whole[..7] == TAG;
    assert whole[7..7 + n] == m.transactionId;
    assert whole[7 + n] == ':';
    assert whole[8 + n..40 + n] == m.nonce;
    assert whole[40 + n] == ':';
    assert whole[41 + n..] == digits;
    SubSlice(buf, p, whole, 0, 7);
    SubSlice(buf, p, whole, 7, 7 + n);
    SubSlice(buf, p, whole, 8 + n, 40 + n);
    SubSlice(buf, p, whole, 41 + n, |whole|);
  }

  lemma SubSlice(buf: Bytes, p: nat, whole: Bytes, a: nat, b: nat)
    requires p + |whole| <= |buf| && buf[p..p + |whole|] == whole && a <= b <= |whole|
    ensures buf[p + a..p + b] == whole[a..b]
  {
    forall k | a <= k < b
      ensures buf[p + k] == whole[k]
    {
      assert buf[p + k] == buf[p..p + |whole|][k];
    }
  }

  lemma MatchAtHeader(m: Marker, buf: Bytes, p: nat, digits: Bytes)
    requires Good(m) && digits != [] && AllDigits(digits) && Carries(buf, m, p, digits)
    ensures MatchAt(buf, p) == Some(Match(p + |Header(m)| + |digits|, m.transactionId, m.nonce, digits))
  {
    HeaderBytes(m, buf, p, digits);
    var b := p + 7 + |m.transactionId|;
    HeaderEnds(buf, p + 7, b, b + 34 + |digits|);
    MatchAtParts(buf, p, b, b + 34 + |digits|);
  }

  lemma HeaderEnds(buf: Bytes, a: nat, b: nat, e: nat)
    requires a <= b && b + 34 < e <= |buf| && buf[b] == ':' && (e < |buf| ==> !IsDigit(buf[e]))
    requires AllIdBytes(buf[a..b]) && AllHex(buf[b + 1..b + 33]) && AllDigits(buf[b + 34..e])
    ensures IdEnd(buf, a) == b && DigitsEnd(buf, b + 34) == e
    ensures buf[b + 34] != '-' && forall k :: b + 1 <= k < b + 33 ==> IsHex(buf[k])
  {
    SliceBytes(buf, a, b);
    IdEndIs(buf, a, b);
    SliceBytes(buf, b + 1, b + 33);
    SliceBytes(buf, b + 34, e);
    DigitsEndIs(buf, b + 34, e);
  }

  lemma SliceBytes(buf: Bytes, a: nat, b: nat)
    requires a <= b <= |buf|
    ensures forall k :: a <= k < b ==> buf[k] == buf[a..b][k - a]
  {
  }

  lemma MatchAtParts(buf: Bytes, p: nat, b: nat, e: nat)
    requires OccursAt(buf, TAG, p) && p + 7 < b && b + 34 < e <= |buf|
    requires IdEnd(buf, p + 7) == b && buf[b] == ':' && buf[b + 33] == ':'
    requires forall k :: b + 1 <= k < b + 33 ==> IsHex(buf[k])
    requires buf[b + 34] != '-' && DigitsEnd(buf, b + 34) == e
    ensures MatchAt(buf, p) == Some(Match(e, buf[p + 7..b], buf[b + 1..b + 33], buf[b + 34..e]))
  {
  }

  // ---- Searching line by line ----

  function OrElse(x: Option<int>, y: Option<int>): Option<int> {
    if x.Some? then x else y
  }

  lemma {:induction false} IdEndWithin(buf: Bytes, q: nat, i: nat)
    requires i <= q < |buf| && buf[q] == '\n'
    ensures IdEnd(buf, i) <= q && IdEnd(buf[..q], i) == IdEnd(buf, i)
    decreases q - i
  {
    if i < q {
      IdEndWithin(buf, q, i + 1);
    }
  }

  lemma {:induction false} DigitsEndWithin(buf: Bytes, q: nat, i: nat)
    requires i <= q < |buf| && buf[q] == '\n'
    ensures DigitsEnd(buf, i) <= q && DigitsEnd(buf[..q], i) == DigitsEnd(buf, i)
    decreases q - i
  {
    if i < q {
      DigitsEndWithin(buf, q, i + 1);
    }
  }

  lemma TagWithin(buf: Bytes, q: nat, i: nat)
    requires i <= q < |buf| && buf[q] == '\n'
    ensures OccursAt(buf, TAG, i) <==> OccursAt(buf[..q], TAG, i)
    ensures OccursAt(buf, TAG, i) ==> i + |TAG| <= q
  {
    if OccursAt(buf, TAG, i) {
      forall k | i <= k < i + |TAG|
        ensures buf[k] != '\n'
      {
        assert buf[k] == buf[i..i + |TAG|][k - i];
      }
    }
    if i + |TAG| <= q {
      PrefixSlice(buf, q, i, i + |TAG|);
    }
  }

  lemma PrefixSlice(buf: Bytes, q: nat, a: nat, b: nat)
    requires a <= b <= q <= |buf|
    ensures buf[..q][a..b] == buf[a..b]
  {
  }

  /** Where a status at `c` has its digits. */
  function DigitsAt(buf: Bytes, c: nat): (d: nat)
    requires c <= |buf|
    ensures c <= d <= |buf|
  {
    if c < |buf| && buf[c] == '-' then c + 1 else c
  }

  /** The match at `i` in terms of the pieces it consists of. */
  lemma MatchFromPieces(buf: Bytes, i: nat, b: nat, e: nat)
    requires OccursAt(buf, TAG, i) && b == IdEnd(buf, i + |TAG|) && b + 34 <= |buf|
    requires e == DigitsEnd(buf, DigitsAt(buf, b + 34))
    ensures MatchAt(buf, i)
         == if i + |TAG| < b && buf[b] == ':' && buf[b + 33] == ':' && AllHex(buf[b + 1..b + 33]) && DigitsAt(buf, b + 34) < e
            then Some(Match(e, buf[i + |TAG|..b], buf[b + 1..b + 33], buf[b + 34..e]))
            else None
  {
    SliceHex(buf, b + 1, b + 33);
  }

  lemma SliceHex(buf: Bytes, a: nat, b: nat)
    requires a <= b <= |buf|
    ensures AllHex(buf[a..b]) <==> forall k :: a <= k < b ==> IsHex(buf[k])
  {
    SliceBytes(buf, a, b);
    if AllHex(buf[a..b]) {
      forall k | a <= k < b ensures IsHex(buf[k]) {
        assert IsHex(buf[a..b][k - a]);
      }
    }
  }

  /** No match spans a line break, so what follows one has no part in the matches before it. */
  lemma MatchWithin(buf: Bytes, q: nat, i: nat)
    requires i <= q < |buf| && buf[q] == '\n'
    ensures MatchAt(buf[..q], i) == MatchAt(buf, i)
  {
    TagWithin(buf, q, i);
    if OccursAt(buf, TAG, i) {
      var b := IdEnd(buf, i + |TAG|);
      IdEndWithin(buf, q, i + |TAG|);
      if b + 34 <= q {
        ShortMatchWithin(buf, q, i, b);
      } else {
        HeaderTooLong(buf, q, b);
      }
    }
  }

  lemma ShortMatchWithin(buf: Bytes, q: nat, i: nat, b: nat)
    requires q < |buf| && buf[q] == '\n' && OccursAt(buf, TAG, i) && OccursAt(buf[..q], TAG, i)
    requires i + |TAG| <= b == IdEnd(buf, i + |TAG|) == IdEnd(buf[..q], i + |TAG|) && b + 34 <= q
    ensures MatchAt(buf[..q], i) == MatchAt(buf, i)
  {
    StatusWithin(buf, q, b + 34);
    var e := DigitsEnd(buf, DigitsAt(buf, b + 34));
    MatchFromPieces(buf, i, b, e);
    MatchFromPieces(buf[..q], i, b, e);
    PrefixSlice(buf, q, i + |TAG|, b);
    PrefixSlice(buf, q, b + 1, b + 33);
  }

  /** The status read at `c` ends before the line does. */
  lemma StatusWithin(buf: Bytes, q: nat, c: nat)
    requires c <= q < |buf| && buf[q] == '\n'
    ensures var d := DigitsAt(buf, c);
      && d == DigitsAt(buf[..q], c) <= q
      && DigitsEnd(buf, d) == DigitsEnd(buf[..q], d) <= q
      && buf[..q][c..DigitsEnd(buf, d)] == buf[c..DigitsEnd(buf, d)]
  {
    DigitsEndWithin(buf, q, DigitsAt(buf, c));
    PrefixSlice(buf, q, c, DigitsEnd(buf, DigitsAt(buf, c)));
  }

  /** Colons and a nonce cannot reach across the line break. */
  lemma HeaderTooLong(buf: Bytes, q: nat, b: nat)
    requires b <= q < |buf| && buf[q] == '\n' && q < b + 34
    ensures b + 34 <= |buf| ==> buf[b] != ':' || buf[b + 33] != ':' || exists k :: b + 1 <= k < b + 33 && !IsHex(buf[k])
  {
    if b < q < b + 33 {
      assert !IsHex(buf[q]);
    }
  }

  /** Scanning on from `i` finds what the rest of the line at `q` holds or else what follows it. */
  lemma {:induction false} ScanSplits(m: Marker, buf: Bytes, i: nat, q: nat)
    requires i <= q < |buf| && buf[q] == '\n'
    ensures FirstOwn(m, Matches(buf, i)) == OrElse(FirstOwn(m, Matches(buf[..q], i)), FirstOwn(m, Matches(buf, q + 1)))
    decreases q - i
  {
    MatchWithin(buf, q, i);
    match MatchAt(buf, i) {
      case None =>
        if i < q {
          ScanSplits(m, buf, i + 1, q);
        }
      case Some(x) =>
        ScanSplits(m, buf, x.end, q);
        assert Matches(buf, i) == [x] + Matches(buf, x.end);
        assert Matches(buf[..q], i) == [x] + Matches(buf[..q], x.end);
        FirstOwnCons(m, x, Matches(buf, x.end));
        FirstOwnCons(m, x, Matches(buf[..q], x.end));
    }
  }

  lemma FirstOwnCons(m: Marker, x: Match, ms: seq<Match>)
    ensures FirstOwn(m, [x] + ms) == if Own(m, x) then ScanInt(x.status) else FirstOwn(m, ms)
  {
    assert ([x] + ms)[1..] == ms;
  }

  /** A header and digits at a line start decide the search unless an earlier line has. */
  lemma DigitsAtLineStart(m: Marker, buf: Bytes, q: nat, digits: Bytes)
    requires Good(m) && q < |buf| && buf[q] == '\n'
    requires digits != [] && AllDigits(digits) && DigitsValue(digits) <= MAX_INT && Carries(buf, m, q + 1, digits)
    ensures Search(m, buf) == OrElse(Search(m, buf[..q]), Some(DigitsValue(digits)))
  {
    ScanSplits(m, buf, 0, q);
    MatchAtHeader(m, buf, q + 1, digits);
    NoSign(digits);
    var x := MatchAt(buf, q + 1).value;
    FirstOwnCons(m, x, Matches(buf, x.end));
  }

  lemma NoSign(digits: Bytes)
    requires digits != [] && AllDigits(digits) && DigitsValue(digits) <= MAX_INT
    ensures ScanInt(digits) == Some(DigitsValue(digits))
  {
  }

  /** Digits printed after the header on a line of their own are what the search returns, unless
      the text before that line already holds an own match. */
  lemma DigitsRecovered(m: Marker, pre: Bytes, digits: Bytes, rest: Bytes)
    requires Good(m) && digits != [] && AllDigits(digits) && DigitsValue(digits) <= MAX_INT
    requires rest != [] ==> !IsDigit(rest[0])
    ensures Search(m, pre + "\n" + Header(m) + digits + rest) == OrElse(Search(m, pre), Some(DigitsValue(digits)))
  {
    PrintedAt(m, pre, digits, rest);
    FrontOf(pre, Header(m) + digits + rest);
    Regroup(pre + "\n", Header(m), digits, rest);
    DigitsAtLineStart(m, pre + "\n" + Header(m) + digits + rest, |pre|, digits);
  }

  lemma Regroup(a: Bytes, b: Bytes, c: Bytes, d: Bytes)
    ensures a + b + c + d == a + (b + c + d)
  {
  }

  lemma FrontOf(pre: Bytes, post: Bytes)
    ensures var buf := pre + "\n" + post; |pre| < |buf| && buf[|pre|] == '\n' && buf[..|pre|] == pre
  {
  }

  lemma PrintedAt(m: Marker, pre: Bytes, digits: Bytes, rest: Bytes)
    requires digits != [] && AllDigits(digits) && (rest != [] ==> !IsDigit(rest[0]))
    ensures Carries(pre + "\n" + Header(m) + digits + rest, m, |pre| + 1, digits)
  {
    var buf := pre + "\n" + Header(m) + digits + rest;
    var whole := Header(m) + digits;
    assert buf == (pre + "\n") + whole + rest;
    assert buf[|pre| + 1..|pre| + 1 + |whole|] == whole;
    if rest != [] {
      assert buf[|pre| + 1 + |whole|] == rest[0];
    }
  }

  /** A printed shell status followed by a non-digit in the same scan is recovered exactly, whatever
      stands before it, if and only if no earlier own match says otherwise. */
  lemma PrintedStatusRecovered(m: Marker, pre: Bytes, status: nat, rest: Bytes)
    requires Good(m) && status <= MAX_INT && rest != [] && !IsDigit(rest[0])
    ensures var seen := pre + "\n" + Header(m) + Decimal(status) + rest;
      && Search(m, seen) == OrElse(Search(m, pre), Some(status))
      && (Search(m, seen) == Some(status) <==> Search(m, pre) == None || Search(m, pre) == Some(status))
  {
    DecimalRoundTrip(status);
    DigitsRecovered(m, pre, Decimal(status), rest);
  }

  /** On a console that echoes, the written line stands in front of the printed status, and the
      status is recovered all the same: before and after the echo the nonce must merely be absent. */
  lemma EchoedStatusRecovered(m: Marker, before: Bytes, output: Bytes, status: nat, rest: Bytes)
    requires Good(m) && !Occurs(before, m.nonce) && !Occurs(output, m.nonce)
    requires status <= MAX_INT && rest != [] && !IsDigit(rest[0])
    ensures Search(m, before + ShellSuffix(m) + output + "\n" + Header(m) + Decimal(status) + rest) == Some(status)
  {
    EchoNeverCompletes(m, before, output);
    PrintedStatusRecovered(m, before + ShellSuffix(m) + output, status, rest);
  }

  lemma {:induction false} PrefixValue(n: nat, k: nat)
    requires 0 < k <= |Decimal(n)|
    ensures DigitsValue(Decimal(n)[..k]) <= n
    ensures k < |Decimal(n)| ==> DigitsValue(Decimal(n)[..k]) < n
  {
    DecimalRoundTrip(n);
    if k < |Decimal(n)| {
      assert Decimal(n)[..|Decimal(n)| - 1] == Decimal(n / 10);
      assert Decimal(n)[..k] == Decimal(n / 10)[..k];
      PrefixValue(n / 10, k);
    } else {
      assert Decimal(n)[..k] == Decimal(n);
    }
  }

  /** What the search makes of the first `k` digits; none at all are no status. */
  function Cut(status: nat, k: nat): Option<int>
    requires k <= |Decimal(status)|
  {
    if k == 0 then None else Some(DigitsValue(Decimal(status)[..k]))
  }

  lemma CutIsWhole(status: nat, k: nat)
    requires k <= |Decimal(status)|
    ensures Cut(status, k) == Some(status) <==> k == |Decimal(status)|
  {
    DecimalRoundTrip(status);
    if k > 0 {
      PrefixValue(status, k);
    }
    if k == |Decimal(status)| {
      assert Decimal(status)[..k] == Decimal(status);
    }
  }

  lemma CutFound(m: Marker, pre: Bytes, status: nat, k: nat)
    requires Good(m) && status <= MAX_INT && k <= |Decimal(status)|
    ensures Search(m, pre + "\n" + Header(m) + Decimal(status)[..k]) == OrElse(Search(m, pre), Cut(status, k))
  {
    var digits := Decimal(status)[..k];
    if k == 0 {
      HeaderAloneFound(m, pre);
      assert pre + "\n" + Header(m) + digits == pre + "\n" + Header(m);
    } else {
      PrefixValue(status, k);
      DecimalRoundTrip(status);
      DigitsRecovered(m, pre, digits, []);
      assert pre + "\n" + Header(m) + digits + [] == pre + "\n" + Header(m) + digits;
    }
  }

  /** When the scan sees only the first `k` digits, it reports the number they denote: the printed
      status is recovered if and only if all its digits had arrived, or an earlier line gave it. */
  lemma SplitStatusRecoveredIff(m: Marker, pre: Bytes, status: nat, k: nat)
    requires Good(m) && status <= MAX_INT && k <= |Decimal(status)|
    ensures var seen := pre + "\n" + Header(m) + Decimal(status)[..k];
      && Search(m, seen) == OrElse(Search(m, pre), Cut(status, k))
      && (Search(m, seen) == Some(status) <==>
            if Search(m, pre) == None then k == |Decimal(status)| else Search(m, pre) == Some(status))
  {
    CutFound(m, pre, status, k);
    CutIsWhole(status, k);
  }

  /** The echoed line in front makes no difference to a cut status. */
  lemma EchoedSplitRecoveredIff(m: Marker, before: Bytes, output: Bytes, status: nat, k: nat)
    requires Good(m) && !Occurs(before, m.nonce) && !Occurs(output, m.nonce)
    requires status <= MAX_INT && k <= |Decimal(status)|
    ensures Search(m, before + ShellSuffix(m) + output + "\n" + Header(m) + Decimal(status)[..k]) == Some(status)
      <==> k == |Decimal(status)|
  {
    EchoNeverCompletes(m, before, output);
    SplitStatusRecoveredIff(m, before + ShellSuffix(m) + output, status, k);
  }

  /** A header without digits holds no match. */
  lemma HeaderAloneFound(m: Marker, pre: Bytes)
    requires Good(m)
    ensures Search(m, pre + "\n" + Header(m)) == Search(m, pre)
  {
    var buf := pre + "\n" + Header(m);
    var p := |pre| + 1;
    FrontOf(pre, Header(m));
    ScanSplits(m, buf, 0, |pre|);
    NoneInHeader(m, buf, p, p);
  }

  lemma {:induction false} NoneInHeader(m: Marker, buf: Bytes, p: nat, i: nat)
    requires Good(m) && p <= i <= |buf| && buf[p..] == Header(m)
    ensures Matches(buf, i) == []
    decreases |buf| - i
  {
    if i < |buf| {
      HeaderUnmatched(m, buf, p, i);
      NoneInHeader(m, buf, p, i + 1);
    }
  }

  lemma HeaderUnmatched(m: Marker, buf: Bytes, p: nat, i: nat)
    requires Good(m) && p <= i < |buf| && buf[p..] == Header(m)
    ensures MatchAt(buf, i) == None
  {
    if i == p {
      HeaderIdEnd(m, buf, p);
    } else {
      assert Header(m)[i - p] == buf[i];
      OneTag(m, i - p);
      TagFirst(buf, i);
    }
  }

  lemma TagFirst(buf: Bytes, i: nat)
    ensures OccursAt(buf, TAG, i) ==> buf[i] == TAG[0]
  {
    if OccursAt(buf, TAG, i) {
      assert buf[i] == buf[i..i + |TAG|][0];
    }
  }

  lemma HeaderIdEnd(m: Marker, buf: Bytes, p: nat)
    requires Good(m) && p < |buf| && buf[p..] == Header(m)
    ensures IdEnd(buf, p + |TAG|) + 34 == |buf|
  {
    var n := |m.transactionId|;
    forall k | p + |TAG| <= k < p + |TAG| + n
      ensures IsIdByte(buf[k])
    {
      assert buf[k] == Header(m)[k - p] == m.transactionId[k - p - |TAG|];
    }
    assert buf[p + |TAG| + n] == Header(m)[|TAG| + n] == ':';
    IdEndIs(buf, p + |TAG|, p + |TAG| + n);
  }

  /** The tag's first letter stands nowhere else in a header. */
  lemma OneTag(m: Marker, j: nat)
    requires Good(m) && 0 < j < |Header(m)|
    ensures Header(m)[j] != TAG[0]
  {
    var n := |m.transactionId|;
    if |TAG| <= j < |TAG| + n {
      assert Header(m)[j] == m.transactionId[j - |TAG|];
    } else if |TAG| + n < j < |TAG| + n + 33 {
      assert Header(m)[j] == m.nonce[j - |TAG| - n - 1];
    }
  }

  /** The code after which a shell status split between reads is misread. */
  lemma SplitStatusExample(m: Marker)
    requires Good(m)
    ensures Search(m, "\n" + Header(m) + "13") == Some(13)
    ensures Decimal(137)[..2] == "13"
  {
    assert Decimal(1) == "1" && Decimal(13) == "13" && Decimal(137) == "137";
    assert "" + "\n" == "\n";
    CutFound(m, "", 137, 2);
    DecimalRoundTrip(13);
  }

  // ---- What the suffix prints ----

  /** What the shell's printf makes of a format with the escape \n and the conversion %d, given `arg`. */
  function Printf(format: Bytes, arg: Bytes): Bytes {
    if |format| < 2 then format
    else if format[0] == '\\' && format[1] == 'n' then "\n" + Printf(format[2..], arg)
    else if format[0] == '%' && format[1] == 'd' then arg + Printf(format[2..], arg)
    else [format[0]] + Printf(format[1..], arg)
  }

  lemma {:induction false} PrintfPlain(text: Bytes, more: Bytes, arg: Bytes)
    requires more != [] && forall i :: 0 <= i < |text| ==> text[i] != '\\' && text[i] != '%'
    ensures Printf(text + more, arg) == text + Printf(more, arg)
    decreases |text|
  {
    if text == [] {
      assert text + more == more;
    } else {
      assert (text + more)[1..] == text[1..] + more;
      PrintfPlain(text[1..], more, arg);
      assert [text[0]] + (text[1..] + Printf(more, arg)) == text + Printf(more, arg);
    }
  }

  /** The format quoted in the suffix. */
  function Format(m: Marker): Bytes {
    "\\n" + Header(m) + "%d\\n"
  }

  lemma PrintfEnds(arg: Bytes)
    ensures Printf("%d\\n", arg) == arg + "\n"
  {
    assert "%d\\n"[2..] == "\\n" && "\\n"[2..] == "";
    assert Printf("\\n", arg) == "\n" + Printf("", arg) == "\n";
  }

  lemma HeaderPlain(m: Marker)
    requires Good(m)
    ensures forall i :: 0 <= i < |Header(m)| ==> Header(m)[i] != '\\' && Header(m)[i] != '%' && Header(m)[i] != '\''
  {
    forall i | 0 <= i < |Header(m)|
      ensures Header(m)[i] != '\\' && Header(m)[i] != '%' && Header(m)[i] != '\''
    {
      var n := |m.transactionId|;
      if |TAG| <= i < |TAG| + n {
        assert Header(m)[i] == m.transactionId[i - |TAG|];
      } else if |TAG| + n < i < |TAG| + n + 33 {
        assert Header(m)[i] == m.nonce[i - |TAG| - n - 1];
      }
    }
  }

  /** The suffix runs, after the command and with the command's own status as its argument, a printf
      whose format is a plain single-quoted word; and what it prints for a status is the header and the
      status on a line of their own. */
  lemma SuffixPrints(m: Marker, status: nat)
    requires Good(m)
    ensures ShellSuffix(m) == "; printf '" + Format(m) + "' \"$?\""
    ensures forall i :: 0 <= i < |Format(m)| ==> Format(m)[i] != '\''
    ensures Printf(Format(m), Decimal(status)) == "\n" + Header(m) + Decimal(status) + "\n"
  {
    HeaderPlain(m);
    var tail := Header(m) + "%d\\n";
    assert Format(m) == "\\n" + tail;
    assert Format(m)[2..] == tail;
    PrintfPlain(Header(m), "%d\\n", Decimal(status));
    PrintfEnds(Decimal(status));
    assert Printf(Format(m), Decimal(status)) == "\n" + (Header(m) + (Decimal(status) + "\n"));
    assert ShellSuffix(m) == "; printf '" + Format(m) + "' \"$?\"";
  }

  /** So what the written line prints is what completes it: whatever the echo in front, the status. */
  lemma SuffixStatusRecovered(m: Marker, before: Bytes, output: Bytes, status: nat)
    requires Good(m) && !Occurs(before, m.nonce) && !Occurs(output, m.nonce) && status <= MAX_INT
    ensures Search(m, before + ShellSuffix(m) + output + Printf(Format(m), Decimal(status))) == Some(status)
  {
    SuffixPrints(m, status);
    EchoedStatusRecovered(m, before, output, status, "\n");
    FourMore(before + ShellSuffix(m) + output, "\n", Header(m), Decimal(status), "\n");
  }

  lemma FourMore(a: Bytes, b: Bytes, c: Bytes, d: Bytes, e: Bytes)
    ensures a + (b + c + d + e) == a + b + c + d + e
  {
  }

  // ---- The command line that is written ----

  /** Command text plus suffix is again managed, so the marker runs in the foreground of the
      same list and reports that list's status. */
  lemma LineManaged(text: Bytes, m: Marker)
    requires ManagedCommand.Managed(text) && Good(m)
    ensures ManagedCommand.Managed(text + ShellSuffix(m))
  {
    SuffixBodyManaged(m);
    ManagedCommand.JoinManaged(text, SuffixBody(m));
    SuffixSplits(text, m);
  }

  lemma SuffixSplits(text: Bytes, m: Marker)
    ensures text + ShellSuffix(m) == text + "; " + SuffixBody(m)
  {
    assert ShellSuffix(m) == "; " + SuffixBody(m);
  }

  function SuffixBody(m: Marker): Bytes {
    "printf" + " '" + ("\\n" + Header(m) + "%d\\n") + "' \"" + "$?" + "\""
  }

  predicate Quiet(c: Byte) {
    c != '\'' && c != '&' && c != '<' && !ManagedCommand.IsControl(c)
  }

  lemma QuietBody(m: Marker)
    requires Good(m)
    ensures var q := "\\n" + Header(m) + "%d\\n"; forall i :: 0 <= i < |q| ==> Quiet(q[i])
  {
    assert forall i :: 0 <= i < |m.transactionId| ==> Quiet(m.transactionId[i]);
    assert forall i :: 0 <= i < |m.nonce| ==> Quiet(m.nonce[i]);
    assert forall i :: 0 <= i < |TAG| ==> Quiet(TAG[i]);
    assert forall i :: 0 <= i < |"\\n"| ==> Quiet("\\n"[i]);
    assert forall i :: 0 <= i < |"%d\\n"| ==> Quiet("%d\\n"[i]);
    assert Quiet(':');
  }

  lemma SuffixBodyManaged(m: Marker)
    requires Good(m)
    ensures ManagedCommand.Managed(SuffixBody(m))
  {
    var q := "\\n" + Header(m) + "%d\\n";
    var s := SuffixBody(m);
    QuietBody(m);
    ManagedCommand.RunPrintf("printf", q, "$?");
    assert s[..|s|] == s;
    forall i | 0 <= i < |s|
      ensures s[i] != '&' && s[i] != '<' && !ManagedCommand.IsControl(s[i])
    {
      if 8 <= i < 8 + |q| {
        assert s[i] == q[i - 8];
      } else if i < 8 {
        assert s[i] == "printf '"[i];
      } else {
        assert s[i] == "' \"$?\""[i - 8 - |q|];
      }
    }
  }
}
