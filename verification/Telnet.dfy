/** The telnet NVT codec (internal/transport/telnet/telnet.go), after RFC 854,
section "TELNET COMMAND STRUCTURE", and the subnegotiation framing of RFC 855. */
module Telnet {
  import opened Basics

  const SE: Byte := '\U{F0}'
  const SB: Byte := '\U{FA}'
  const WILL: Byte := '\U{FB}'
  const WONT: Byte := '\U{FC}'
  const DO: Byte := '\U{FD}'
  const DONT: Byte := '\U{FE}'
  const IAC: Byte := '\U{FF}'

  predicate IsVerb(b: Byte) { b == WILL || b == WONT || b == DO || b == DONT }

  /** Where the filter stands inside an IAC sequence. */
  datatype Mode = Data | Command | Option(verb: Byte) | Sub | SubCommand

  datatype Decoded = Decoded(mode: Mode, data: Bytes, refusals: Bytes)

  /** The client's answer to one option request: every DO and WILL is refused. */
  function Refusal(verb: Byte, option: Byte): (r: Bytes) {
    if verb == DO then [IAC, WONT, option]
    else if verb == WILL then [IAC, DONT, option]
    else []
  }

  /** One byte of the NVT state machine. */
  function Feed(m: Mode, b: Byte): (d: Decoded) {
    match m
    case Data => if b == IAC then Decoded(Command, [], []) else Decoded(Data, [b], [])
    case Command =>
      if b == IAC then Decoded(Data, [IAC], [])
      else if IsVerb(b) then Decoded(Option(b), [], [])
      else if b == SB then Decoded(Sub, [], [])
      else Decoded(Data, [], [])
    case Option(verb) => Decoded(Data, [], Refusal(verb, b))
    case Sub => Decoded(if b == IAC then SubCommand else Sub, [], [])
    case SubCommand => Decoded(if b == SE then Data else Sub, [], [])
  }

  /** `y` decoded after `x`. */
  function Then(x: Decoded, y: Decoded): (d: Decoded) {
    Decoded(y.mode, x.data + y.data, x.refusals + y.refusals)
  }

  /** The machine run over a whole byte string. */
  function Decode(m: Mode, s: Bytes): (d: Decoded) {
    if s == [] then Decoded(m, [], [])
    else
      var d := Decode(m, s[..|s| - 1]);
      Then(d, Feed(d.mode, s[|s| - 1]))
  }

  lemma DecodeSnoc(m: Mode, s: Bytes, b: Byte)
    ensures Decode(m, s + [b]) == Then(Decode(m, s), Feed(Decode(m, s).mode, b))
  {
    assert (s + [b])[..|s|] == s;
  }

  lemma ThenAssoc(x: Decoded, y: Decoded, z: Decoded)
    ensures Then(Then(x, y), z) == Then(x, Then(y, z))
  {
    assert x.data + y.data + z.data == x.data + (y.data + z.data);
    assert x.refusals + y.refusals + z.refusals == x.refusals + (y.refusals + z.refusals);
  }

  /** Decoding may be cut anywhere: the mode carries everything across the cut. */
  lemma {:induction false} DecodeConcat(m: Mode, a: Bytes, b: Bytes)
    ensures Decode(m, a + b) == Then(Decode(m, a), Decode(Decode(m, a).mode, b))
    decreases |b|
  {
    var x := Decode(m, a);
    if b == [] {
      assert a + b == a;
      assert x.data + [] == x.data && x.refusals + [] == x.refusals;
    } else {
      var b', last := b[..|b| - 1], b[|b| - 1];
      DecodeConcat(m, a, b');
      assert a + b == (a + b') + [last];
      DecodeSnoc(m, a + b', last);
      var y := Decode(x.mode, b');
      ThenAssoc(x, y, Feed(y.mode, last));
    }
  }

  /** The escaping applied to outgoing application data. */
  function Escape(p: Bytes): (e: Bytes) {
    if p == [] then [] else Escape(p[..|p| - 1]) + EscapeByte(p[|p| - 1])
  }

  function EscapeByte(b: Byte): (e: Bytes) {
    if b == IAC then [IAC, IAC] else [b]
  }

  // ---- What a peer may put on the wire ----

  /** One element of a subnegotiation's payload: a plain byte, or IAC followed by anything but SE. */
  datatype SubItem = Plain(b: Byte) | Pair(b: Byte)

  predicate GoodItem(i: SubItem) {
    match i
    case Plain(b) => b != IAC
    case Pair(b) => b != SE
  }

  /** The units written atomically, one per raw write. */
  datatype Frame =
    | App(bytes: Bytes)
    | Negotiate(verb: Byte, option: Byte)
    | TwoByte(cmd: Byte)
    | Subnegotiation(items: seq<SubItem>)

  ghost predicate GoodFrame(f: Frame) {
    match f
    case App(_) => true
    case Negotiate(verb, _) => IsVerb(verb)
    case TwoByte(cmd) => cmd != IAC && cmd != SB && !IsVerb(cmd)
    case Subnegotiation(items) => forall i :: 0 <= i < |items| ==> GoodItem(items[i])
  }

  function ItemBytes(items: seq<SubItem>): (r: Bytes) {
    if items == [] then []
    else
      var last := items[|items| - 1];
      ItemBytes(items[..|items| - 1]) + (if last.Plain? then [last.b] else [IAC, last.b])
  }

  function FrameBytes(f: Frame): (r: Bytes) {
    match f
    case App(bytes) => Escape(bytes)
    case Negotiate(verb, option) => [IAC, verb, option]
    case TwoByte(cmd) => [IAC, cmd]
    case Subnegotiation(items) => [IAC, SB] + ItemBytes(items) + [IAC, SE]
  }

  function Wire(frames: seq<Frame>): (r: Bytes) {
    if frames == [] then [] else Wire(frames[..|frames| - 1]) + FrameBytes(frames[|frames| - 1])
  }

  /** The application bytes of a frame sequence, in order. */
  function AppBytes(frames: seq<Frame>): (r: Bytes) {
    if frames == [] then []
    else
      var f := frames[|frames| - 1];
      AppBytes(frames[..|frames| - 1]) + (if f.App? then f.bytes else [])
  }

  /** One 3-byte refusal per DO or WILL, in order, and nothing else. */
  function Answers(frames: seq<Frame>): (r: Bytes) {
    if frames == [] then []
    else
      var f := frames[|frames| - 1];
      Answers(frames[..|frames| - 1])
      + (if f.Negotiate? && f.verb == DO then [IAC, WONT, f.option]
         else if f.Negotiate? && f.verb == WILL then [IAC, DONT, f.option]
         else [])
  }

  lemma Decode1(m: Mode, a: Byte)
    ensures Decode(m, [a]) == Feed(m, a)
  {
    assert [a][..0] == [];
    assert Decode(m, []) == Decoded(m, [], []);
    var f := Feed(m, a);
    assert [] + f.data == f.data && [] + f.refusals == f.refusals;
  }

  lemma Decode2(m: Mode, a: Byte, b: Byte)
    ensures var x := Feed(m, a);
      var y := Feed(x.mode, b);
      Decode(m, [a, b]) == Then(x, y)
  {
    Decode1(m, a);
    Decode1(Feed(m, a).mode, b);
    assert [a] + [b] == [a, b];
    DecodeConcat(m, [a], [b]);
  }

  lemma DecodeEscapedByte(b: Byte)
    ensures Decode(Data, EscapeByte(b)) == Decoded(Data, [b], [])
  {
    Decode2(Data, IAC, IAC);
    Decode1(Data, b);
  }

  /** Two complete units decoded one after the other. */
  lemma DecodeUnits(a: Bytes, b: Bytes, x: Decoded, y: Decoded)
    requires Decode(Data, a) == x && x.mode == Data && Decode(Data, b) == y
    ensures Decode(Data, a + b) == Decoded(y.mode, x.data + y.data, x.refusals + y.refusals)
  {
    DecodeConcat(Data, a, b);
  }

  lemma {:induction false} EscapeUnit(p: Bytes, last: Byte, q: Bytes)
    requires q == p + [last] && Decode(Data, Escape(p)) == Decoded(Data, p, [])
    ensures Decode(Data, Escape(q)) == Decoded(Data, q, [])
  {
    DecodeEscapedByte(last);
    DecodeUnits(Escape(p), EscapeByte(last), Decoded(Data, p, []), Decoded(Data, [last], []));
    EscapeSnoc(p, last);
  }

  lemma EscapeSnoc(p: Bytes, last: Byte)
    ensures Escape(p + [last]) == Escape(p) + EscapeByte(last)
  {
    assert (p + [last])[..|p|] == p;
  }

  lemma {:induction false} DecodeEscaped(p: Bytes)
    ensures Decode(Data, Escape(p)) == Decoded(Data, p, [])
  {
    DecodeEscapedUpTo(p, |p|);
    WholePrefix(p);
  }

  lemma {:induction false} DecodeEscapedUpTo(p: Bytes, n: nat)
    requires n <= |p|
    ensures Decode(Data, Escape(p[..n])) == Decoded(Data, p[..n], [])
    decreases n
  {
    if n == 0 {
      assert p[..n] == [];
    } else {
      Snoc(p, n - 1);
      DecodeEscapedUpTo(p, n - 1);
      EscapeUnit(p[..n - 1], p[n - 1], p[..n]);
    }
  }

  lemma {:induction false} DecodeItems(items: seq<SubItem>)
    requires forall i :: 0 <= i < |items| ==> GoodItem(items[i])
    ensures Decode(Sub, ItemBytes(items)) == Decoded(Sub, [], [])
  {
    if items != [] {
      var items', last := items[..|items| - 1], items[|items| - 1];
      DecodeItems(items');
      if last.Plain? {
        Decode1(Sub, last.b);
        DecodeConcat(Sub, ItemBytes(items'), [last.b]);
      } else {
        Decode2(Sub, IAC, last.b);
        DecodeConcat(Sub, ItemBytes(items'), [IAC, last.b]);
      }
    }
  }

  /** Two byte strings decoded one after the other from any mode. */
  lemma DecodeParts(m: Mode, a: Bytes, b: Bytes, x: Decoded, y: Decoded)
    requires Decode(m, a) == x && Decode(x.mode, b) == y
    ensures Decode(m, a + b) == Then(x, y)
  {
    DecodeConcat(m, a, b);
  }

  lemma DecodeNegotiate(verb: Byte, option: Byte)
    requires IsVerb(verb)
    ensures Decode(Data, [IAC, verb, option]) == Decoded(Data, [], Refusal(verb, option))
  {
    Decode2(Data, IAC, verb);
    Decode1(Option(verb), option);
    assert [IAC, verb] + [option] == [IAC, verb, option];
    DecodeParts(Data, [IAC, verb], [option], Decoded(Option(verb), [], []), Decoded(Data, [], Refusal(verb, option)));
    NothingThen(Refusal(verb, option));
  }

  lemma ThenNothing(s: Bytes)
    ensures s + [] == s
  {
  }

  lemma NothingThen(s: Bytes)
    ensures [] + s == s
  {
  }

  lemma DecodeTwoByte(cmd: Byte)
    requires cmd != IAC && !IsVerb(cmd) && cmd != SB
    ensures Decode(Data, [IAC, cmd]) == Decoded(Data, [], [])
  {
    Decode2(Data, IAC, cmd);
  }

  lemma DecodeSubnegotiation(items: seq<SubItem>)
    requires forall i :: 0 <= i < |items| ==> GoodItem(items[i])
    ensures Decode(Data, [IAC, SB] + ItemBytes(items) + [IAC, SE]) == Decoded(Data, [], [])
  {
    var inside := Decoded(Sub, [], []);
    Decode2(Data, IAC, SB);
    DecodeItems(items);
    DecodeParts(Data, [IAC, SB], ItemBytes(items), inside, inside);
    Decode2(Sub, IAC, SE);
    DecodeParts(Data, [IAC, SB] + ItemBytes(items), [IAC, SE], inside, Decoded(Data, [], []));
  }

  /** What one frame contributes. */
  lemma AccountOne(f: Frame)
    ensures AppBytes([f]) == if f.App? then f.bytes else []
    ensures Answers([f]) == if f.Negotiate? then Refusal(f.verb, f.option) else []
  {
    assert [f][..0] == [];
  }

  lemma DecodeFrame(f: Frame)
    requires GoodFrame(f)
    ensures Decode(Data, FrameBytes(f)) == Decoded(Data, AppBytes([f]), Answers([f]))
  {
    AccountOne(f);
    match f {
      case App(bytes) => DecodeEscaped(bytes);
      case Negotiate(verb, option) => DecodeNegotiate(verb, option);
      case TwoByte(cmd) => DecodeTwoByte(cmd);
      case Subnegotiation(items) => DecodeSubnegotiation(items);
    }
  }

  lemma WireSnoc(frames: seq<Frame>, f: Frame)
    ensures Wire(frames + [f]) == Wire(frames) + FrameBytes(f)
  {
    assert (frames + [f])[..|frames|] == frames;
  }

  lemma AccountSnoc(frames: seq<Frame>, f: Frame)
    ensures AppBytes(frames + [f]) == AppBytes(frames) + AppBytes([f])
    ensures Answers(frames + [f]) == Answers(frames) + Answers([f])
  {
    assert (frames + [f])[..|frames|] == frames;
    assert [f][..0] == [];
  }

  lemma {:induction false} WireUnit(frames: seq<Frame>, f: Frame, more: seq<Frame>)
    requires more == frames + [f] && GoodFrame(f)
    requires Decode(Data, Wire(frames)) == Decoded(Data, AppBytes(frames), Answers(frames))
    ensures Decode(Data, Wire(more)) == Decoded(Data, AppBytes(more), Answers(more))
  {
    DecodeFrame(f);
    DecodeUnits(Wire(frames), FrameBytes(f), Decoded(Data, AppBytes(frames), Answers(frames)),
      Decoded(Data, AppBytes([f]), Answers([f])));
    WireSnoc(frames, f);
    AccountSnoc(frames, f);
  }

  lemma {:induction false} DecodeWire(frames: seq<Frame>)
    requires forall i :: 0 <= i < |frames| ==> GoodFrame(frames[i])
    ensures Decode(Data, Wire(frames)) == Decoded(Data, AppBytes(frames), Answers(frames))
  {
    DecodeWireUpTo(frames, |frames|);
    WholePrefix(frames);
  }

  lemma {:induction false} DecodeWireUpTo(frames: seq<Frame>, n: nat)
    requires n <= |frames| && forall i :: 0 <= i < |frames| ==> GoodFrame(frames[i])
    ensures Decode(Data, Wire(frames[..n])) == Decoded(Data, AppBytes(frames[..n]), Answers(frames[..n]))
    decreases n
  {
    if n == 0 {
      assert frames[..n] == [];
    } else {
      Snoc(frames, n - 1);
      DecodeWireUpTo(frames, n - 1);
      WireUnit(frames[..n - 1], frames[n - 1], frames[..n]);
    }
  }

  /** Successive reads of `chunks`, the mode carried from each to the next. */
  function DecodeReads(m: Mode, chunks: seq<Bytes>): (d: Decoded) {
    if chunks == [] then Decoded(m, [], [])
    else
      var d := DecodeReads(m, chunks[..|chunks| - 1]);
      Then(d, Decode(d.mode, chunks[|chunks| - 1]))
  }

  lemma ReadsSnoc(m: Mode, chunks: seq<Bytes>, n: nat)
    requires n < |chunks|
    ensures DecodeReads(m, chunks[..n + 1])
         == Then(DecodeReads(m, chunks[..n]), Decode(DecodeReads(m, chunks[..n]).mode, chunks[n]))
  {
    assert chunks[..n + 1][..n] == chunks[..n];
  }

  lemma {:induction false} DecodeReadsFlat(m: Mode, chunks: seq<Bytes>)
    ensures DecodeReads(m, chunks) == Decode(m, Flatten(chunks))
  {
    if chunks != [] {
      DecodeReadsFlat(m, chunks[..|chunks| - 1]);
      DecodeConcat(m, Flatten(chunks[..|chunks| - 1]), chunks[|chunks| - 1]);
    }
  }

  /** End to end: any interleaving of whole frames, cut into reads anywhere, decodes to the
      application bytes in order with exactly the required refusals. */
  lemma TelnetEndToEnd(frames: seq<Frame>, chunks: seq<Bytes>)
    requires forall i :: 0 <= i < |frames| ==> GoodFrame(frames[i])
    requires Flatten(chunks) == Wire(frames)
    ensures DecodeReads(Data, chunks) == Decoded(Data, AppBytes(frames), Answers(frames))
  {
    DecodeReadsFlat(Data, chunks);
    DecodeWire(frames);
  }

  /** The refusals are themselves whole WONT/DONT frames ... */
  function AnswerFrames(frames: seq<Frame>): (r: seq<Frame>)
    ensures forall i :: 0 <= i < |r| ==> r[i].Negotiate? && (r[i].verb == WONT || r[i].verb == DONT)
  {
    if frames == [] then []
    else
      var f := frames[|frames| - 1];
      AnswerFrames(frames[..|frames| - 1])
      + (if f.Negotiate? && f.verb == DO then [Negotiate(WONT, f.option)]
         else if f.Negotiate? && f.verb == WILL then [Negotiate(DONT, f.option)]
         else [])
  }

  lemma {:induction false} AnswersAreFrames(frames: seq<Frame>)
    ensures Wire(AnswerFrames(frames)) == Answers(frames)
  {
    if frames != [] {
      AnswersAreFrames(frames[..|frames| - 1]);
      var init := AnswerFrames(frames[..|frames| - 1]);
      var f := frames[|frames| - 1];
      if f.Negotiate? && (f.verb == DO || f.verb == WILL) {
        var g := Negotiate(if f.verb == DO then WONT else DONT, f.option);
        WireSnoc(init, g);
      } else {
        assert init + [] == init;
      }
    }
  }

  lemma {:induction false} RefusalsNeedNoAnswer(frames: seq<Frame>)
    requires forall i :: 0 <= i < |frames| ==> frames[i].Negotiate? && (frames[i].verb == WONT || frames[i].verb == DONT)
    ensures AppBytes(frames) == [] && Answers(frames) == []
  {
    if frames != [] {
      RefusalsNeedNoAnswer(frames[..|frames| - 1]);
    }
  }

  /** ... so feeding them to a peer running the same filter yields no data and no further
      refusals: negotiation cannot loop. */
  lemma RefusalsAreSilent(frames: seq<Frame>, chunks: seq<Bytes>)
    requires Flatten(chunks) == Answers(frames)
    ensures DecodeReads(Data, chunks) == Decoded(Data, [], [])
  {
    AnswersAreFrames(frames);
    TelnetEndToEnd(AnswerFrames(frames), chunks);
    RefusalsNeedNoAnswer(AnswerFrames(frames));
  }

  // ---- The stream ----

  lemma DecodeNext(m: Mode, s: Bytes, i: nat)
    requires i < |s|
    ensures Decode(m, s[..i + 1]) == Then(Decode(m, s[..i]), Feed(Decode(m, s[..i]).mode, s[i]))
  {
    Snoc(s, i);
    DecodeSnoc(m, s[..i], s[i]);
  }

  /** One more read after reads that yielded no data. */
  lemma ReadsNext(m: Mode, chunks: seq<Bytes>, n: nat, d: Decoded, f: Decoded)
    requires n < |chunks| && d == DecodeReads(m, chunks[..n]) && d.data == [] && f == Decode(d.mode, chunks[n])
    ensures DecodeReads(m, chunks[..n + 1]) == Decoded(f.mode, f.data, d.refusals + f.refusals)
  {
    ReadsSnoc(m, chunks, n);
    NothingThen(f.data);
  }

  lemma Regroup(a: Bytes, b: Bytes, c: Bytes)
    ensures a + b + c == a + (b + c)
  {
  }

  datatype ReadState = StateData | StateIAC | StateOption | StateSB | StateSBIAC

  class Stream {
    var state: ReadState
    var verb: Byte
    ghost var sent: Bytes // raw bytes handed to the connection

    ghost function CurrentMode(): Mode
      reads this
    {
      match state
      case StateData => Data
      case StateIAC => Command
      case StateOption => Option(verb)
      case StateSB => Sub
      case StateSBIAC => SubCommand
    }

    constructor ()
      ensures CurrentMode() == Data && sent == []
    {
      state := StateData;
      verb := '\0';
      sent := [];
    }

    /** What the state machine does about one byte. */
    method Accept(b: Byte) returns (keep: bool, refusal: Bytes)
      modifies this`state, this`verb
      ensures var f := Feed(old(CurrentMode()), b);
        CurrentMode() == f.mode && f.data == (if keep then [b] else []) && refusal == f.refusals
    {
      keep, refusal := false, [];
      match state {
        case StateData =>
          if b == IAC {
            state := StateIAC;
          } else {
            keep := true;
          }
        case StateIAC =>
          if b == IAC {
            keep := true;
            state := StateData;
          } else if b == WILL || b == WONT || b == DO || b == DONT {
            verb := b;
            state := StateOption;
          } else if b == SB {
            state := StateSB;
          } else {
            state := StateData;
          }
        case StateOption =>
          if verb == DO {
            refusal := [IAC, WONT, b];
          } else if verb == WILL {
            refusal := [IAC, DONT, b];
          }
          state := StateData;
        case StateSB =>
          if b == IAC {
            state := StateSBIAC;
          }
        case StateSBIAC =>
          if b == SE {
            state := StateData;
          } else {
            state := StateSB;
          }
      }
    }

    /** Runs the state machine over the first `n` bytes of `buf`, compacting the data in place. */
    method Filter(buf: array<Byte>, n: nat) returns (kept: nat, refusals: Bytes)
      requires n <= buf.Length
      modifies this`state, this`verb, buf
      ensures kept <= n
      ensures var d := Decode(old(CurrentMode()), old(buf[..n]));
        CurrentMode() == d.mode && buf[..kept] == d.data && refusals == d.refusals
      ensures forall k :: n <= k < buf.Length ==> buf[k] == old(buf[k])
    {
      kept, refusals := 0, [];
      ghost var m, input := CurrentMode(), buf[..n];
      ghost var d := Decode(m, input[..0]);
      for i := 0 to n
        invariant kept <= i
        invariant forall k :: i <= k < buf.Length ==> buf[k] == old(buf[k])
        invariant d == Decode(m, input[..i])
        invariant CurrentMode() == d.mode && buf[..kept] == d.data && refusals == d.refusals
      {
        DecodeNext(m, input, i);
        var b := buf[i];
        ghost var f := Feed(d.mode, b);
        var keep, refusal := Accept(b);
        if keep {
          Keep(buf, kept, b);
          kept := kept + 1;
        } else {
          ThenNothing(d.data);
        }
        refusals := refusals + refusal;
        d := Then(d, f);
      }
      WholePrefix(input);
    }

    method Keep(buf: array<Byte>, kept: nat, b: Byte)
      requires kept < buf.Length
      modifies buf
      ensures buf[..kept + 1] == old(buf[..kept]) + [b]
      ensures forall k :: kept < k < buf.Length ==> buf[k] == old(buf[k])
    {
      buf[kept] := b;
    }

    /** Reads until some data or an error: `arrivals` is what successive connection reads deliver, and
        the connection fails either together with the last one (`errWithLast`) or right after it.
        Reads that deliver no data are answered and passed over; whether the answers can be written
        makes no difference. */
    method Read(p: array<Byte>, arrivals: seq<Bytes>, errWithLast: bool, writable: bool) returns (kept: nat, used: nat, failed: bool)
      requires forall i :: 0 <= i < |arrivals| ==> |arrivals[i]| <= p.Length
      modifies this, p
      ensures kept <= p.Length && used <= |arrivals|
      ensures p.Length == 0 ==> kept == used == 0 && !failed && CurrentMode() == old(CurrentMode()) && sent == old(sent)
      ensures p.Length > 0 ==> kept > 0 || failed
      ensures failed ==> used == |arrivals| && (kept > 0 ==> errWithLast)
      ensures p.Length > 0 ==>
        var d := DecodeReads(old(CurrentMode()), arrivals[..used]);
        CurrentMode() == d.mode && p[..kept] == d.data && sent == old(sent) + d.refusals
    {
      kept, used, failed := 0, 0, false;
      if p.Length == 0 {
        return;
      }
      ghost var m := CurrentMode();
      ghost var d := DecodeReads(m, arrivals[..0]);
      while used < |arrivals|
        invariant kept == 0 && !failed && 0 <= used <= |arrivals|
        invariant d == DecodeReads(m, arrivals[..used]) && d.data == []
        invariant CurrentMode() == d.mode && sent == old(sent) + d.refusals
      {
        ghost var f := Decode(d.mode, arrivals[used]);
        kept := ReadOnce(p, arrivals[used], writable);
        ReadsNext(m, arrivals, used, d, f);
        Regroup(old(sent), d.refusals, f.refusals);
        d := Decoded(f.mode, f.data, d.refusals + f.refusals);
        used := used + 1;
        failed := errWithLast && used == |arrivals|;
        if kept > 0 || failed {
          return;
        }
      }
      failed := true;
    }

    /** One turn of the read loop: read, filter, answer. */
    method ReadOnce(p: array<Byte>, chunk: Bytes, writable: bool) returns (kept: nat)
      requires |chunk| <= p.Length
      modifies this, p
      ensures kept <= p.Length
      ensures var f := Decode(old(CurrentMode()), chunk);
        CurrentMode() == f.mode && p[..kept] == f.data && sent == old(sent) + f.refusals
    {
      var refusals: Bytes;
      Receive(p, chunk);
      kept, refusals := Filter(p, |chunk|);
      if |refusals| > 0 {
        var _ := WriteRaw(refusals, writable);
      }
    }

    /** The connection's own read: it fills the front of `p`. */
    method Receive(p: array<Byte>, chunk: Bytes)
      requires |chunk| <= p.Length
      modifies p
      ensures p[..|chunk|] == chunk
    {
      forall i | 0 <= i < |chunk| {
        p[i] := chunk[i];
      }
    }

    /** Hands over `p` escaped; all of it counts as written, or nothing if the connection fails. */
    method Write(p: Bytes, writable: bool) returns (n: nat, failed: bool)
      modifies this`sent
      ensures sent == old(sent) + Escape(p)
      ensures failed == !writable && n == if failed then 0 else |p|
    {
      var escaped := [];
      for i := 0 to |p|
        invariant escaped == Escape(p[..i]) && sent == old(sent)
      {
        EscapeNext(p, i);
        if p[i] == IAC {
          escaped := escaped + [IAC];
        }
        escaped := escaped + [p[i]];
      }
      WholePrefix(p);
      failed := WriteRaw(escaped, writable);
      n := if failed then 0 else |p|;
    }

    /** Hands `b` to the connection, which may fail. */
    method WriteRaw(b: Bytes, writable: bool) returns (failed: bool)
      modifies this`sent
      ensures sent == old(sent) + b
      ensures failed == !writable
    {
      sent := sent + b;
      return !writable;
    }
  }

  lemma EscapeNext(p: Bytes, i: nat)
    requires i < |p|
    ensures Escape(p[..i + 1]) == Escape(p[..i]) + EscapeByte(p[i])
  {
    Snoc(p, i);
    EscapeSnoc(p[..i], p[i]);
  }
}
