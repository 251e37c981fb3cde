/** What every stored result says, who waits for it, and what the ring may hold. */
module GatewayResults {
  import opened Basics
  import opened Gateway
  import opened GatewayJobs
  import opened GatewayLedger
  import Command
  import Marker
  import Secret
  import Transcript

  // ---- Attribution ----

  /** The output is the transaction's interval of the log, cut at the front to what the ring
      still held, and flagged exactly when something was cut. */
  ghost predicate ExactOutput(log: Bytes, sp: Span, r: Command.Result) {
    && sp.start <= sp.end <= |log|
    && r.output == log[ScanStart(sp)..sp.end]
    && (r.outputTruncatedStart <==> sp.end - sp.start > RING_CAPACITY)
  }

  /** An exit code was found by this transaction's marker in the scanned part of its own interval. */
  ghost predicate ExactStatus(log: Bytes, sp: Span, r: Command.Result) {
    && (r.exitCode.Some? <==> r.status == Command.Completed)
    && (r.exitCode.Some? ==> sp.start <= sp.end <= |log| && Marker.Search(sp.marker, Scanned(log, sp)) == r.exitCode)
  }

  /** Where the interval of a transaction begins as far as the ring still held it at its end. */
  function ScanStart(sp: Span): int {
    Max(sp.start, sp.end - RING_CAPACITY)
  }

  /** Where the marker scan that ended the transaction stopped. */
  function ScanEnd(sp: Span): int {
    if sp.end - ScanStart(sp) > MARKER_SCAN then ScanStart(sp) + MARKER_SCAN else sp.end
  }

  /** The bytes that scan looked at: the first retained ones of the interval, at most 65536. */
  function Scanned(log: Bytes, sp: Span): Bytes
    requires sp.start <= sp.end <= |log|
  {
    log[ScanStart(sp)..ScanEnd(sp)]
  }

  /** What the scan of a still active transaction looks at. */
  lemma ScannedWhileActive(log: Bytes, a: Active)
    requires a.startSeq <= |log|
    ensures Transcript.ReadLog(log, RING_CAPACITY, a.startSeq, MARKER_SCAN).data
         == Scanned(log, Span(a.startSeq, |log|, a.marker))
  {
  }

  ghost predicate Attributed(log: Bytes, t: Id, sp: Span, r: Command.Result) {
    ExactOutput(log, sp, r) && ExactStatus(log, sp, r) && sp.marker.transactionId == t
  }

  predicate Apart(x: Span, y: Span) {
    x.end <= y.start || y.end <= x.start
  }

  ghost predicate Disjoint(spans: map<Id, Span>) {
    forall t, u | t in spans && u in spans && t != u :: Apart(spans[t], spans[u])
  }

  ghost predicate AllAttributed(log: Bytes, results: map<Id, Command.Result>, spans: map<Id, Span>)
    requires spans.Keys == results.Keys
  {
    forall t :: t in spans ==> Attributed(log, t, spans[t], results[t])
  }

  ghost predicate ExactIn(log: Bytes, results: map<Id, Command.Result>, spans: map<Id, Span>, upTo: nat) {
    && spans.Keys == results.Keys
    && AllAttributed(log, results, spans)
    && Disjoint(spans)
    && (forall t :: t in spans ==> spans[t].end <= upTo <= |log|)
    && upTo <= |log|
  }

  /** Where the active transaction's interval begins; the log's end if there is none. */
  function Frontier(s: State): nat {
    if s.act.Some? then s.act.value.startSeq else |s.log|
  }

  /** Every result is attributed exactly, and intervals of different transactions never overlap. */
  ghost predicate Exact(s: State) {
    ExactIn(s.log, s.records.results, s.spans, Frontier(s))
  }

  lemma NewOutput(s: State, a: Active, status: Command.Status, code: Option<int>, now: int)
    requires a.startSeq <= |s.log| && Earned(s.log, a, status, code) && a.marker.transactionId == a.tx.id
    ensures Attributed(s.log, a.tx.id, Span(a.startSeq, |s.log|, a.marker), ResultOf(s, a, status, code, now))
  {
    var sp := Span(a.startSeq, |s.log|, a.marker);
    var out := Transcript.ReadLog(s.log, RING_CAPACITY, a.startSeq, MAX_OUTPUT);
    assert out.next == |s.log| && out.start == ScanStart(sp);
    ScannedWhileActive(s.log, a);
  }

  lemma LogGrows(log: Bytes, more: Bytes, t: Id, sp: Span, r: Command.Result)
    requires Attributed(log, t, sp, r)
    ensures Attributed(log + more, t, sp, r)
  {
    SliceOfLonger(log, more, ScanStart(sp), sp.end);
    SliceOfLonger(log, more, ScanStart(sp), ScanEnd(sp));
  }

  lemma SliceOfLonger(log: Bytes, more: Bytes, a: nat, b: nat)
    requires a <= b <= |log|
    ensures (log + more)[a..b] == log[a..b]
  {
  }

  lemma AddDisjoint(spans: map<Id, Span>, t: Id, sp: Span)
    requires Disjoint(spans) && t !in spans && forall u :: u in spans ==> spans[u].end <= sp.start
    ensures Disjoint(spans[t := sp])
  {
  }

  /** Recording one more result whose interval starts where the others had ended. */
  lemma AddExact(log: Bytes, results: map<Id, Command.Result>, spans: map<Id, Span>, t: Id, sp: Span, r: Command.Result)
    requires ExactIn(log, results, spans, sp.start) && t !in spans
    requires Attributed(log, t, sp, r) && sp.end == |log|
    ensures ExactIn(log, results[t := r], spans[t := sp], |log|)
  {
    AddDisjoint(spans, t, sp);
    AddAttributed(log, results, spans, t, sp, r);
  }

  lemma AddAttributed(log: Bytes, results: map<Id, Command.Result>, spans: map<Id, Span>, t: Id, sp: Span, r: Command.Result)
    requires spans.Keys == results.Keys && Attributed(log, t, sp, r)
    requires AllAttributed(log, results, spans)
    ensures AllAttributed(log, results[t := r], spans[t := sp])
  {
  }

  /** The stored result is the one handed over: its source is the transaction's. */
  lemma StoredAsGiven(r: Command.Records, s: State, a: Active, status: Command.Status, code: Option<int>, now: int)
    requires a.tx.id in r.transactions && r.transactions[a.tx.id] == a.tx && a.tx.id !in r.results
    ensures Command.CompletedIn(r, ResultOf(s, a, status, code, now)).results
         == r.results[a.tx.id := ResultOf(s, a, status, code, now)]
  {
  }

  lemma EndExact(s: State, t: State, a: Active, status: Command.Status, code: Option<int>, now: int)
    requires ExactIn(s.log, s.records.results, s.spans, a.startSeq)
    requires a.tx.id in s.records.transactions && s.records.transactions[a.tx.id] == a.tx && a.tx.id !in s.records.results
    requires a.marker.transactionId == a.tx.id && Closed(s, t, a, status, code, now)
    ensures Exact(t)
  {
    NewOutput(s, a, status, code, now);
    StoredAsGiven(s.records, s, a, status, code, now);
    AddExact(s.log, s.records.results, s.spans, a.tx.id, Span(a.startSeq, |s.log|, a.marker), ResultOf(s, a, status, code, now));
  }

  ghost predicate KnowsActive(s: State) {
    s.act.Some? ==> ActiveOk(s.records, s.act.value)
  }

  lemma WorkExact(s: State, t: State, w: Work)
    requires Exact(s) && KnowsActive(s) && Did(s, t, w)
    requires w.BeginEnd? ==> w.a.tx.id !in s.records.results
    ensures Exact(t)
  {
    match w {
      case Nothing =>
      case Begin(a) =>
      case End(a, status, code, now) => EndExact(s, t, a, status, code, now);
      case BeginEnd(a, now) =>
        var m :| Began(s, m, a) && Closed(m, t, a, Command.Disconnected, None, now);
        EndExact(m, t, a, Command.Disconnected, None, now);
    }
  }

  lemma ReadExact(s: State, raw: Bytes)
    requires Exact(s)
    ensures Exact(ReadChunk(s, raw))
  {
    var t := ReadChunk(s, raw);
    forall u | u in t.spans
      ensures Attributed(t.log, u, t.spans[u], t.records.results[u])
    {
      LogGrows(s.log, Secret.Filtered(s.secret, raw), u, s.spans[u], s.records.results[u]);
    }
  }

  // ---- Waiting ----

  function CallsOn(calls: map<CallId, Call>, ch: ChanId): set<CallId> {
    set c | c in calls && calls[c].wake == ch
  }

  /** All that waiting for results is about. */
  datatype Desk = Desk(
    finished: set<Id>,
    waiters: map<Id, Waiter>,
    calls: map<CallId, Call>,
    closed: set<ChanId>,
    nextChan: ChanId)

  function DeskOf(s: State): Desk {
    Desk(s.records.results.Keys, s.resultWaiters, s.calls, s.closed, s.nextChan)
  }

  ghost predicate Registered(d: Desk, t: Id)
    requires t in d.waiters
  {
    var w := d.waiters[t];
    && t !in d.finished
    && w.refs == |CallsOn(d.calls, w.wake)| >= 1
    && w.wake < d.nextChan && w.wake !in d.closed
  }

  /** A blocked call either has been woken and finds a result, or is counted by its waiter. */
  ghost predicate Served(d: Desk, c: Call) {
    && c.wake < d.nextChan
    && (c.wake in d.closed ==> c.tx in d.finished)
    && (c.wake !in d.closed ==> c.tx in d.waiters && d.waiters[c.tx].wake == c.wake)
  }

  ghost predicate OwnChannels(waiters: map<Id, Waiter>) {
    forall t, u | t in waiters && u in waiters && t != u :: waiters[t].wake != waiters[u].wake
  }

  ghost predicate Orderly(d: Desk) {
    && |d.waiters| <= MAX_RESULT_WAITERS
    && (forall t :: t in d.waiters ==> Registered(d, t))
    && OwnChannels(d.waiters)
    && (forall c :: c in d.calls ==> Served(d, d.calls[c]))
    && (forall ch :: ch in d.closed ==> ch < d.nextChan)
  }

  /** No wakeup is ever missed: a registered identifier has no result and is counted exactly,
      and every call still blocked on a finished transaction holds a closed channel. */
  ghost predicate Waiting(s: State) {
    Orderly(DeskOf(s))
  }

  lemma BlockedOnFinished(s: State, c: CallId)
    requires Waiting(s) && c in s.calls && s.calls[c].tx in s.records.results
    ensures s.calls[c].wake in s.closed
  {
    var d := DeskOf(s);
    assert Served(d, s.calls[c]);
    forall t | t in d.waiters
      ensures t !in d.finished
    {
      assert Registered(d, t);
    }
  }

  /** What recording the result of `tx` does at the desk. */
  ghost predicate Wakes(d: Desk, e: Desk, tx: Id) {
    && e.calls == d.calls && e.nextChan == d.nextChan
    && e.finished == d.finished + {tx} && e.waiters == d.waiters - {tx}
    && e.closed == d.closed + (if tx in d.waiters then {d.waiters[tx].wake} else {})
  }

  lemma StillRegistered(d: Desk, e: Desk, tx: Id, u: Id)
    requires Wakes(d, e, tx) && u in e.waiters && Registered(d, u)
    requires tx in d.waiters ==> d.waiters[tx].wake != d.waiters[u].wake
    ensures Registered(e, u)
  {
  }

  lemma StillServed(d: Desk, e: Desk, tx: Id, c: Call)
    requires Wakes(d, e, tx) && Served(d, c) && OwnChannels(d.waiters)
    requires tx in d.waiters ==> d.waiters[tx].wake !in d.closed
    ensures Served(e, c)
  {
  }

  /** A result wakes exactly the calls waiting for it. */
  lemma ResultWakes(d: Desk, e: Desk, tx: Id)
    requires Orderly(d) && Wakes(d, e, tx)
    ensures Orderly(e)
  {
    WokenRegistered(d, e, tx);
    WokenServed(d, e, tx);
    SmallerMap(e.waiters, d.waiters);
    assert OwnChannels(e.waiters);
  }

  lemma WokenRegistered(d: Desk, e: Desk, tx: Id)
    requires Orderly(d) && Wakes(d, e, tx)
    ensures forall u :: u in e.waiters ==> Registered(e, u)
  {
    forall u | u in e.waiters
      ensures Registered(e, u)
    {
      StillRegistered(d, e, tx, u);
    }
  }

  lemma WokenServed(d: Desk, e: Desk, tx: Id)
    requires Orderly(d) && Wakes(d, e, tx)
    ensures forall c :: c in e.calls ==> Served(e, e.calls[c])
    ensures forall ch :: ch in e.closed ==> ch < e.nextChan
  {
    FreshlyClosed(d, tx);
    forall c | c in e.calls
      ensures Served(e, e.calls[c])
    {
      StillServed(d, e, tx, d.calls[c]);
    }
  }

  lemma FreshlyClosed(d: Desk, tx: Id)
    requires Orderly(d)
    ensures tx in d.waiters ==> d.waiters[tx].wake !in d.closed && d.waiters[tx].wake < d.nextChan
  {
    if tx in d.waiters {
      assert Registered(d, tx);
    }
  }

  lemma SmallerMap(small: map<Id, Waiter>, big: map<Id, Waiter>)
    requires small.Keys <= big.Keys
    ensures |small| <= |big|
  {
    assert |small| == |small.Keys| && |big| == |big.Keys|;
    SubsetSize(small.Keys, big.Keys);
  }

  lemma {:induction false} SubsetSize(x: set<Id>, y: set<Id>)
    requires x <= y
    ensures |x| <= |y|
  {
    if x != {} {
      var e :| e in x;
      SubsetSize(x - {e}, y - {e});
    }
  }

  lemma WorkWaiting(s: State, t: State, w: Work)
    requires Waiting(s) && KnowsActive(s) && Did(s, t, w)
    requires w.BeginEnd? ==> w.a.tx.id !in s.records.results
    ensures Waiting(t)
  {
    match w {
      case Nothing => assert DeskOf(t) == DeskOf(s);
      case Begin(a) => assert DeskOf(t) == DeskOf(s);
      case End(a, status, code, now) => EndWaiting(s, t, a, status, code, now);
      case BeginEnd(a, now) =>
        var m :| Began(s, m, a) && Closed(m, t, a, Command.Disconnected, None, now);
        assert DeskOf(m) == DeskOf(s);
        EndWaiting(m, t, a, Command.Disconnected, None, now);
    }
  }

  lemma EndWaiting(s: State, t: State, a: Active, status: Command.Status, code: Option<int>, now: int)
    requires Waiting(s) && Closed(s, t, a, status, code, now)
    requires a.tx.id in s.records.transactions && a.tx.id !in s.records.results
    ensures Waiting(t)
  {
    assert t.records.results.Keys == s.records.results.Keys + {a.tx.id};
    ResultWakes(DeskOf(s), DeskOf(t), a.tx.id);
  }

  /** One more call counts once, on its own channel only. */
  lemma NewCall(calls: map<CallId, Call>, call: CallId, c: Call)
    requires call !in calls
    ensures |CallsOn(calls[call := c], c.wake)| == |CallsOn(calls, c.wake)| + 1
    ensures forall ch | ch != c.wake :: CallsOn(calls[call := c], ch) == CallsOn(calls, ch)
  {
    assert CallsOn(calls[call := c], c.wake) == CallsOn(calls, c.wake) + {call};
  }

  lemma FreshChannel(d: Desk)
    requires forall c :: c in d.calls ==> Served(d, d.calls[c])
    ensures CallsOn(d.calls, d.nextChan) == {}
  {
    assert forall c :: c in d.calls ==> d.calls[c].wake < d.nextChan;
  }

  /** What registering `call` for `tx` does at the desk; `w` is the waiter before it. */
  ghost predicate Joins(d: Desk, e: Desk, call: CallId, tx: Id, w: Waiter) {
    && call !in d.calls && tx !in d.finished
    && w == (if tx in d.waiters then d.waiters[tx] else Waiter(d.nextChan, 0))
    && e == d.(waiters := d.waiters[tx := w.(refs := w.refs + 1)], calls := d.calls[call := Call(tx, w.wake)],
         nextChan := if tx in d.waiters then d.nextChan else d.nextChan + 1)
  }

  lemma JoinedRegistered(d: Desk, e: Desk, call: CallId, tx: Id, w: Waiter)
    requires Joins(d, e, call, tx, w) && (tx in d.waiters ==> Registered(d, tx))
    requires forall c :: c in d.calls ==> Served(d, d.calls[c])
    requires forall ch :: ch in d.closed ==> ch < d.nextChan
    ensures Registered(e, tx) && w.wake !in d.closed
  {
    NewCall(d.calls, call, Call(tx, w.wake));
    FreshChannel(d);
  }

  lemma OthersRegistered(d: Desk, e: Desk, call: CallId, tx: Id, w: Waiter, u: Id)
    requires Joins(d, e, call, tx, w) && u in d.waiters && u != tx && Registered(d, u)
    requires d.waiters[u].wake != w.wake
    ensures Registered(e, u)
  {
    NewCall(d.calls, call, Call(tx, w.wake));
  }

  lemma JoinedServed(d: Desk, e: Desk, call: CallId, tx: Id, w: Waiter, c: Call)
    requires Joins(d, e, call, tx, w) && Served(d, c)
    ensures Served(e, c)
  {
  }

  lemma RegisterOrderly(d: Desk, e: Desk, call: CallId, tx: Id, w: Waiter)
    requires Orderly(d) && Joins(d, e, call, tx, w)
    requires tx in d.waiters || |d.waiters| < MAX_RESULT_WAITERS
    ensures Orderly(e)
  {
    JoinedRegistered(d, e, call, tx, w);
    forall u | u in d.waiters && u != tx
      ensures d.waiters[u].wake != w.wake
    {
      assert Registered(d, u);
    }
    forall u | u in e.waiters
      ensures Registered(e, u)
    {
      if u != tx {
        OthersRegistered(d, e, call, tx, w, u);
      }
    }
    forall c | c in e.calls
      ensures Served(e, e.calls[c])
    {
      if c != call {
        JoinedServed(d, e, call, tx, w, d.calls[c]);
      }
    }
    OneMoreKey(d.waiters, tx, w.(refs := w.refs + 1));
  }

  lemma OneMoreKey(m: map<Id, Waiter>, t: Id, w: Waiter)
    ensures |m[t := w]| == if t in m then |m| else |m| + 1
  {
    assert m[t := w].Keys == m.Keys + {t};
    assert |m[t := w]| == |m[t := w].Keys| && |m| == |m.Keys|;
    if t in m {
      assert m.Keys + {t} == m.Keys;
    }
  }

  lemma RegisterWaiting(s: State, call: CallId, tx: Id)
    requires Waiting(s) && call !in s.calls
    requires tx !in s.records.results && (tx in s.resultWaiters || |s.resultWaiters| < MAX_RESULT_WAITERS)
    ensures Waiting(WaitRegister(s, call, tx))
  {
    var t := WaitRegister(s, call, tx);
    assert Joins(DeskOf(s), DeskOf(t), call, tx, WaiterFor(s, tx));
    RegisterOrderly(DeskOf(s), DeskOf(t), call, tx, WaiterFor(s, tx));
  }

  lemma LeftRegistered(d: Desk, e: Desk, call: CallId, u: Id)
    requires call in d.calls && e == d.(calls := d.calls - {call}, waiters := Released(d.waiters, d.calls[call]))
    requires u in d.waiters && Registered(d, u) && u in e.waiters
    requires d.waiters[u].wake == d.calls[call].wake ==> u == d.calls[call].tx
    ensures Registered(e, u)
  {
    var c := d.calls[call];
    if d.waiters[u].wake == c.wake {
      assert CallsOn(e.calls, c.wake) == CallsOn(d.calls, c.wake) - {call};
      assert call in CallsOn(d.calls, c.wake);
    } else {
      assert CallsOn(e.calls, d.waiters[u].wake) == CallsOn(d.calls, d.waiters[u].wake);
    }
  }

  lemma LeftServed(d: Desk, e: Desk, call: CallId, b: CallId)
    requires call in d.calls && e == d.(calls := d.calls - {call}, waiters := Released(d.waiters, d.calls[call]))
    requires b in e.calls && Served(d, d.calls[b]) && Served(d, d.calls[call])
    requires d.calls[b].tx in d.waiters ==> Registered(d, d.calls[b].tx)
    ensures Served(e, e.calls[b])
  {
    var c := d.calls[call];
    if c.wake == d.calls[b].wake && c.wake !in d.closed && c.tx == d.calls[b].tx {
      TwoOrMore(CallsOn(d.calls, c.wake), call, b);
    }
  }

  lemma ReleasedChannels(waiters: map<Id, Waiter>, c: Call)
    requires OwnChannels(waiters)
    ensures OwnChannels(Released(waiters, c)) && |Released(waiters, c)| <= |waiters|
    ensures Released(waiters, c).Keys <= waiters.Keys
  {
    SmallerMap(Released(waiters, c), waiters);
  }

  lemma SharedChannel(d: Desk, c: Call, u: Id)
    requires OwnChannels(d.waiters) && Served(d, c) && u in d.waiters && Registered(d, u)
    ensures d.waiters[u].wake == c.wake ==> u == c.tx
  {
  }

  lemma CancelOrderly(d: Desk, e: Desk, call: CallId)
    requires Orderly(d) && call in d.calls
    requires e == d.(calls := d.calls - {call}, waiters := Released(d.waiters, d.calls[call]))
    ensures Orderly(e)
  {
    var c := d.calls[call];
    ReleasedChannels(d.waiters, c);
    forall u | u in e.waiters
      ensures Registered(e, u)
    {
      SharedChannel(d, c, u);
      LeftRegistered(d, e, call, u);
    }
    forall b | b in e.calls
      ensures Served(e, e.calls[b])
    {
      LeftServed(d, e, call, b);
    }
  }

  lemma TwoOrMore(x: set<CallId>, a: CallId, b: CallId)
    requires a in x && b in x && a != b
    ensures |x| >= 2
  {
    assert b in x - {a};
    assert |x - {a}| >= 1;
  }

  lemma ReturnOrderly(d: Desk, call: CallId)
    requires Orderly(d) && call in d.calls && d.calls[call].wake in d.closed
    ensures Orderly(d.(calls := d.calls - {call}))
    ensures d.calls[call].tx in d.finished
  {
    var e := d.(calls := d.calls - {call});
    assert Served(d, d.calls[call]);
    forall u | u in e.waiters
      ensures Registered(e, u)
    {
      assert Registered(d, u);
      assert CallsOn(e.calls, d.waiters[u].wake) == CallsOn(d.calls, d.waiters[u].wake);
    }
    assert forall c :: c in e.calls ==> Served(d, d.calls[c]) && Served(e, e.calls[c]);
  }

  // ---- The ring ----

  /** The ring holds exactly what filtering each chunk under the window it was read in yields. */
  ghost predicate Redacted(s: State) {
    s.log == Secret.RingLog(s.taken)
  }

  lemma ReadRedacted(s: State, raw: Bytes)
    requires Redacted(s)
    ensures Redacted(ReadChunk(s, raw))
  {
    var taken := s.taken + [Secret.Read(s.secret, raw)];
    assert taken[..|s.taken|] == s.taken;
  }

  // ---- Runs ----

  ghost predicate Sound(s: State) {
    Exact(s) && Waiting(s) && Redacted(s)
  }

  /** Exactness and redaction do not concern the calls. */
  lemma CallsApart(s: State, t: State)
    requires Sound(s) && t == s.(resultWaiters := t.resultWaiters, nextChan := t.nextChan, calls := t.calls)
    requires Waiting(t)
    ensures Sound(t)
  {
  }

  lemma RegisterSound(s: State, call: CallId, tx: Id)
    requires Sound(s) && call !in s.calls
    ensures Sound(WaitRegister(s, call, tx))
  {
    if tx !in s.records.results && (tx in s.resultWaiters || |s.resultWaiters| < MAX_RESULT_WAITERS) {
      RegisterWaiting(s, call, tx);
      CallsApart(s, WaitRegister(s, call, tx));
    }
  }

  lemma CancelSound(s: State, call: CallId)
    requires Sound(s) && call in s.calls
    ensures Sound(WaitCancel(s, call))
  {
    CancelOrderly(DeskOf(s), DeskOf(WaitCancel(s, call)), call);
    CallsApart(s, WaitCancel(s, call));
  }

  lemma ReturnSound(s: State, call: CallId)
    requires Sound(s) && call in s.calls && s.calls[call].wake in s.closed
    ensures Sound(WaitReturn(s, call))
  {
    ReturnOrderly(DeskOf(s), call);
    CallsApart(s, WaitReturn(s, call));
  }

  lemma CallStepSound(s: State, e: Event)
    requires Sound(s) && Enabled(s, e) && (e.EvWaitRegister? || e.EvWaitCancel? || e.EvWaitReturn?)
    ensures Sound(Step(s, e))
  {
    match e {
      case EvWaitRegister(call, tx) => RegisterSound(s, call, tx);
      case EvWaitCancel(call) => CancelSound(s, call);
      case EvWaitReturn(call) => ReturnSound(s, call);
    }
  }

  lemma ReadStepSound(s: State, raw: Bytes)
    requires Sound(s)
    ensures Sound(ReadChunk(s, raw))
  {
    ReadExact(s, raw);
    ReadRedacted(s, raw);
    assert DeskOf(ReadChunk(s, raw)) == DeskOf(s);
  }

  lemma WorkSound(s: State, t: State, w: Work)
    requires Sound(s) && KnowsActive(s) && Did(s, t, w)
    requires w.BeginEnd? ==> w.a.tx.id !in s.records.results
    ensures Sound(t)
  {
    WorkExact(s, t, w);
    WorkWaiting(s, t, w);
    assert Rest(s, t);
  }

  lemma StepSound(s: State, e: Event)
    requires Sound(s) && KnowsActive(s) && s.records.results.Keys <= s.used && Enabled(s, e)
    ensures Sound(Step(s, e))
  {
    if e.EvReadChunk? {
      ReadStepSound(s, e.raw);
    } else if Reads(e) {
      CallStepSound(s, e);
    } else {
      var w := StepJob(s, e);
      WorkSound(s, Step(s, e), w);
    }
  }

  /** Every reachable state's results are exactly attributed, its waiters in order and its ring
      redacted. */
  lemma {:induction false} RunSound(sid: Id, run: seq<Event>)
    requires Possible(sid, run)
    ensures Sound(After(sid, run))
  {
    if run != [] {
      var s := After(sid, run[..|run| - 1]);
      RunSound(sid, run[..|run| - 1]);
      RunConserved(sid, run[..|run| - 1]);
      ResultsUsed(s);
      StepSound(s, run[|run| - 1]);
    }
  }

  lemma ResultsUsed(s: State)
    requires Books(s)
    ensures KnowsActive(s) && s.records.results.Keys <= s.used
  {
  }

  ghost predicate KeptResults(m: map<Id, Command.Result>, n: map<Id, Command.Result>) {
    forall id :: id in m ==> id in n && n[id] == m[id]
  }

  lemma WorkKeepsResults(s: State, t: State, w: Work)
    requires Did(s, t, w)
    ensures KeptResults(s.records.results, t.records.results)
  {
  }

  lemma CallsKeepResults(s: State, e: Event)
    requires Enabled(s, e) && Reads(e)
    ensures Step(s, e).records == s.records
  {
    match e {
      case EvReadChunk(raw) =>
      case EvWaitRegister(call, tx) => assert WaitRegister(s, call, tx).records == s.records;
      case EvWaitCancel(call) =>
      case EvWaitReturn(call) =>
    }
  }

  lemma StepKeepsResults(s: State, e: Event)
    requires Enabled(s, e)
    ensures KeptResults(s.records.results, Step(s, e).records.results)
  {
    if Reads(e) {
      CallsKeepResults(s, e);
    } else {
      var w := StepJob(s, e);
      WorkKeepsResults(s, Step(s, e), w);
    }
  }

  /** A stored result never vanishes or changes in a continuation of the run. */
  lemma {:induction false} RunKeepsResults(sid: Id, run: seq<Event>, k: nat)
    requires Possible(sid, run) && k <= |run| && Possible(sid, run[..k])
    ensures KeptResults(After(sid, run[..k]).records.results, After(sid, run).records.results)
    decreases |run|
  {
    if k == |run| {
      WholePrefix(run);
    } else {
      var n := |run| - 1;
      assert run[..n][..k] == run[..k];
      RunKeepsResults(sid, run[..n], k);
      StepKeepsResults(After(sid, run[..n]), run[n]);
    }
  }

  /** A completed result carries the status that stands behind this transaction's own identifier and
      nonce within the first 65536 retained bytes of its own interval; no other result carries one. */
  lemma RunExitCodes(sid: Id, run: seq<Event>, t: Id)
    requires Possible(sid, run) && t in After(sid, run).records.results
    ensures var s := After(sid, run); var r := s.records.results[t];
      && t in s.spans && s.spans[t].marker.transactionId == t && s.spans[t].end <= |s.log|
      && (r.exitCode.Some? <==> r.status == Command.Completed)
      && s.spans[t].start <= s.spans[t].end && |Scanned(s.log, s.spans[t])| <= MARKER_SCAN
      && (r.exitCode.Some? ==> exists p: nat, status ::
            Marker.Carries(Scanned(s.log, s.spans[t]), s.spans[t].marker, p, status) && Marker.ScanInt(status) == r.exitCode)
  {
    RunSound(sid, run);
    var s := After(sid, run);
    var r, sp := s.records.results[t], s.spans[t];
    assert Attributed(s.log, t, sp, r);
    if r.exitCode.Some? {
      Marker.SearchSound(sp.marker, Scanned(s.log, sp));
    }
  }

  /** Two runs whose readers took the same clear chunks, under the same windows, with equal
      lengths under an open one, leave identical rings. */
  lemma RunsIndistinguishable(sid: Id, run: seq<Event>, sid': Id, run': seq<Event>)
    requires Possible(sid, run) && Possible(sid', run')
    requires var x, y := After(sid, run).taken, After(sid', run').taken;
      |x| == |y| && forall i :: 0 <= i < |x| ==> Secret.Alike(x[i], y[i])
    ensures After(sid, run).log == After(sid', run').log
  {
    RunSound(sid, run);
    RunSound(sid', run');
    Secret.RedactionNonInterference(After(sid, run).taken, After(sid', run').taken);
  }
}
