/** The coordinator's critical sections as functions on its state
(internal/gateway/coordinator.go), and runs as sequences of them.

Every section runs under one lock, so a run is any sequence of these steps. Bytes read, timer
callbacks, clock readings, write failures and freshly minted identifiers are inputs of the
steps. A timer is a token carrying the generation it was armed with; stopping a timer is not
relied upon, so a stopped timer may still fire. */
module Gateway {
  import opened Basics
  import Command
  import ManagedCommand
  import Marker
  import Protocol
  import Secret
  import Session
  import Transcript

  type Id = Bytes
  type StreamId = nat
  type CallId = nat
  type ChanId = nat

  const RING_CAPACITY: nat := 0x10_0000
  const MAX_OUTPUT: nat := 0x10_0000
  const MARKER_SCAN: nat := 0x1_0000
  const MAX_LINE_TAIL: nat := 1024
  const MAX_RESULT_WAITERS: nat := 1024
  const READ_BUFFER: nat := 4096

  datatype Active = Active(tx: Command.Transaction, marker: Marker.Marker, deadline: int, startSeq: nat)

  datatype Waiter = Waiter(wake: ChanId, refs: int)

  /** A WaitResult call blocked in its select. */
  datatype Call = Call(tx: Id, wake: ChanId)

  /** The reader goroutine of the current stream: absent, in its read, or holding a chunk it has
      put into the ring but not yet handed to prompt and marker matching. */
  datatype Reader = NoReader | Reading | Holding(raw: Bytes)

  /** The line a prompt confirmation was armed on, and how many chunks had arrived by then. */
  datatype Armed = Armed(tail: Bytes, arrivals: nat)

  /** The interval of the log a finished transaction owns, and its marker. */
  datatype Span = Span(start: nat, end: nat, marker: Marker.Marker)

  datatype State = State(
    // the coordinator's own fields
    sess: Session.Session,
    records: Command.Records,
    log: Bytes,
    secret: bool,
    stream: Option<StreamId>,
    cfg: Protocol.LoginConfig,
    opener: bool,
    usernameSent: bool,
    manualReady: bool,
    resyncPending: bool,
    lineTail: Bytes,
    rebootSuspect: bool,
    promptGen: nat,
    authRetries: nat,
    authGen: nat,
    act: Option<Active>,
    resultWaiters: map<Id, Waiter>,
    // the goroutines and timers around it
    reader: Reader,
    promptTimers: map<nat, Armed>,
    authTimers: set<nat>,
    calls: map<CallId, Call>,
    closed: set<ChanId>,
    nextChan: ChanId,
    // history
    trail: Protocol.Trail,
    taken: seq<Secret.Read>,
    fed: Bytes,
    arrivals: nat,
    spans: map<Id, Span>,
    used: set<Id>)

  function Init(sid: Id): State {
    State(
      Session.Session(Session.Disconnected, sid), Command.Records(map[], map[], map[]), [], false,
      None, Protocol.NO_LOGIN, false, false, false, false, [], false, 0, 0, 0, None, map[],
      NoReader, map[], {}, map[], {}, 0,
      Protocol.NewTrail(sid), [], [], 0, map[], {sid})
  }

  // ---- Shared sub-steps ----

  function Emit(s: State, o: Protocol.Obs): State {
    s.(trail := Protocol.See(s.trail, o))
  }

  /** A session event that does not rotate the identifier. */
  function Apply(s: State, e: Session.Event): State {
    s.(sess := Session.Applied(s.sess, e, s.sess.id))
  }

  function ClearTail(s: State): State {
    s.(lineTail := [], fed := [])
  }

  function ResetPromptState(s: State): State {
    ClearTail(s).(promptGen := s.promptGen + 1, authGen := s.authGen + 1, authRetries := 0, rebootSuspect := false)
  }

  function ArmAuthRetry(s: State): (r: State)
    ensures r == s.(authGen := r.authGen, authTimers := r.authTimers)
  {
    if s.stream == None || s.secret || s.authRetries >= Protocol.AuthRetryLimit(s.cfg) then s
    else s.(authGen := s.authGen + 1, authTimers := s.authTimers + {s.authGen + 1})
  }

  function ArmPromptConfirm(s: State): (r: State)
    ensures r == s.(promptTimers := r.promptTimers)
  {
    if !Protocol.Matches(s.cfg.shellPrompt, s.lineTail) then s
    else s.(promptTimers := s.promptTimers[s.promptGen := Armed(s.lineTail, s.arrivals)])
  }

  predicate IsBreak(c: Byte) { c == '\r' || c == '\n' }

  /** What follows the last line break of `s`, all of `s` if it has none. */
  function AfterLastBreak(s: Bytes): Bytes {
    if s == [] || IsBreak(s[|s| - 1]) then [] else AfterLastBreak(s[..|s| - 1]) + [s[|s| - 1]]
  }

  predicate HasBreak(s: Bytes) {
    exists i :: 0 <= i < |s| && IsBreak(s[i])
  }

  function LastBytes(s: Bytes): Bytes {
    if |s| > MAX_LINE_TAIL then s[|s| - MAX_LINE_TAIL..] else s
  }

  function AdvanceLineTail(tail: Bytes, chunk: Bytes): Bytes {
    LastBytes(if HasBreak(chunk) then AfterLastBreak(chunk) else tail + chunk)
  }

  predicate AuthPromptAtLineEnd(s: State) {
    Protocol.Matches(s.cfg.loginPrompt, s.lineTail) || Protocol.Matches(s.cfg.passwordPrompt, s.lineTail)
  }

  predicate SecretPromptMatches(cfg: Protocol.LoginConfig, b: Bytes) {
    || Protocol.Matches(cfg.passwordPrompt, b)
    || exists i :: 0 <= i < |cfg.secretPrompts| && Protocol.Matches(cfg.secretPrompts[i], b)
  }

  function ResultOf(s: State, a: Active, status: Command.Status, exitCode: Option<int>, now: int): Command.Result {
    var chunk := Transcript.ReadLog(s.log, RING_CAPACITY, a.startSeq, MAX_OUTPUT);
    Command.Result(a.tx.id, a.tx.sourceProposalId, status, exitCode, now - a.tx.approvedAt, chunk.data, chunk.gap, now)
  }

  /** Records the terminal result of the active transaction, wakes its waiters and clears it. */
  function FinishActive(s: State, a: Active, status: Command.Status, exitCode: Option<int>, now: int): State {
    s.(
      records := Command.CompletedIn(s.records, ResultOf(s, a, status, exitCode, now)),
      resultWaiters := s.resultWaiters - {a.tx.id},
      closed := if a.tx.id in s.resultWaiters then s.closed + {s.resultWaiters[a.tx.id].wake} else s.closed,
      act := None,
      spans := s.spans[a.tx.id := Span(a.startSeq, |s.log|, a.marker)],
      trail := Protocol.See(s.trail, Protocol.Finished(a.tx.id, status, now)))
  }

  function Finish(s: State, status: Command.Status, now: int): State {
    if s.act == None then s else FinishActive(s, s.act.value, status, None, now)
  }

  /** The session leaves the running state if it is in it. */
  function Settled(sess: Session.Session): Session.Session {
    if sess.state == Session.RunningCommand then Session.Applied(sess, Session.CommandResult, sess.id) else sess
  }

  function FinishAndSettle(s: State, a: Active, status: Command.Status, now: int): State {
    FinishActive(s, a, status, None, now).(sess := Settled(s.sess))
  }

  function SendUsername(s: State): (r: State)
    ensures r == s.(trail := r.trail)
  {
    if s.stream.Some? then Emit(s, Protocol.UsernameSent(s.lineTail)) else s
  }

  function AnswerLogin(s: State): State {
    ClearTail(SendUsername(s).(usernameSent := true))
  }

  function HandleAuthenticating(s: State): (r: State)
    ensures r == s.(usernameSent := r.usernameSent, lineTail := r.lineTail, fed := r.fed, trail := r.trail,
      authGen := r.authGen, authTimers := r.authTimers)
  {
    ArmAuthRetry(AnswerIfAsked(s))
  }

  function AnswerIfAsked(s: State): (r: State)
    ensures r == s.(usernameSent := r.usernameSent, lineTail := r.lineTail, fed := r.fed, trail := r.trail)
  {
    if !s.usernameSent && Protocol.Matches(s.cfg.loginPrompt, s.lineTail) then AnswerLogin(s) else s
  }

  function HandleMarker(s: State, now: int): State {
    if s.act == None then s
    else
      var window := Transcript.ReadLog(s.log, RING_CAPACITY, s.act.value.startSeq, MARKER_SCAN);
      match Marker.Search(s.act.value.marker, window.data)
      case None => s
      case Some(code) =>
        Apply(FinishActive(s.(rebootSuspect := false), s.act.value, Command.Completed, Some(code), now), Session.CommandResult)
  }

  function EnterReboot(s: State): State {
    Emit(Apply(s, Session.TargetRebooted).(
        records := Command.Invalidated(s.records, s.sess.id),
        usernameSent := false, manualReady := false, resyncPending := false, rebootSuspect := false, secret := false),
      Protocol.Rebooted)
  }

  function HandleTargetReboot(s: State, now: int): State {
    EnterReboot(Finish(s, Command.TargetRebooted, now))
  }

  function InstallStream(s: State, stream: StreamId, event: Session.Event, sid: Id): State {
    var s1 := ResetPromptState(s.(stream := Some(stream), usernameSent := false, manualReady := false, resyncPending := false));
    var s2 := s1.(sess := Session.Applied(s1.sess, event, sid), used := s1.used + {sid}, reader := Reading);
    Emit(Apply(s2, Session.TransportReady), Protocol.Opened(sid, s2.cfg))
  }

  function BeginAuthentication(s: State, alreadyAuthenticated: bool): (r: State)
    ensures r == s.(sess := r.sess, authGen := r.authGen, authTimers := r.authTimers)
  {
    if alreadyAuthenticated then Apply(s, Session.Authenticated) else ArmAuthRetry(s)
  }

  // ---- Operations ----

  /** A start gives up a dangling reconnect. */
  function Abandoned(sess: Session.Session): Session.Session {
    if sess.state == Session.Reconnecting then Session.Applied(sess, Session.Shutdown, sess.id) else sess
  }

  function Start(s: State, stream: StreamId, cfg: Protocol.LoginConfig, opener: bool, alreadyAuthenticated: bool, sid: Id): State {
    if s.stream.Some? then s
    else
      var s' := s.(sess := Abandoned(s.sess), cfg := cfg, opener := opener);
      BeginAuthentication(InstallStream(s', stream, Session.Connect, sid), alreadyAuthenticated)
  }

  /** The second section of a retry, after the opener delivered a stream. */
  function Retry(s: State, stream: StreamId, alreadyAuthenticated: bool, sid: Id): State {
    if s.sess.state != Session.Reconnecting then s
    else BeginAuthentication(InstallStream(s, stream, Session.HumanRetry, sid), alreadyAuthenticated)
  }

  function Propose(s: State, session: Id, text: Bytes, timeout: int, now: int, pid: Id): State {
    s.(records := Command.Proposed(s.records, pid, session, text, timeout, now), used := s.used + {pid})
  }

  function Edit(s: State, pid: Id, text: Bytes, now: int, next: Id): State {
    s.(records := Command.Edited(s.records, pid, text, now, next), used := s.used + {next})
  }

  function Reject(s: State, pid: Id): State {
    s.(records := Command.RejectedIn(s.records, pid))
  }

  predicate CanStart(s: State) {
    s.stream.Some? && s.sess.state == Session.Ready && !s.secret && !s.resyncPending && s.act == None
  }

  /** Could an approved transaction execute right now, or is one executing? */
  predicate AIEnabled(s: State) {
    !s.secret && !s.resyncPending && (s.sess.state == Session.Ready || s.sess.state == Session.RunningCommand)
  }

  /** The first section of a retry lets it go on to ask the opener for a stream. */
  predicate MayRetry(s: State) {
    s.sess.state == Session.Reconnecting && s.opener
  }

  function CommandText(tx: Command.Transaction, m: Marker.Marker): Bytes {
    tx.text + Marker.ShellSuffix(m) + "\n"
  }

  function ActiveFor(s: State, tx: Command.Transaction, nonce: Bytes, now: int): Active {
    Active(tx, Marker.Marker(tx.id, nonce), now + tx.timeout, |s.log|)
  }

  /** Installs the transaction and writes its line. */
  function Launch(s: State, a: Active): State {
    Emit(Apply(s.(act := Some(a)), Session.CommandStart),
      Protocol.CommandLine(a.tx, a.marker, CommandText(a.tx, a.marker), a.deadline))
  }

  function StartTransaction(s: State, tx: Command.Transaction, nonce: Bytes, now: int, writeOk: bool): State {
    var a := ActiveFor(s, tx, nonce, now);
    if writeOk then Launch(s, a) else FinishAndSettle(Launch(s, a), a, Command.Disconnected, now)
  }

  /** Approves `pid` in the store and, if that succeeds, starts the transaction. */
  function ApproveAndStart(s: State, pid: Id, now: int, txId: Id, nonce: Bytes, writeOk: bool): State {
    var s' := s.(records := Command.ApprovedIn(s.records, pid, now, txId), used := s.used + {txId});
    if !Command.Approvable(s.records, pid, now) then s'
    else StartTransaction(s', Command.TransactionOf(s.records.proposals[pid], txId, now), nonce, now, writeOk)
  }

  function Approve(s: State, pid: Id, now: int, txId: Id, nonce: Bytes, writeOk: bool): State {
    if !CanStart(s) then s else ApproveAndStart(s, pid, now, txId, nonce, writeOk)
  }

  function DiagnoseStart(s: State, session: Id, text: Bytes, timeout: int, created: int, now: int, pid: Id, txId: Id, nonce: Bytes, writeOk: bool): State {
    if !CanStart(s) || session != s.sess.id || !ManagedCommand.Managed(text) then s
    else
      var s1 := Propose(s, session, text, timeout, created, pid);
      var s2 := ApproveAndStart(s1, pid, now, txId, nonce, writeOk);
      if Command.Approvable(s1.records, pid, now) then s2 else Reject(s2, pid)
  }

  function ConfirmSessionReady(s: State): State {
    if s.sess.state != Session.Authenticating then s
    else Apply(s.(manualReady := true), Session.Authenticated)
  }

  function Takeover(s: State, now: int): State {
    if s.act == None then s else FinishAndSettle(s, s.act.value, Command.InterruptedByUser, now)
  }

  function WithGrace(act: Option<Active>, deadline: int): (r: Option<Active>)
    ensures r.Some? == act.Some? && (r.Some? ==> r.value == act.value.(deadline := deadline))
  {
    match act
    case None => None
    case Some(a) => Some(a.(deadline := deadline))
  }

  function BeginSecret(s: State, now: int): State {
    var due := now + s.cfg.secretGracePeriod;
    Emit(s.(secret := true, act := WithGrace(s.act, due)), Protocol.SecretOpened(due))
  }

  function EndSecret(s: State): (r: State)
    ensures r == s.(secret := false, sess := r.sess, authGen := r.authGen, authRetries := r.authRetries, trail := r.trail)
  {
    if s.sess.state != Session.Authenticating then Emit(s.(secret := false), Protocol.SecretEnded(false))
    else
      Emit(Apply(s.(secret := false, authGen := s.authGen + 1, authRetries := 0), Session.Authenticated),
        Protocol.SecretEnded(true))
  }

  /** The last section of EndSession; the ones before it only close the stream and wait. */
  function Shutdown(s: State): State {
    Apply(s, Session.Shutdown)
  }

  function HangUp(s: State): (r: State)
    ensures r == s.(trail := r.trail)
  {
    if s.stream.Some? then Emit(s, Protocol.HungUp) else s
  }

  /** A stream on which no shell prompt can be recognised is given up. */
  function LeavePromptless(s: State): (r: State)
    ensures r == s.(trail := r.trail)
  {
    if s.cfg.shellPrompt.None? then HangUp(s) else s
  }

  function Halt(s: State): State {
    Emit(ResetPromptState(HangUp(s)), Protocol.Stopped)
  }

  function Stop(s: State, now: int): State {
    Halt(Finish(s, Command.DaemonRestarted, now))
  }

  /** The reader samples the window, filters the chunk and appends it to the ring. */
  function ReadChunk(s: State, raw: Bytes): State {
    s.(log := s.log + Secret.Filtered(s.secret, raw), taken := s.taken + [Secret.Read(s.secret, raw)], reader := Holding(raw))
  }

  function OpenWindow(s: State, now: int): State {
    ClearTail(BeginSecret(s, now))
  }

  /** A boot banner in the unfinished line and the chunk together, in a state where it counts. */
  predicate ShowsBanner(s: State, chunk: Bytes) {
    && Protocol.Matches(s.cfg.bootBanner, s.lineTail + chunk)
    && (s.sess.state == Session.Ready || s.sess.state == Session.RunningCommand)
  }

  function NoteBanner(s: State, chunk: Bytes): (r: State)
    ensures r == s.(rebootSuspect := r.rebootSuspect, trail := r.trail)
  {
    if !ShowsBanner(s, chunk) then s
    else Emit(s.(rebootSuspect := true), Protocol.BannerSeen(s.sess.state, s.lineTail + chunk))
  }

  function ExtendLine(s: State, chunk: Bytes): State {
    s.(promptGen := s.promptGen + 1, lineTail := AdvanceLineTail(s.lineTail, chunk), fed := s.fed + chunk,
       arrivals := s.arrivals + 1)
  }

  function NoteArrival(s: State, chunk: Bytes): State {
    ExtendLine(NoteBanner(s, chunk), chunk)
  }

  predicate RebootConfirmed(s: State) {
    s.rebootSuspect && s.sess.state != Session.Authenticating && AuthPromptAtLineEnd(s)
  }

  /** The reboot is handled first; a login prompt that gave it away is then answered like any other. */
  function RespondToReboot(s: State, now: int): State {
    HandleAuthenticating(HandleTargetReboot(NoteRebootPrompt(s), now))
  }

  function NoteRebootPrompt(s: State): State {
    Emit(s.(rebootSuspect := false), Protocol.RebootPrompt(s.lineTail))
  }

  function Progress(s: State, now: int): State {
    if s.sess.state == Session.Authenticating then HandleAuthenticating(s)
    else if s.sess.state == Session.RunningCommand then HandleMarker(s, now)
    else s
  }

  function RespondToLine(s: State, now: int): State {
    if s.secret then ArmPromptConfirm(s)
    else if SecretPromptMatches(s.cfg, s.lineTail) then OpenWindow(s, now)
    else ArmPromptConfirm(Progress(s, now))
  }

  /** What the coordinator does about the line as it now stands. */
  function Respond(s: State, now: int): State {
    if RebootConfirmed(s) then RespondToReboot(s, now) else RespondToLine(s, now)
  }

  function OnData(s: State, chunk: Bytes, now: int): State {
    Respond(NoteArrival(s, chunk), now)
  }

  function EnterLoss(s: State): State {
    Emit(Apply(s, Session.TransportLost).(
        records := Command.Invalidated(s.records, s.sess.id),
        stream := None, usernameSent := false, manualReady := false, reader := NoReader),
      Protocol.Lost)
  }

  function OnReadError(s: State, stream: StreamId, now: int): State {
    if s.stream != Some(stream) then s else EnterLoss(Finish(s, Command.Disconnected, now))
  }

  function BelievePrompt(s: State): State {
    Emit(ClearTail(s), Protocol.PromptConfirmed(s.lineTail)).(
      rebootSuspect := false, resyncPending := false, secret := false,
      sess := if s.sess.state == Session.Authenticating then Session.Applied(s.sess, Session.Authenticated, s.sess.id) else s.sess)
  }

  function ConfirmShellPrompt(s: State, gen: nat): (r: State)
    ensures r == s.(lineTail := r.lineTail, fed := r.fed, trail := r.trail, rebootSuspect := r.rebootSuspect,
      resyncPending := r.resyncPending, secret := r.secret, sess := r.sess)
  {
    if gen != s.promptGen || !Protocol.Matches(s.cfg.shellPrompt, s.lineTail) then s else BelievePrompt(s)
  }

  function Nudge(s: State): State {
    Emit(s, Protocol.Nudged(s.sess.state, s.lineTail)).(authRetries := s.authRetries + 1, usernameSent := false)
  }

  function RetryAuth(s: State, gen: nat): (r: State)
    ensures r == s.(trail := r.trail, authRetries := r.authRetries, usernameSent := r.usernameSent,
      authGen := r.authGen, authTimers := r.authTimers)
  {
    if gen != s.authGen || s.sess.state != Session.Authenticating || s.stream == None || s.secret then s
    else ArmAuthRetry(NudgeUnlessPrompted(s))
  }

  function NudgeUnlessPrompted(s: State): (r: State)
    ensures r == s.(trail := r.trail, authRetries := r.authRetries, usernameSent := r.usernameSent)
  {
    if Protocol.Matches(s.cfg.shellPrompt, s.lineTail) then s else Nudge(s)
  }

  function InterruptTarget(s: State): (r: State)
    ensures r == s.(trail := r.trail)
  {
    if s.stream.Some? then Emit(s, Protocol.Interrupted) else s
  }

  function ExpireActive(s: State, a: Active, now: int): State {
    FinishAndSettle(s, a, Command.Timeout, now).(resyncPending := true)
  }

  function CheckTimeout(s: State, now: int): State {
    if s.act == None || now < s.act.value.deadline then s
    else LeavePromptless(ExpireActive(InterruptTarget(s), s.act.value, now))
  }

  // ---- Waiting for results ----

  /** The waiter shared by all calls for `tx`, new if this is the first. */
  function WaiterFor(s: State, tx: Id): Waiter {
    if tx in s.resultWaiters then s.resultWaiters[tx] else Waiter(s.nextChan, 0)
  }

  function WaitRegister(s: State, call: CallId, tx: Id): (r: State)
    ensures r == s.(resultWaiters := r.resultWaiters, nextChan := r.nextChan, calls := r.calls)
  {
    if tx in s.records.results || (tx !in s.resultWaiters && |s.resultWaiters| >= MAX_RESULT_WAITERS) then s
    else
      var w := WaiterFor(s, tx);
      s.(
        resultWaiters := s.resultWaiters[tx := w.(refs := w.refs + 1)],
        nextChan := if tx in s.resultWaiters then s.nextChan else s.nextChan + 1,
        calls := s.calls[call := Call(tx, w.wake)])
  }

  /** The call's context ended first. */
  function WaitCancel(s: State, call: CallId): State
    requires call in s.calls
  {
    var c := s.calls[call];
    s.(calls := s.calls - {call}, resultWaiters := Released(s.resultWaiters, c))
  }

  function Released(ws: map<Id, Waiter>, c: Call): map<Id, Waiter> {
    if c.tx !in ws || ws[c.tx].wake != c.wake then ws
    else if ws[c.tx].refs == 1 then ws - {c.tx}
    else ws[c.tx := ws[c.tx].(refs := ws[c.tx].refs - 1)]
  }

  /** The call found its channel closed. */
  function WaitReturn(s: State, call: CallId): State {
    s.(calls := s.calls - {call})
  }

  /** The same run of the same transaction; only the deadline may differ. */
  predicate SameRun(a: Active, b: Active) {
    a.tx == b.tx && a.marker == b.marker && a.startSeq == b.startSeq
  }

  predicate SameAct(x: Option<Active>, y: Option<Active>) {
    x.Some? == y.Some? && (x.Some? ==> SameRun(x.value, y.value))
  }

  // ---- Steps and runs ----

  datatype Event =
    | EvStart(stream: StreamId, cfg: Protocol.LoginConfig, opener: bool, alreadyAuthenticated: bool, sid: Id)
    | EvRetry(stream: StreamId, alreadyAuthenticated: bool, sid: Id)
    | EvPropose(session: Id, text: Bytes, timeout: int, now: int, pid: Id)
    | EvEdit(pid: Id, text: Bytes, now: int, next: Id)
    | EvReject(pid: Id)
    | EvApprove(pid: Id, now: int, txId: Id, nonce: Bytes, writeOk: bool)
    | EvDiagnose(session: Id, text: Bytes, timeout: int, created: int, now: int, pid: Id, txId: Id, nonce: Bytes, writeOk: bool)
    | EvConfirmReady
    | EvTakeover(now: int)
    | EvBeginSecret(now: int)
    | EvEndSecret
    | EvShutdown
    | EvStop(now: int)
    | EvReadChunk(raw: Bytes)
    | EvOnData(now: int)
    | EvReadError(stream: StreamId, now: int)
    | EvPromptTimer(gen: nat)
    | EvAuthTimer(gen: nat)
    | EvTick(now: int)
    | EvWaitRegister(call: CallId, tx: Id)
    | EvWaitCancel(call: CallId)
    | EvWaitReturn(call: CallId)

  /** What the environment must respect: minted identifiers are new and well formed, only live
      goroutines and armed timers act, and a call returns only from a closed channel. */
  predicate Enabled(s: State, e: Event) {
    match e
    case EvStart(_, _, _, _, sid) => sid !in s.used
    case EvRetry(_, _, sid) => sid !in s.used
    case EvPropose(_, _, _, _, pid) => pid !in s.used
    case EvEdit(_, _, _, next) => next !in s.used
    case EvApprove(_, _, txId, nonce, _) => txId !in s.used && Marker.Good(Marker.Marker(txId, nonce))
    case EvDiagnose(_, _, _, _, _, pid, txId, nonce, _) =>
      pid !in s.used && txId !in s.used && pid != txId && Marker.Good(Marker.Marker(txId, nonce))
    case EvReadChunk(raw) => s.reader.Reading? && 0 < |raw| <= READ_BUFFER
    case EvOnData(_) => s.reader.Holding?
    case EvReadError(stream, _) => s.stream == Some(stream) ==> s.reader.Reading?
    case EvPromptTimer(gen) => gen in s.promptTimers
    case EvAuthTimer(gen) => gen in s.authTimers
    case EvWaitRegister(call, _) => call !in s.calls
    case EvWaitCancel(call) => call in s.calls
    case EvWaitReturn(call) => call in s.calls && s.calls[call].wake in s.closed
    case _ => true
  }

  function Step(s: State, e: Event): State
    requires Enabled(s, e)
  {
    match e
    case EvStart(stream, cfg, opener, auth, sid) => Start(s, stream, cfg, opener, auth, sid)
    case EvRetry(stream, auth, sid) => Retry(s, stream, auth, sid)
    case EvPropose(session, text, timeout, now, pid) => Propose(s, session, text, timeout, now, pid)
    case EvEdit(pid, text, now, next) => Edit(s, pid, text, now, next)
    case EvReject(pid) => Reject(s, pid)
    case EvApprove(pid, now, txId, nonce, ok) => Approve(s, pid, now, txId, nonce, ok)
    case EvDiagnose(session, text, timeout, created, now, pid, txId, nonce, ok) =>
      DiagnoseStart(s, session, text, timeout, created, now, pid, txId, nonce, ok)
    case EvConfirmReady => ConfirmSessionReady(s)
    case EvTakeover(now) => Takeover(s, now)
    case EvBeginSecret(now) => BeginSecret(s, now)
    case EvEndSecret => EndSecret(s)
    case EvShutdown => Shutdown(s)
    case EvStop(now) => Stop(s, now)
    case EvReadChunk(raw) => ReadChunk(s, raw)
    case EvOnData(now) => OnData(s.(reader := Reading), s.reader.raw, now)
    case EvReadError(stream, now) => OnReadError(s, stream, now)
    case EvPromptTimer(gen) => ConfirmShellPrompt(s.(promptTimers := s.promptTimers - {gen}), gen)
    case EvAuthTimer(gen) => RetryAuth(s.(authTimers := s.authTimers - {gen}), gen)
    case EvTick(now) => CheckTimeout(s, now)
    case EvWaitRegister(call, tx) => WaitRegister(s, call, tx)
    case EvWaitCancel(call) => WaitCancel(s, call)
    case EvWaitReturn(call) => WaitReturn(s, call)
  }

  ghost predicate Possible(sid: Id, run: seq<Event>)
    decreases |run|, 0
  {
    run == [] || (Possible(sid, run[..|run| - 1]) && Enabled(After(sid, run[..|run| - 1]), run[|run| - 1]))
  }

  /** The state after a run that the environment can produce. */
  ghost function After(sid: Id, run: seq<Event>): State
    requires Possible(sid, run)
    decreases |run|, 1
  {
    if run == [] then Init(sid) else Step(After(sid, run[..|run| - 1]), run[|run| - 1])
  }

  lemma {:induction false} PossiblePrefix(sid: Id, run: seq<Event>, k: nat)
    requires Possible(sid, run) && k <= |run|
    ensures Possible(sid, run[..k])
    decreases |run|
  {
    if k == |run| {
      assert run[..k] == run;
    } else {
      PossiblePrefix(sid, run[..|run| - 1], k);
      assert run[..|run| - 1][..k] == run[..k];
    }
  }

  lemma NextEnabled(sid: Id, run: seq<Event>, i: nat)
    requires Possible(sid, run) && i < |run|
    ensures Possible(sid, run[..i]) && Enabled(After(sid, run[..i]), run[i])
    ensures Possible(sid, run[..i + 1]) && After(sid, run[..i + 1]) == Step(After(sid, run[..i]), run[i])
  {
    PossiblePrefix(sid, run, i + 1);
    assert run[..i + 1][..i] == run[..i];
  }

  lemma OneMore(sid: Id, run: seq<Event>, e: Event)
    requires Possible(sid, run) && Enabled(After(sid, run), e)
    ensures Possible(sid, run + [e]) && After(sid, run + [e]) == Step(After(sid, run), e)
  {
    assert (run + [e])[..|run|] == run;
  }
}
