/** The coordinator produces only traces its observer allows. */
module GatewayControl {
  import opened Basics
  import opened Gateway
  import opened GatewayLedger
  import Command
  import ManagedCommand
  import Marker
  import Protocol
  import Session

  // ---- Invariants ----

  /** Reconnecting implies no stream, and no stream implies disconnected or reconnecting. */
  ghost predicate Lineage(s: State) {
    && (s.sess.state == Session.Reconnecting ==> s.stream == None)
    && (s.stream == None ==> s.sess.state == Session.Disconnected || s.sess.state == Session.Reconnecting)
    && (s.stream == None <==> s.reader == NoReader)
    && s.sess.state != Session.Connecting
    && s.sess.state != Session.Error
    && s.sess.id in s.used
    && s.trail.view.sids <= s.used
  }

  /** At most one armed nudge is live, and a live one implies the limit is not yet reached. */
  ghost predicate Nudging(s: State) {
    && (forall g :: g in s.authTimers ==> g <= s.authGen)
    && (s.authGen in s.authTimers ==> s.authRetries < Protocol.AuthRetryLimit(s.cfg))
  }

  /** The line of the active transaction, its text, its own marker and one line feed, with its
      first deadline. */
  function ActiveLine(s: State): Option<Protocol.Line> {
    match s.act
    case None => None
    case Some(a) => Some(Protocol.Line(a.tx.id, CommandText(a.tx, a.marker), a.tx.approvedAt + a.tx.timeout))
  }

  /** The observer's summary agrees with the coordinator's own fields, but for the two flags
      that the sections raise or clear around recording a result. */
  ghost predicate Observed(s: State) {
    var v := s.trail.view;
    && s.trail.lawful
    && v.connected == s.stream.Some?
    && v.sid == s.sess.id
    && v.cfg == s.cfg
    && v.secret == s.secret
    && v.nudges == s.authRetries
    && v.started == s.records.transactions
    && v.running == ActiveLine(s)
    && (s.act.Some? ==> v.due == s.act.value.deadline)
  }

  ghost predicate Flags(s: State) {
    s.trail.view.suspect == s.rebootSuspect && s.trail.view.resync == s.resyncPending && !s.trail.view.confirmed
  }

  ghost predicate Control(s: State) {
    Lineage(s) && Nudging(s) && Observed(s) && Flags(s)
  }

  lemma InitControl(sid: Id)
    ensures Control(Init(sid))
  {
  }

  // ---- Sub-steps ----

  /** Recording a result keeps everything but perhaps the flags. */
  lemma FinishControl(s: State, a: Active, status: Command.Status, exitCode: Option<int>, now: int)
    requires Lineage(s) && Nudging(s) && Observed(s) && s.act == Some(a)
    requires status == Command.TargetRebooted ==> s.trail.view.confirmed
    requires status == Command.Timeout ==> a.deadline <= now
    ensures var f := FinishActive(s, a, status, exitCode, now);
      && Lineage(f) && Nudging(f) && Observed(f)
      && f.trail.view.confirmed == (s.trail.view.confirmed && status == Command.TargetRebooted)
      && f.trail.view.suspect == (s.trail.view.suspect && status != Command.Completed)
      && f.trail.view.resync == (s.trail.view.resync || status == Command.Timeout)
      && f.sess == s.sess && f.act == None && f.stream == s.stream
      && f.rebootSuspect == s.rebootSuspect && f.resyncPending == s.resyncPending
  {
  }

  predicate Plain(status: Command.Status) {
    status != Command.TargetRebooted && status != Command.Completed && status != Command.Timeout
  }

  lemma FinishPlain(s: State, status: Command.Status, now: int)
    requires Control(s) && Plain(status)
    ensures Control(Finish(s, status, now)) && Finish(s, status, now).act == None
    ensures Finish(s, status, now).stream == s.stream && Finish(s, status, now).sess == s.sess
  {
    if s.act.Some? {
      FinishControl(s, s.act.value, status, None, now);
    }
  }

  lemma SettleControl(s: State, a: Active, status: Command.Status, now: int)
    requires Control(s) && s.act == Some(a) && Plain(status)
    ensures Control(FinishAndSettle(s, a, status, now))
  {
    FinishControl(s, a, status, None, now);
    SettledControl(FinishActive(s, a, status, None, now), Session.CommandResult);
  }

  /** Leaving the running state, or becoming ready, disturbs nothing. */
  lemma SettledControl(s: State, e: Session.Event)
    requires Control(s) && (e == Session.CommandResult || e == Session.Authenticated)
    ensures Control(Apply(s, e)) && Control(s.(sess := Settled(s.sess)))
  {
  }

  lemma ArmAuthControl(s: State)
    requires Control(s)
    ensures Control(ArmAuthRetry(s))
  {
  }

  lemma ArmPromptControl(s: State)
    requires Control(s)
    ensures Control(ArmPromptConfirm(s))
  {
  }

  /** Changes to proposals alone are not observed. */
  lemma RecordsControl(s: State, r: Command.Records, minted: set<Id>)
    requires Control(s) && r.transactions == s.records.transactions
    ensures Control(s.(records := r, used := s.used + minted))
  {
  }

  // ---- Starting and retrying ----

  lemma InstallControl(s: State, stream: StreamId, e: Session.Event, sid: Id)
    requires Lineage(s) && Observed(s.(cfg := s.trail.view.cfg)) && s.stream == None && sid !in s.used
    requires !s.trail.view.confirmed
    requires forall g :: g in s.authTimers ==> g <= s.authGen
    requires (e == Session.Connect && s.sess.state == Session.Disconnected)
          || (e == Session.HumanRetry && s.sess.state == Session.Reconnecting)
    ensures Control(InstallStream(s, stream, e, sid))
  {
  }

  lemma BeginControl(s: State, auth: bool)
    requires Control(s)
    ensures Control(BeginAuthentication(s, auth))
  {
    if auth {
      SettledControl(s, Session.Authenticated);
    } else {
      ArmAuthControl(s);
    }
  }

  lemma StartControl(s: State, stream: StreamId, cfg: Protocol.LoginConfig, opener: bool, auth: bool, sid: Id)
    requires Control(s) && sid !in s.used
    ensures Control(Start(s, stream, cfg, opener, auth, sid))
  {
    if s.stream == None {
      var s' := s.(sess := Abandoned(s.sess), cfg := cfg, opener := opener);
      InstallControl(s', stream, Session.Connect, sid);
      BeginControl(InstallStream(s', stream, Session.Connect, sid), auth);
    }
  }

  lemma RetryControl(s: State, stream: StreamId, auth: bool, sid: Id)
    requires Control(s) && sid !in s.used
    ensures Control(Retry(s, stream, auth, sid))
  {
    if s.sess.state == Session.Reconnecting {
      InstallControl(s, stream, Session.HumanRetry, sid);
      BeginControl(InstallStream(s, stream, Session.HumanRetry, sid), auth);
    }
  }

  /** A new stream under a new session, and nothing else to be seen of it. */
  ghost predicate Installed(s: State, t: State, stream: StreamId, cfg: Protocol.LoginConfig, auth: bool, sid: Id) {
    && s.stream == None && t.stream == Some(stream) && t.cfg == cfg && t.reader.Reading?
    && sid != s.sess.id && sid !in s.trail.view.sids
    && t.sess == Session.Session(if auth then Session.Ready else Session.Authenticating, sid)
    && t.trail.trace == s.trail.trace + [Protocol.Opened(sid, cfg)]
    && t.records == s.records && t.secret == s.secret && !t.resyncPending && t.lineTail == [] && t.authRetries == 0
    && !t.usernameSent && !t.manualReady && !t.rebootSuspect && t.promptGen == s.promptGen + 1 && t.act == s.act
    && Renewed(s, t, auth)
  }

  /** Nudges armed before are outdated, and a new one is armed unless the stream is authenticated already
      or a window is open. */
  predicate Renewed(s: State, t: State, auth: bool) {
    if auth || s.secret then t.authGen == s.authGen + 1 && t.authTimers == s.authTimers
    else t.authGen == s.authGen + 2 && t.authTimers == s.authTimers + {t.authGen}
  }

  lemma BothInstalled(s: State, stream: StreamId, e: Session.Event, auth: bool, sid: Id)
    requires s.stream == None && sid !in s.used && s.sess.id in s.used && s.trail.view.sids <= s.used
    requires (e == Session.Connect && s.sess.state == Session.Disconnected)
          || (e == Session.HumanRetry && s.sess.state == Session.Reconnecting)
    ensures Installed(s, BeginAuthentication(InstallStream(s, stream, e, sid), auth), stream, s.cfg, auth, sid)
  {
  }

  /** A retry in a reconnecting session, so in particular one whose first section just let it pass,
      never replaces a live stream: it installs the new one under a fresh identifier. Otherwise it
      changes nothing. */
  lemma RetryInstallsIff(s: State, stream: StreamId, auth: bool, sid: Id)
    requires Control(s) && sid !in s.used
    ensures MayRetry(s) ==> Installed(s, Retry(s, stream, auth, sid), stream, s.cfg, auth, sid)
    ensures if s.sess.state == Session.Reconnecting
      then Installed(s, Retry(s, stream, auth, sid), stream, s.cfg, auth, sid)
      else Retry(s, stream, auth, sid) == s
  {
    if s.sess.state == Session.Reconnecting {
      BothInstalled(s, stream, Session.HumanRetry, auth, sid);
    }
  }

  /** A start installs the stream under a fresh identifier exactly when there is none, whether or not
      a reconnect was left dangling. */
  lemma StartInstallsIff(s: State, stream: StreamId, cfg: Protocol.LoginConfig, opener: bool, auth: bool, sid: Id)
    requires Control(s) && sid !in s.used
    ensures if s.stream == None
      then Installed(s, Start(s, stream, cfg, opener, auth, sid), stream, cfg, auth, sid)
        && Start(s, stream, cfg, opener, auth, sid).opener == opener
      else Start(s, stream, cfg, opener, auth, sid) == s
  {
    if s.stream == None {
      BothInstalled(s.(sess := Abandoned(s.sess), cfg := cfg, opener := opener), stream, Session.Connect, auth, sid);
    }
  }

  // ---- Proposals and transactions ----

  lemma ProposalControl(s: State, e: Event)
    requires Control(s) && (e.EvPropose? || e.EvEdit? || e.EvReject?) && Enabled(s, e)
    ensures Control(Step(s, e))
  {
    var s' := Step(s, e);
    var minted := if e.EvPropose? then {e.pid} else if e.EvEdit? then {e.next} else {};
    assert s.used + {} == s.used;
    RecordsControl(s, s'.records, minted);
  }

  lemma LinePhysical(tx: Command.Transaction, m: Marker.Marker)
    requires ManagedCommand.Managed(tx.text) && Marker.Good(m)
    ensures Protocol.PhysicalLine(CommandText(tx, m))
  {
    Marker.LineManaged(tx.text, m);
    var line := CommandText(tx, m);
    assert line[..|line| - 1] == tx.text + Marker.ShellSuffix(m);
  }

  /** Installing an approved transaction and writing its line. */
  lemma LaunchControl(s: State, r: Command.Records, a: Active)
    requires Control(s) && CanStart(s) && a.tx.id !in s.records.transactions
    requires r.transactions == s.records.transactions[a.tx.id := a.tx]
    requires ManagedCommand.Managed(a.tx.text) && Marker.Good(a.marker)
    requires a.marker.transactionId == a.tx.id && a.deadline == a.tx.approvedAt + a.tx.timeout
    ensures Control(Launch(s.(records := r, used := s.used + {a.tx.id}), a))
  {
    LinePhysical(a.tx, a.marker);
  }

  lemma ApproveAndStartControl(s: State, pid: Id, now: int, txId: Id, nonce: Bytes, ok: bool)
    requires Control(s) && Books(s) && CanStart(s) && txId !in s.used && Marker.Good(Marker.Marker(txId, nonce))
    ensures Control(ApproveAndStart(s, pid, now, txId, nonce, ok))
  {
    var r := Command.ApprovedIn(s.records, pid, now, txId);
    if Command.Approvable(s.records, pid, now) {
      var tx := Command.TransactionOf(s.records.proposals[pid], txId, now);
      var s' := s.(records := r, used := s.used + {txId});
      var a := ActiveFor(s', tx, nonce, now);
      LaunchControl(s, r, a);
      if !ok {
        SettleControl(Launch(s', a), a, Command.Disconnected, now);
      }
    } else {
      RecordsControl(s, r, {txId});
    }
  }

  lemma DiagnoseControl(s: State, session: Id, text: Bytes, timeout: int, created: int, now: int, pid: Id, txId: Id, nonce: Bytes, ok: bool)
    requires Control(s) && Books(s)
    requires pid !in s.used && txId !in s.used && pid != txId && Marker.Good(Marker.Marker(txId, nonce))
    ensures Control(DiagnoseStart(s, session, text, timeout, created, now, pid, txId, nonce, ok))
  {
    if CanStart(s) && session == s.sess.id && ManagedCommand.Managed(text) {
      var s1 := Propose(s, session, text, timeout, created, pid);
      ProposalControl(s, EvPropose(session, text, timeout, created, pid));
      ProposeBooks(s, session, text, timeout, created, pid);
      ApproveAndStartControl(s1, pid, now, txId, nonce, ok);
      if !Command.Approvable(s1.records, pid, now) {
        ProposalControl(ApproveAndStart(s1, pid, now, txId, nonce, ok), EvReject(pid));
      }
    }
  }

  lemma StoppedControl(s: State)
    requires Control(s)
    ensures Control(Halt(s))
  {
    HangUpControl(s);
    ResetControl(HangUp(s));
  }

  lemma HangUpControl(s: State)
    requires Control(s)
    ensures Control(HangUp(s))
  {
  }

  lemma ResetControl(s: State)
    requires Control(s)
    ensures Control(Emit(ResetPromptState(s), Protocol.Stopped))
  {
  }

  // ---- Console input ----

  lemma NoteBannerControl(s: State, chunk: Bytes)
    requires Control(s) && s.stream.Some?
    ensures Control(NoteBanner(s, chunk))
  {
  }

  lemma ExtendControl(s: State, chunk: Bytes)
    requires Control(s)
    ensures Control(ExtendLine(s, chunk))
  {
  }

  lemma NoteArrivalControl(s: State, chunk: Bytes)
    requires Control(s) && s.stream.Some?
    ensures Control(NoteArrival(s, chunk)) && NoteArrival(s, chunk).stream == s.stream
  {
    NoteBannerControl(s, chunk);
    ExtendControl(NoteBanner(s, chunk), chunk);
  }

  /** A confirmed reboot, once the active transaction's result is recorded. */
  lemma EnterRebootControl(s: State)
    requires Lineage(s) && Nudging(s) && Observed(s) && s.trail.view.confirmed && s.stream.Some?
    ensures Control(EnterReboot(s)) && !EnterReboot(s).secret
  {
  }

  lemma PromptNotedControl(s: State)
    requires Control(s) && RebootConfirmed(s) && s.stream.Some?
    ensures var p := NoteRebootPrompt(s); Lineage(p) && Nudging(p) && Observed(p) && p.trail.view.confirmed
  {
  }

  lemma RebootControl(s: State, now: int)
    requires Control(s) && RebootConfirmed(s) && s.stream.Some?
    ensures var r := HandleTargetReboot(NoteRebootPrompt(s), now); Control(r) && !r.secret
  {
    var s0 := NoteRebootPrompt(s);
    PromptNotedControl(s);
    if s.act.Some? {
      FinishControl(s0, s.act.value, Command.TargetRebooted, None, now);
    }
    EnterRebootControl(Finish(s0, Command.TargetRebooted, now));
  }

  lemma AnswerControl(s: State)
    requires Control(s) && !s.secret && Protocol.Matches(s.cfg.loginPrompt, s.lineTail)
    ensures Control(AnswerLogin(s))
  {
  }

  lemma AuthenticatingControl(s: State)
    requires Control(s) && !s.secret
    ensures Control(HandleAuthenticating(s))
  {
    if !s.usernameSent && Protocol.Matches(s.cfg.loginPrompt, s.lineTail) {
      AnswerControl(s);
      ArmAuthControl(AnswerLogin(s));
    } else {
      ArmAuthControl(s);
    }
  }

  lemma CompletedControl(s: State, a: Active, code: int, now: int)
    requires Control(s) && s.act == Some(a)
    ensures Control(Apply(FinishActive(s.(rebootSuspect := false), a, Command.Completed, Some(code), now), Session.CommandResult))
  {
    var s0 := s.(rebootSuspect := false);
    FinishControl(s0, a, Command.Completed, Some(code), now);
    SettledControl(FinishActive(s0, a, Command.Completed, Some(code), now), Session.CommandResult);
  }

  lemma MarkerControl(s: State, now: int)
    requires Control(s)
    ensures Control(HandleMarker(s, now))
  {
    if s.act.Some? {
      var window := Transcript.ReadLog(s.log, RING_CAPACITY, s.act.value.startSeq, MARKER_SCAN);
      match Marker.Search(s.act.value.marker, window.data) {
        case None =>
        case Some(code) => CompletedControl(s, s.act.value, code, now);
      }
    }
  }

  lemma WindowControl(s: State, now: int)
    requires Control(s)
    ensures Control(BeginSecret(s, now))
  {
    var act := WithGrace(s.act, now + s.cfg.secretGracePeriod);
    assert ActiveLine(s.(act := act)) == ActiveLine(s);
  }

  lemma ClearTailControl(s: State)
    requires Control(s)
    ensures Control(ClearTail(s))
  {
  }

  lemma ProgressControl(s: State, now: int)
    requires Control(s) && !s.secret
    ensures Control(Progress(s, now))
  {
    if s.sess.state == Session.Authenticating {
      AuthenticatingControl(s);
    } else if s.sess.state == Session.RunningCommand {
      MarkerControl(s, now);
    }
  }

  lemma RespondControl(s: State, now: int)
    requires Control(s) && s.stream.Some?
    ensures Control(Respond(s, now))
  {
    if RebootConfirmed(s) {
      RebootControl(s, now);
      AuthenticatingControl(HandleTargetReboot(NoteRebootPrompt(s), now));
    } else if s.secret {
      ArmPromptControl(s);
    } else if SecretPromptMatches(s.cfg, s.lineTail) {
      WindowControl(s, now);
      ClearTailControl(BeginSecret(s, now));
    } else {
      ProgressControl(s, now);
      ArmPromptControl(Progress(s, now));
    }
  }

  lemma OnDataControl(s: State, now: int)
    requires Control(s) && s.reader.Holding?
    ensures Control(OnData(s.(reader := Reading), s.reader.raw, now))
  {
    var s' := s.(reader := Reading);
    assert Control(s');
    NoteArrivalControl(s', s.reader.raw);
    RespondControl(NoteArrival(s', s.reader.raw), now);
  }

  lemma EnterLossControl(s: State)
    requires Control(s) && s.stream.Some? && s.act == None
    ensures Control(EnterLoss(s))
  {
  }

  lemma ReadErrorControl(s: State, stream: StreamId, now: int)
    requires Control(s)
    ensures Control(OnReadError(s, stream, now))
  {
    if s.stream == Some(stream) {
      FinishPlain(s, Command.Disconnected, now);
      EnterLossControl(Finish(s, Command.Disconnected, now));
    }
  }

  // ---- Timers ----

  lemma PromptControl(s: State, gen: nat)
    requires Control(s)
    ensures Control(ConfirmShellPrompt(s, gen))
  {
    if gen == s.promptGen && Protocol.Matches(s.cfg.shellPrompt, s.lineTail) {
      BelieveControl(s);
    }
  }

  lemma BelieveControl(s: State)
    requires Control(s) && Protocol.Matches(s.cfg.shellPrompt, s.lineTail)
    ensures Control(BelievePrompt(s))
  {
  }

  lemma NudgeControl(s: State, before: State)
    requires Control(before) && before.authGen in before.authTimers
    requires s == before.(authTimers := before.authTimers - {before.authGen})
    requires s.sess.state == Session.Authenticating && s.stream.Some? && !s.secret
    requires !Protocol.Matches(s.cfg.shellPrompt, s.lineTail)
    ensures Control(Nudge(s))
  {
  }

  /** A firing nudge timer either nudges or, at a shell prompt, waits on. */
  lemma FiredControl(s: State)
    requires Control(s) && s.authGen in s.authTimers
    requires s.sess.state == Session.Authenticating && s.stream.Some? && !s.secret
    ensures Control(NudgeUnlessPrompted(s.(authTimers := s.authTimers - {s.authGen})))
  {
    var s' := s.(authTimers := s.authTimers - {s.authGen});
    DisarmedControl(s, s.authGen);
    if !Protocol.Matches(s.cfg.shellPrompt, s.lineTail) {
      NudgeControl(s', s);
    }
  }

  lemma DisarmedControl(s: State, gen: nat)
    requires Control(s)
    ensures Control(s.(authTimers := s.authTimers - {gen}))
  {
  }

  lemma RetryAuthControl(s: State, gen: nat)
    requires Control(s) && gen in s.authTimers
    ensures Control(RetryAuth(s.(authTimers := s.authTimers - {gen}), gen))
  {
    var s' := s.(authTimers := s.authTimers - {gen});
    DisarmedControl(s, gen);
    if gen == s.authGen && s.sess.state == Session.Authenticating && s.stream.Some? && !s.secret {
      FiredControl(s);
      ArmAuthControl(NudgeUnlessPrompted(s'));
    }
  }

  lemma RaiseResync(s: State)
    requires Lineage(s) && Nudging(s) && Observed(s)
    requires s.trail.view.resync && s.trail.view.suspect == s.rebootSuspect && !s.trail.view.confirmed
    ensures Control(s.(resyncPending := true))
  {
  }

  lemma ExpireControl(s: State, a: Active, now: int)
    requires Control(s) && s.act == Some(a) && a.deadline <= now
    ensures Control(ExpireActive(s, a, now))
  {
    FinishControl(s, a, Command.Timeout, None, now);
    var f := FinishActive(s, a, Command.Timeout, None, now);
    RaiseResync(f);
    SettledControl(f.(resyncPending := true), Session.CommandResult);
  }

  lemma TickControl(s: State, now: int)
    requires Control(s)
    ensures Control(CheckTimeout(s, now))
  {
    if s.act.Some? && now >= s.act.value.deadline {
      InterruptControl(s);
      ExpireControl(InterruptTarget(s), s.act.value, now);
      LeaveControl(ExpireActive(InterruptTarget(s), s.act.value, now));
    }
  }

  lemma LeaveControl(s: State)
    requires Control(s)
    ensures Control(LeavePromptless(s))
  {
    HangUpControl(s);
  }

  lemma InterruptControl(s: State)
    requires Control(s) && s.act.Some?
    ensures Control(InterruptTarget(s))
  {
  }

  // ---- The remaining operations ----

  lemma EndSecretControl(s: State)
    requires Control(s)
    ensures Control(EndSecret(s))
  {
    if s.sess.state == Session.Authenticating {
      assert EndSecret(s).sess.state == Session.Ready;
    } else {
      assert EndSecret(s).sess == s.sess;
    }
  }

  lemma ConfirmReadyControl(s: State)
    requires Control(s)
    ensures Control(ConfirmSessionReady(s))
  {
    if s.sess.state == Session.Authenticating {
      SettledControl(s.(manualReady := true), Session.Authenticated);
    }
  }

  lemma ShutdownControl(s: State)
    requires Control(s)
    ensures Control(Shutdown(s))
  {
  }

  lemma UnobservedControl(s: State, e: Event)
    requires Control(s) && Enabled(s, e)
    requires e.EvReadChunk? || e.EvWaitRegister? || e.EvWaitCancel? || e.EvWaitReturn?
    ensures Control(Step(s, e))
  {
    match e {
      case EvReadChunk(raw) => AlikeControl(s, ReadChunk(s, raw));
      case EvWaitRegister(call, tx) => AlikeControl(s, WaitRegister(s, call, tx));
      case EvWaitCancel(call) => AlikeControl(s, WaitCancel(s, call));
      case EvWaitReturn(call) => AlikeControl(s, WaitReturn(s, call));
    }
  }

  lemma AlikeControl(s: State, t: State)
    requires Control(s) && (t.reader == s.reader || (s.reader.Reading? && t.reader.Holding?))
    requires t == s.(log := t.log, taken := t.taken, reader := t.reader, resultWaiters := t.resultWaiters,
      nextChan := t.nextChan, calls := t.calls)
    ensures Control(t)
  {
  }

  lemma CommandStepControl(s: State, e: Event)
    requires Control(s) && Books(s) && Enabled(s, e)
    requires e.EvPropose? || e.EvEdit? || e.EvReject? || e.EvApprove? || e.EvDiagnose? || e.EvTakeover? || e.EvTick?
    ensures Control(Step(s, e))
  {
    match e {
      case EvApprove(pid, now, txId, nonce, ok) =>
        if CanStart(s) {
          ApproveAndStartControl(s, pid, now, txId, nonce, ok);
        }
      case EvDiagnose(session, text, timeout, created, now, pid, txId, nonce, ok) =>
        DiagnoseControl(s, session, text, timeout, created, now, pid, txId, nonce, ok);
      case EvTakeover(now) =>
        if s.act.Some? {
          SettleControl(s, s.act.value, Command.InterruptedByUser, now);
        }
      case EvTick(now) => TickControl(s, now);
      case _ => ProposalControl(s, e);
    }
  }

  lemma HumanStepControl(s: State, e: Event)
    requires Control(s) && Enabled(s, e)
    requires e.EvStart? || e.EvRetry? || e.EvBeginSecret? || e.EvEndSecret? || e.EvConfirmReady? || e.EvShutdown? || e.EvStop?
    ensures Control(Step(s, e))
  {
    match e {
      case EvStart(stream, cfg, opener, auth, sid) => StartControl(s, stream, cfg, opener, auth, sid);
      case EvRetry(stream, auth, sid) => RetryControl(s, stream, auth, sid);
      case EvBeginSecret(now) => WindowControl(s, now);
      case EvEndSecret => EndSecretControl(s);
      case EvConfirmReady => ConfirmReadyControl(s);
      case EvShutdown => ShutdownControl(s);
      case EvStop(now) => StopControl(s, now);
    }
  }

  lemma StopControl(s: State, now: int)
    requires Control(s)
    ensures Control(Stop(s, now))
  {
    FinishPlain(s, Command.DaemonRestarted, now);
    StoppedControl(Finish(s, Command.DaemonRestarted, now));
  }

  lemma DeviceStepControl(s: State, e: Event)
    requires Control(s) && Enabled(s, e)
    requires e.EvOnData? || e.EvReadError? || e.EvPromptTimer? || e.EvAuthTimer?
    ensures Control(Step(s, e))
  {
    match e {
      case EvOnData(now) => OnDataControl(s, now);
      case EvReadError(stream, now) => ReadErrorControl(s, stream, now);
      case EvPromptTimer(gen) => PromptControl(s.(promptTimers := s.promptTimers - {gen}), gen);
      case EvAuthTimer(gen) => RetryAuthControl(s, gen);
    }
  }

  lemma StepControl(s: State, e: Event)
    requires Control(s) && Books(s) && Enabled(s, e)
    ensures Control(Step(s, e))
  {
    if e.EvOnData? || e.EvReadError? || e.EvPromptTimer? || e.EvAuthTimer? {
      DeviceStepControl(s, e);
    } else if e.EvReadChunk? || e.EvWaitRegister? || e.EvWaitCancel? || e.EvWaitReturn? {
      UnobservedControl(s, e);
    } else if e.EvPropose? || e.EvEdit? || e.EvReject? || e.EvApprove? || e.EvDiagnose? || e.EvTakeover? || e.EvTick? {
      CommandStepControl(s, e);
    } else {
      HumanStepControl(s, e);
    }
  }

  // ---- Runs ----

  /** Every reachable state is controlled: in particular its trace is allowed throughout. */
  lemma {:induction false} RunControl(sid: Id, run: seq<Event>)
    requires Possible(sid, run)
    ensures Control(After(sid, run))
  {
    if run == [] {
      InitControl(sid);
    } else {
      var init := run[..|run| - 1];
      RunControl(sid, init);
      RunConserved(sid, init);
      StepControl(After(sid, init), run[|run| - 1]);
    }
  }
}
