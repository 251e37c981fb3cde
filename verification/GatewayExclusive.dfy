/** A transaction is active exactly while the session is running a command, except where a stop
or the shutdown that ends a session meets an active transaction. */
module GatewayExclusive {
  import opened Basics
  import opened Gateway
  import opened GatewayLedger
  import opened GatewayControl
  import GatewayTrace
  import Command
  import ManagedCommand
  import Marker
  import Protocol
  import Session
  import Transcript

  predicate Exclusive(s: State) {
    s.act.Some? <==> s.sess.state == Session.RunningCommand
  }

  /** The step leaves the session running with nothing active, or the reverse. */
  predicate Parts(s: State, e: Event) {
    s.act.Some? && (e.EvStop? || e.EvShutdown?)
  }

  // ---- Sections ----

  lemma FinishActiveActs(s: State, a: Active, status: Command.Status, exitCode: Option<int>, now: int)
    ensures var f := FinishActive(s, a, status, exitCode, now); f.act == None && f.sess == s.sess
  {
  }

  lemma FinishActs(s: State, status: Command.Status, now: int)
    ensures Finish(s, status, now).act == None && Finish(s, status, now).sess == s.sess
  {
    if s.act.Some? {
      FinishActiveActs(s, s.act.value, status, None, now);
    }
  }

  lemma SettleExclusive(s: State, a: Active, status: Command.Status, now: int)
    ensures Exclusive(FinishAndSettle(s, a, status, now))
  {
    FinishActiveActs(s, a, status, None, now);
  }

  lemma StartExclusive(s: State, pid: Id, now: int, txId: Id, nonce: Bytes, ok: bool)
    requires Exclusive(s) && CanStart(s)
    ensures Exclusive(ApproveAndStart(s, pid, now, txId, nonce, ok))
  {
    if Command.Approvable(s.records, pid, now) {
      var s' := s.(records := Command.ApprovedIn(s.records, pid, now, txId), used := s.used + {txId});
      var a := ActiveFor(s', Command.TransactionOf(s.records.proposals[pid], txId, now), nonce, now);
      assert Exclusive(Launch(s', a));
      if !ok {
        SettleExclusive(Launch(s', a), a, Command.Disconnected, now);
      }
    }
  }

  lemma DiagnoseExclusive(s: State, session: Id, text: Bytes, timeout: int, created: int, now: int, pid: Id, txId: Id, nonce: Bytes, ok: bool)
    requires Exclusive(s)
    ensures Exclusive(DiagnoseStart(s, session, text, timeout, created, now, pid, txId, nonce, ok))
  {
    if CanStart(s) && session == s.sess.id && ManagedCommand.Managed(text) {
      StartExclusive(Propose(s, session, text, timeout, created, pid), pid, now, txId, nonce, ok);
    }
  }

  lemma MarkerExclusive(s: State, now: int)
    requires Exclusive(s)
    ensures Exclusive(HandleMarker(s, now))
  {
    if s.act.Some? {
      var window := Transcript.ReadLog(s.log, RING_CAPACITY, s.act.value.startSeq, MARKER_SCAN);
      match Marker.Search(s.act.value.marker, window.data) {
        case None =>
        case Some(code) =>
          FinishActiveActs(s.(rebootSuspect := false), s.act.value, Command.Completed, Some(code), now);
      }
    }
  }

  lemma RebootExclusive(s: State, now: int)
    ensures Exclusive(RespondToReboot(s, now))
  {
    FinishActs(NoteRebootPrompt(s), Command.TargetRebooted, now);
  }

  lemma RespondExclusive(s: State, now: int)
    requires Exclusive(s)
    ensures Exclusive(Respond(s, now))
  {
    if RebootConfirmed(s) {
      RebootExclusive(s, now);
    } else if !s.secret && !SecretPromptMatches(s.cfg, s.lineTail) {
      ProgressExclusive(s, now);
    }
  }

  lemma ProgressExclusive(s: State, now: int)
    requires Exclusive(s)
    ensures Exclusive(Progress(s, now))
  {
    if s.sess.state == Session.RunningCommand {
      MarkerExclusive(s, now);
    }
  }

  lemma LossExclusive(s: State, stream: StreamId, now: int)
    requires Exclusive(s)
    ensures Exclusive(OnReadError(s, stream, now))
  {
    if s.stream == Some(stream) {
      FinishActs(s, Command.Disconnected, now);
    }
  }

  lemma TickExclusive(s: State, now: int)
    requires Exclusive(s)
    ensures Exclusive(CheckTimeout(s, now))
  {
    if s.act.Some? && now >= s.act.value.deadline {
      SettleExclusive(InterruptTarget(s), s.act.value, Command.Timeout, now);
    }
  }

  lemma InstallExclusive(s: State, stream: StreamId, e: Session.Event, auth: bool, sid: Id)
    requires Exclusive(s) && s.sess.state != Session.RunningCommand
    requires e == Session.Connect || e == Session.HumanRetry
    ensures Exclusive(BeginAuthentication(InstallStream(s, stream, e, sid), auth))
  {
  }

  lemma BeginExclusive(s: State, e: Event)
    requires Control(s) && Exclusive(s) && Enabled(s, e) && (e.EvStart? || e.EvRetry?)
    ensures Exclusive(Step(s, e))
  {
    match e {
      case EvStart(stream, cfg, opener, auth, sid) =>
        if s.stream == None {
          InstallExclusive(s.(sess := Abandoned(s.sess), cfg := cfg, opener := opener), stream, Session.Connect, auth, sid);
        }
      case EvRetry(stream, auth, sid) =>
        if s.sess.state == Session.Reconnecting { InstallExclusive(s, stream, Session.HumanRetry, auth, sid); }
    }
  }

  lemma StopParts(s: State, now: int)
    requires Exclusive(s)
    ensures Exclusive(Stop(s, now)) <==> s.act == None
  {
    FinishActs(s, Command.DaemonRestarted, now);
  }

  /** A step keeps the two together exactly when it is not a stop, or the last section of ending
      a session, that meets an active transaction. */
  lemma StepExclusive(s: State, e: Event)
    requires Control(s) && Exclusive(s) && Enabled(s, e)
    ensures Exclusive(Step(s, e)) <==> !Parts(s, e)
  {
    if Human(e) {
      HumanExclusive(s, e);
    } else if e.EvApprove? || e.EvDiagnose? || e.EvOnData? || e.EvReadError? || e.EvTick? {
      WorkExclusive(s, e);
    } else if e.EvStart? || e.EvRetry? {
      BeginExclusive(s, e);
    } else if e.EvWaitRegister? || e.EvWaitCancel? || e.EvWaitReturn? {
      CallExclusive(s, e);
    } else {
      QuietExclusive(s, e);
    }
  }

  lemma WorkExclusive(s: State, e: Event)
    requires Exclusive(s) && Enabled(s, e)
    requires e.EvApprove? || e.EvDiagnose? || e.EvOnData? || e.EvReadError? || e.EvTick?
    ensures Exclusive(Step(s, e))
  {
    match e {
      case EvApprove(pid, now, txId, nonce, ok) => if CanStart(s) { StartExclusive(s, pid, now, txId, nonce, ok); }
      case EvDiagnose(session, text, timeout, created, now, pid, txId, nonce, ok) =>
        DiagnoseExclusive(s, session, text, timeout, created, now, pid, txId, nonce, ok);
      case EvOnData(now) => RespondExclusive(NoteArrival(s.(reader := Reading), s.reader.raw), now);
      case EvReadError(stream, now) => LossExclusive(s, stream, now);
      case EvTick(now) => TickExclusive(s, now);
    }
  }

  lemma ReadyExclusive(s: State)
    requires Exclusive(s)
    ensures Exclusive(ConfirmSessionReady(s))
  {
  }

  lemma BeginSecretExclusive(s: State, now: int)
    requires Exclusive(s)
    ensures Exclusive(BeginSecret(s, now))
  {
  }

  lemma EndSecretExclusive(s: State)
    requires Exclusive(s)
    ensures Exclusive(EndSecret(s))
  {
    if s.sess.state == Session.Authenticating {
      assert EndSecret(s).sess.state == Session.Ready;
    } else {
      assert EndSecret(s).sess == s.sess;
    }
  }

  lemma ShutdownParts(s: State)
    requires Exclusive(s)
    ensures Exclusive(Shutdown(s)) <==> s.act == None
  {
  }

  predicate Human(e: Event) {
    e.EvTakeover? || e.EvStop? || e.EvConfirmReady? || e.EvBeginSecret? || e.EvEndSecret? || e.EvShutdown?
  }

  lemma TakeoverExclusive(s: State, now: int)
    requires Exclusive(s)
    ensures Exclusive(Takeover(s, now))
  {
    if s.act.Some? {
      SettleExclusive(s, s.act.value, Command.InterruptedByUser, now);
    }
  }

  lemma HumanExclusive(s: State, e: Event)
    requires Exclusive(s) && Enabled(s, e) && Human(e)
    ensures Exclusive(Step(s, e)) <==> !Parts(s, e)
  {
    match e {
      case EvTakeover(now) => TakeoverExclusive(s, now);
      case EvStop(now) => StopParts(s, now);
      case EvConfirmReady => ReadyExclusive(s);
      case EvBeginSecret(now) => BeginSecretExclusive(s, now);
      case EvEndSecret => EndSecretExclusive(s);
      case EvShutdown => ShutdownParts(s);
    }
  }

  lemma CallExclusive(s: State, e: Event)
    requires Exclusive(s) && Enabled(s, e) && (e.EvWaitRegister? || e.EvWaitCancel? || e.EvWaitReturn?)
    ensures Exclusive(Step(s, e))
  {
    match e {
      case EvWaitRegister(call, tx) => AlikeExclusive(s, WaitRegister(s, call, tx));
      case EvWaitCancel(call) => AlikeExclusive(s, WaitCancel(s, call));
      case EvWaitReturn(call) => AlikeExclusive(s, WaitReturn(s, call));
    }
  }

  lemma AlikeExclusive(s: State, s': State)
    requires Exclusive(s) && s'.sess == s.sess && s'.act == s.act
    ensures Exclusive(s')
  {
  }

  lemma QuietExclusive(s: State, e: Event)
    requires Exclusive(s) && Enabled(s, e)
    requires e.EvPropose? || e.EvEdit? || e.EvReject? || e.EvReadChunk? || e.EvPromptTimer? || e.EvAuthTimer?
    ensures Exclusive(Step(s, e))
  {
    match e {
      case EvPropose(session, text, timeout, now, pid) => AlikeExclusive(s, Propose(s, session, text, timeout, now, pid));
      case EvEdit(pid, text, now, next) => AlikeExclusive(s, Edit(s, pid, text, now, next));
      case EvReject(pid) => AlikeExclusive(s, Reject(s, pid));
      case EvReadChunk(raw) => AlikeExclusive(s, ReadChunk(s, raw));
      case EvPromptTimer(gen) => ConfirmExclusive(s.(promptTimers := s.promptTimers - {gen}), gen);
      case EvAuthTimer(gen) => AlikeExclusive(s, RetryAuth(s.(authTimers := s.authTimers - {gen}), gen));
    }
  }

  lemma ConfirmExclusive(s: State, gen: nat)
    requires Exclusive(s)
    ensures Exclusive(ConfirmShellPrompt(s, gen))
  {
  }

  // ---- Runs ----

  /** No stop, and no final section of ending a session, meets an active transaction. */
  ghost predicate Unparted(sid: Id, run: seq<Event>)
    requires Possible(sid, run)
  {
    run == [] || (Unparted(sid, run[..|run| - 1]) && !Parts(After(sid, run[..|run| - 1]), run[|run| - 1]))
  }

  lemma {:induction false} RunExclusive(sid: Id, run: seq<Event>)
    requires Possible(sid, run) && Unparted(sid, run)
    ensures Exclusive(After(sid, run))
  {
    if run != [] {
      RunExclusive(sid, run[..|run| - 1]);
      RunControl(sid, run[..|run| - 1]);
      StepExclusive(After(sid, run[..|run| - 1]), run[|run| - 1]);
    }
  }

  /** Ending a session with nothing started in between: the stream is gone by the last section,
      and then no transaction is active. */
  lemma NothingActiveWithoutStream(sid: Id, run: seq<Event>)
    requires Possible(sid, run) && Unparted(sid, run) && After(sid, run).stream == None
    ensures After(sid, run).act == None
  {
    RunExclusive(sid, run);
    RunControl(sid, run);
  }

  /** The AI is reported enabled exactly when a command could start this moment, or one is running with
      no window open. */
  lemma RunAIEnabledIff(sid: Id, run: seq<Event>)
    requires Possible(sid, run) && Unparted(sid, run)
    ensures var s := After(sid, run); AIEnabled(s) <==> CanStart(s) || (s.act.Some? && !s.secret)
  {
    RunExclusive(sid, run);
    RunControl(sid, run);
    if After(sid, run).act.Some? {
      GatewayTrace.RunActiveNotResync(sid, run);
    }
  }

  // ---- The gap ----

  const GAP_NONCE: Bytes := "aaaaaaaaaaaaaaaaaaaaaaaaaaaaaaaa"

  function GapStart(sid: Id): Event { EvStart(0, Protocol.NO_LOGIN, false, true, sid) }

  function GapCommand(): Event { EvDiagnose("c", "", 0, 0, 0, "p", "t", GAP_NONCE, true) }

  /** A session is being ended: its reader has exited, but before the last section a new session
      is started and runs a command. */
  function Gap(): seq<Event> {
    [GapStart("b")] + [EvReadError(0, 0)] + [GapStart("c")] + [GapCommand()] + [EvShutdown]
  }

  lemma EmptyTextManaged()
    ensures ManagedCommand.Managed("")
  {
  }

  lemma GapNonceGood()
    ensures Marker.Good(Marker.Marker("t", GAP_NONCE))
  {
  }

  predicate Idle(s: State) {
    s.stream == None && !s.secret && s.act == None && (s.sess.state.Disconnected? || s.sess.state.Reconnecting?)
  }

  lemma GapStarts(s: State, sid: Id)
    requires Idle(s)
    ensures var t := Start(s, 0, Protocol.NO_LOGIN, false, true, sid);
      CanStart(t) && t.stream == Some(0) && t.reader.Reading? && t.sess.id == sid && t.used == s.used + {sid}
  {
    var s' := s.(sess := Abandoned(s.sess), cfg := Protocol.NO_LOGIN, opener := false);
    GapInstalls(s', sid);
    StartIs(s, sid);
    GapReady(InstallStream(s', 0, Session.Connect, sid));
  }

  lemma StartIs(s: State, sid: Id)
    requires s.stream == None
    ensures Start(s, 0, Protocol.NO_LOGIN, false, true, sid)
         == Apply(InstallStream(s.(sess := Abandoned(s.sess), cfg := Protocol.NO_LOGIN, opener := false), 0, Session.Connect, sid),
              Session.Authenticated)
  {
  }

  lemma GapReady(s: State)
    requires s.stream == Some(0) && !s.secret && !s.resyncPending && s.act == None && s.sess.state.Authenticating?
    ensures var t := Apply(s, Session.Authenticated);
      CanStart(t) && t.stream == s.stream && t.reader == s.reader && t.sess.id == s.sess.id && t.used == s.used
  {
  }

  lemma GapInstalls(s: State, sid: Id)
    requires Idle(s) && s.sess.state.Disconnected?
    ensures var t := InstallStream(s, 0, Session.Connect, sid);
      && t.stream == Some(0) && t.reader.Reading? && t.used == s.used + {sid} && !t.secret && !t.resyncPending
      && t.act == None && t.sess == Session.Session(Session.Authenticating, sid)
  {
  }

  lemma GapLoses(s: State)
    requires CanStart(s) && s.stream == Some(0)
    ensures Idle(OnReadError(s, 0, 0)) && OnReadError(s, 0, 0).used == s.used
  {
  }

  lemma GapRuns(s: State)
    requires CanStart(s) && s.sess.id == "c" && s.used == {"a", "b", "c"}
    ensures Enabled(s, GapCommand()) && Step(s, GapCommand()).act.Some?
  {
    EmptyTextManaged();
    GapNonceGood();
    var s1 := Propose(s, "c", "", 0, 0, "p");
    assert Command.Approvable(s1.records, "p", 0);
    assert DiagnoseStart(s, "c", "", 0, 0, 0, "p", "t", GAP_NONCE, true).act.Some?;
  }

  lemma GapOpens()
    ensures Possible("a", [GapStart("b")])
    ensures var s := After("a", [GapStart("b")]);
      CanStart(s) && s.stream == Some(0) && s.reader.Reading? && s.used == {"a", "b"}
  {
    assert Idle(Init("a"));
    GapStarts(Init("a"), "b");
    OneMore("a", [], GapStart("b"));
    assert [] + [GapStart("b")] == [GapStart("b")];
  }

  lemma GapCloses(run: seq<Event>)
    requires Possible("a", run)
    requires var s := After("a", run); CanStart(s) && s.stream == Some(0) && s.reader.Reading? && s.used == {"a", "b"}
    ensures Possible("a", run + [EvReadError(0, 0)])
    ensures var s := After("a", run + [EvReadError(0, 0)]); Idle(s) && s.used == {"a", "b"}
  {
    GapLoses(After("a", run));
    OneMore("a", run, EvReadError(0, 0));
  }

  lemma GapReopens(run: seq<Event>)
    requires Possible("a", run) && Idle(After("a", run)) && After("a", run).used == {"a", "b"}
    ensures Possible("a", run + [GapStart("c")])
    ensures var s := After("a", run + [GapStart("c")]); CanStart(s) && s.sess.id == "c" && s.used == {"a", "b", "c"}
  {
    GapStarts(After("a", run), "c");
    OneMore("a", run, GapStart("c"));
  }

  lemma NowhereRunning(s: State)
    requires s.act.Some?
    ensures !Exclusive(Shutdown(s))
  {
  }

  lemma GapPartsThem()
    ensures Possible("a", Gap()) && !Exclusive(After("a", Gap()))
  {
    GapOpens();
    GapCloses([GapStart("b")]);
    GapReopens([GapStart("b")] + [EvReadError(0, 0)]);
    var run := [GapStart("b")] + [EvReadError(0, 0)] + [GapStart("c")];
    GapRuns(After("a", run));
    OneMore("a", run, GapCommand());
    OneMore("a", run + [GapCommand()], EvShutdown);
    assert run + [GapCommand()] + [EvShutdown] == Gap();
    NowhereRunning(After("a", run + [GapCommand()]));
  }
}
