/** What one step does to the running transaction, whatever else it does.

Every step that neither reads a chunk nor concerns a waiting call leaves the transcript and the
calls alone and either leaves the transaction alone, ends it, begins one, or begins and ends
one at once. The invariants about results need to know no more. */
module GatewayJobs {
  import opened Basics
  import opened Gateway
  import Command
  import ManagedCommand
  import Marker
  import Protocol
  import Session
  import Transcript

  datatype Work =
    | Nothing
    | Begin(a: Active)
    | End(a: Active, status: Command.Status, code: Option<int>, now: int)
    | BeginEnd(a: Active, now: int)

  /** The transcript, the calls and the ring are untouched. */
  ghost predicate Rest(s: State, t: State) {
    t.log == s.log && t.taken == s.taken && t.calls == s.calls && t.nextChan == s.nextChan
  }

  ghost predicate Quiet(s: State, t: State) {
    && Rest(s, t)
    && t.records.results == s.records.results
    && t.records.transactions == s.records.transactions
    && t.resultWaiters == s.resultWaiters && t.closed == s.closed && t.spans == s.spans
    && SameAct(s.act, t.act)
  }

  ghost predicate Began(s: State, t: State, a: Active) {
    && Rest(s, t)
    && s.act == None && t.act == Some(a)
    && a.startSeq == |s.log| && a.marker.transactionId == a.tx.id
    && t.records.results == s.records.results
    && t.records.transactions == s.records.transactions[a.tx.id := a.tx]
    && t.resultWaiters == s.resultWaiters && t.closed == s.closed && t.spans == s.spans
  }

  /** A stored exit code is the one found in this transaction's own scan window. */
  ghost predicate Earned(log: Bytes, a: Active, status: Command.Status, code: Option<int>) {
    && (code.Some? <==> status == Command.Completed)
    && (code.Some? ==>
          code == Marker.Search(a.marker, Transcript.ReadLog(log, RING_CAPACITY, a.startSeq, MARKER_SCAN).data))
  }

  ghost predicate Closed(s: State, t: State, a: Active, status: Command.Status, code: Option<int>, now: int) {
    && Rest(s, t)
    && t.act == None
    && t.records.results == Command.CompletedIn(s.records, ResultOf(s, a, status, code, now)).results
    && t.records.transactions == s.records.transactions
    && t.resultWaiters == s.resultWaiters - {a.tx.id}
    && t.closed == s.closed + (if a.tx.id in s.resultWaiters then {s.resultWaiters[a.tx.id].wake} else {})
    && t.spans == s.spans[a.tx.id := Span(a.startSeq, |s.log|, a.marker)]
    && Earned(s.log, a, status, code)
  }

  ghost predicate Did(s: State, t: State, w: Work) {
    match w
    case Nothing => Quiet(s, t)
    case Begin(a) => Began(s, t, a)
    case End(a, status, code, now) => s.act.Some? && SameRun(s.act.value, a) && Closed(s, t, a, status, code, now)
    case BeginEnd(a, now) => exists m :: Began(s, m, a) && Closed(m, t, a, Command.Disconnected, None, now)
  }

  lemma QuietThen(s: State, m: State, t: State, w: Work)
    requires Quiet(s, m) && Did(m, t, w) && !w.BeginEnd?
    ensures Did(s, t, w)
  {
    if w.End? {
      assert ResultOf(s, w.a, w.status, w.code, w.now) == ResultOf(m, w.a, w.status, w.code, w.now);
    }
  }

  lemma ThenQuiet(s: State, m: State, t: State, w: Work)
    requires Did(s, m, w) && Quiet(m, t) && (w.Nothing? || w.End?)
    ensures Did(s, t, w)
  {
  }

  // ---- Sub-steps ----

  lemma FinishJob(s: State, a: Active, status: Command.Status, code: Option<int>, now: int)
    requires s.act == Some(a) && Earned(s.log, a, status, code)
    ensures Did(s, FinishActive(s, a, status, code, now), End(a, status, code, now))
  {
  }

  lemma FinishAnyJob(s: State, status: Command.Status, now: int) returns (w: Work)
    requires status != Command.Completed
    ensures Did(s, Finish(s, status, now), w) && (w.Nothing? || w.End?)
  {
    if s.act == None {
      w := Nothing;
    } else {
      w := End(s.act.value, status, None, now);
      FinishJob(s, s.act.value, status, None, now);
    }
  }

  lemma SettleJob(s: State, a: Active, status: Command.Status, now: int)
    requires s.act == Some(a) && status != Command.Completed
    ensures Did(s, FinishAndSettle(s, a, status, now), End(a, status, None, now))
  {
    FinishJob(s, a, status, None, now);
    var f := FinishActive(s, a, status, None, now);
    ThenQuiet(s, f, FinishAndSettle(s, a, status, now), End(a, status, None, now));
  }

  lemma LaunchJob(s: State, r: Command.Records, minted: set<Id>, a: Active)
    requires s.act == None && a.startSeq == |s.log| && a.marker.transactionId == a.tx.id
    requires r.results == s.records.results && r.transactions == s.records.transactions[a.tx.id := a.tx]
    ensures Began(s, Launch(s.(records := r, used := s.used + minted), a), a)
  {
  }

  lemma ApproveJob(s: State, pid: Id, now: int, txId: Id, nonce: Bytes, ok: bool) returns (w: Work)
    requires s.act == None
    ensures Did(s, ApproveAndStart(s, pid, now, txId, nonce, ok), w) && (w.BeginEnd? ==> w.a.tx.id == txId)
  {
    var r := Command.ApprovedIn(s.records, pid, now, txId);
    var s' := s.(records := r, used := s.used + {txId});
    if !Command.Approvable(s.records, pid, now) {
      w := Nothing;
    } else {
      var tx := Command.TransactionOf(s.records.proposals[pid], txId, now);
      var a := ActiveFor(s', tx, nonce, now);
      LaunchJob(s, r, {txId}, a);
      if ok {
        w := Begin(a);
      } else {
        w := BeginEnd(a, now);
        SettleJob(Launch(s', a), a, Command.Disconnected, now);
        assert Began(s, Launch(s', a), a);
      }
    }
  }

  lemma MarkerJob(s: State, now: int) returns (w: Work)
    ensures Did(s, HandleMarker(s, now), w) && (w.Nothing? || w.End?)
  {
    if s.act.Some? {
      w := ActiveMarkerJob(s, s.act.value, now);
    } else {
      w := Nothing;
    }
  }

  lemma ActiveMarkerJob(s: State, a: Active, now: int) returns (w: Work)
    requires s.act == Some(a)
    ensures Did(s, HandleMarker(s, now), w) && (w.Nothing? || w.End?)
  {
    var window := Transcript.ReadLog(s.log, RING_CAPACITY, a.startSeq, MARKER_SCAN);
    var found := Marker.Search(a.marker, window.data);
    if found.Some? {
      w := End(a, Command.Completed, found, now);
      CompletedJob(s, a, found.value, now);
    } else {
      w := Nothing;
      assert HandleMarker(s, now) == s;
    }
  }

  lemma CompletedJob(s: State, a: Active, code: int, now: int)
    requires s.act == Some(a) && Earned(s.log, a, Command.Completed, Some(code))
    ensures Did(s, Apply(FinishActive(s.(rebootSuspect := false), a, Command.Completed, Some(code), now), Session.CommandResult),
      End(a, Command.Completed, Some(code), now))
  {
    var w := End(a, Command.Completed, Some(code), now);
    var s0 := s.(rebootSuspect := false);
    FinishJob(s0, a, Command.Completed, Some(code), now);
    var f := FinishActive(s0, a, Command.Completed, Some(code), now);
    ThenQuiet(s0, f, Apply(f, Session.CommandResult), w);
    QuietThen(s, s0, Apply(f, Session.CommandResult), w);
  }

  lemma RebootJob(s: State, now: int) returns (w: Work)
    ensures Did(s, RespondToReboot(s, now), w) && (w.Nothing? || w.End?)
  {
    var s0 := NoteRebootPrompt(s);
    NotedQuiet(s);
    w := UnsuspectedRebootJob(s0, now);
    QuietThen(s, s0, RespondToReboot(s, now), w);
  }

  lemma NotedQuiet(s: State)
    ensures Quiet(s, NoteRebootPrompt(s))
  {
  }

  lemma UnsuspectedRebootJob(s: State, now: int) returns (w: Work)
    ensures Did(s, HandleAuthenticating(HandleTargetReboot(s, now)), w) && (w.Nothing? || w.End?)
  {
    w := FinishAnyJob(s, Command.TargetRebooted, now);
    var f := Finish(s, Command.TargetRebooted, now);
    RebootedQuiet(f);
    ThenQuiet(s, f, HandleAuthenticating(EnterReboot(f)), w);
  }

  lemma RebootedQuiet(s: State)
    ensures Quiet(s, HandleAuthenticating(EnterReboot(s)))
  {
    EnterRebootQuiet(s);
    AuthenticatingQuiet(EnterReboot(s));
  }

  lemma EnterRebootQuiet(s: State)
    ensures Quiet(s, EnterReboot(s))
  {
  }

  lemma AuthenticatingQuiet(s: State)
    ensures Quiet(s, HandleAuthenticating(s))
  {
  }

  lemma ArmPromptQuiet(s: State)
    ensures Quiet(s, ArmPromptConfirm(s))
  {
  }

  lemma BeginSecretQuiet(s: State, now: int)
    ensures Quiet(s, BeginSecret(s, now))
  {
  }

  lemma OpenWindowQuiet(s: State, now: int)
    ensures Quiet(s, OpenWindow(s, now))
  {
    BeginSecretQuiet(s, now);
    ClearTailQuiet(BeginSecret(s, now));
    QuietThen(s, BeginSecret(s, now), OpenWindow(s, now), Nothing);
  }

  lemma ClearTailQuiet(s: State)
    ensures Quiet(s, ClearTail(s))
  {
  }

  lemma ProgressJob(s: State, now: int) returns (w: Work)
    ensures Did(s, Progress(s, now), w) && (w.Nothing? || w.End?)
  {
    w := Nothing;
    if s.sess.state == Session.Authenticating {
      AuthenticatingQuiet(s);
    } else if s.sess.state == Session.RunningCommand {
      w := MarkerJob(s, now);
    }
  }

  lemma RespondJob(s: State, now: int) returns (w: Work)
    ensures Did(s, Respond(s, now), w) && (w.Nothing? || w.End?)
  {
    w := Nothing;
    if RebootConfirmed(s) {
      w := RebootJob(s, now);
    } else if s.secret {
      ArmPromptQuiet(s);
    } else if SecretPromptMatches(s.cfg, s.lineTail) {
      OpenWindowQuiet(s, now);
    } else {
      w := ProgressJob(s, now);
      ArmPromptQuiet(Progress(s, now));
      ThenQuiet(s, Progress(s, now), ArmPromptConfirm(Progress(s, now)), w);
    }
  }

  lemma OnDataJob(s: State, now: int) returns (w: Work)
    requires s.reader.Holding?
    ensures Did(s, OnData(s.(reader := Reading), s.reader.raw, now), w) && !w.BeginEnd?
  {
    var n := NoteArrival(s.(reader := Reading), s.reader.raw);
    w := RespondJob(n, now);
    QuietThen(s, n, Respond(n, now), w);
  }

  lemma ReadErrorJob(s: State, stream: StreamId, now: int) returns (w: Work)
    ensures Did(s, OnReadError(s, stream, now), w) && !w.BeginEnd?
  {
    w := Nothing;
    if s.stream == Some(stream) {
      w := FinishAnyJob(s, Command.Disconnected, now);
      var f := Finish(s, Command.Disconnected, now);
      EnterLossQuiet(f);
      ThenQuiet(s, f, EnterLoss(f), w);
    }
  }

  lemma EnterLossQuiet(s: State)
    ensures Quiet(s, EnterLoss(s))
  {
  }

  lemma StoppedQuiet(s: State)
    ensures Quiet(s, Halt(s))
  {
  }

  lemma StopJob(s: State, now: int) returns (w: Work)
    ensures Did(s, Stop(s, now), w) && !w.BeginEnd?
  {
    w := FinishAnyJob(s, Command.DaemonRestarted, now);
    var f := Finish(s, Command.DaemonRestarted, now);
    StoppedQuiet(f);
    ThenQuiet(s, f, Stop(s, now), w);
  }

  lemma TickJob(s: State, now: int) returns (w: Work)
    ensures Did(s, CheckTimeout(s, now), w) && !w.BeginEnd?
  {
    w := Nothing;
    if s.act.Some? && now >= s.act.value.deadline {
      var i := InterruptTarget(s);
      w := End(s.act.value, Command.Timeout, None, now);
      var x := ExpireActive(i, s.act.value, now);
      ExpireJob(i, s.act.value, now);
      QuietThen(s, i, x, w);
      ThenQuiet(s, x, LeavePromptless(x), w);
    }
  }

  lemma ExpireJob(s: State, a: Active, now: int)
    requires s.act == Some(a)
    ensures Did(s, ExpireActive(s, a, now), End(a, Command.Timeout, None, now))
  {
    SettleJob(s, a, Command.Timeout, now);
    ThenQuiet(s, FinishAndSettle(s, a, Command.Timeout, now), ExpireActive(s, a, now), End(a, Command.Timeout, None, now));
  }

  lemma InstallQuiet(s: State, stream: StreamId, e: Session.Event, sid: Id, auth: bool)
    ensures Quiet(s, BeginAuthentication(InstallStream(s, stream, e, sid), auth))
  {
  }

  lemma StartQuiet(s: State, stream: StreamId, cfg: Protocol.LoginConfig, opener: bool, auth: bool, sid: Id)
    ensures Quiet(s, Start(s, stream, cfg, opener, auth, sid))
  {
    if s.stream == None {
      InstallQuiet(s.(sess := Abandoned(s.sess), cfg := cfg, opener := opener), stream, Session.Connect, sid, auth);
    }
  }

  lemma RetryQuiet(s: State, stream: StreamId, auth: bool, sid: Id)
    ensures Quiet(s, Retry(s, stream, auth, sid))
  {
    if s.sess.state == Session.Reconnecting {
      InstallQuiet(s, stream, Session.HumanRetry, sid, auth);
    }
  }

  lemma ProposalQuiet(s: State, e: Event)
    requires (e.EvPropose? || e.EvEdit? || e.EvReject?) && Enabled(s, e)
    ensures Quiet(s, Step(s, e))
  {
  }

  lemma DiagnoseJob(s: State, session: Id, text: Bytes, timeout: int, created: int, now: int, pid: Id, txId: Id, nonce: Bytes, ok: bool) returns (w: Work)
    ensures Did(s, DiagnoseStart(s, session, text, timeout, created, now, pid, txId, nonce, ok), w) && (w.BeginEnd? ==> w.a.tx.id == txId)
  {
    w := Nothing;
    if CanStart(s) && session == s.sess.id && ManagedCommand.Managed(text) {
      var s1 := Propose(s, session, text, timeout, created, pid);
      if Command.Approvable(s1.records, pid, now) {
        w := ProposedJob(s, s1, pid, now, txId, nonce, ok);
      } else {
        UnapprovedQuiet(s, s1, pid, now, txId, nonce, ok);
      }
    }
  }

  /** A proposal made and then neither approved nor left pending. */
  lemma UnapprovedQuiet(s: State, s1: State, pid: Id, now: int, txId: Id, nonce: Bytes, ok: bool)
    requires Quiet(s, s1) && !Command.Approvable(s1.records, pid, now)
    ensures Quiet(s, Reject(ApproveAndStart(s1, pid, now, txId, nonce, ok), pid))
  {
  }

  lemma ProposedJob(s: State, s1: State, pid: Id, now: int, txId: Id, nonce: Bytes, ok: bool) returns (w: Work)
    requires Quiet(s, s1) && s1.act == s.act == None
    ensures Did(s, ApproveAndStart(s1, pid, now, txId, nonce, ok), w) && (w.BeginEnd? ==> w.a.tx.id == txId)
  {
    w := ApproveJob(s1, pid, now, txId, nonce, ok);
    ProposedFirst(s, s1, ApproveAndStart(s1, pid, now, txId, nonce, ok), w);
  }

  lemma ProposedFirst(s: State, s1: State, t: State, w: Work)
    requires Quiet(s, s1) && s1.act == s.act && Did(s1, t, w)
    ensures Did(s, t, w)
  {
    if w.BeginEnd? {
      var m :| Began(s1, m, w.a) && Closed(m, t, w.a, Command.Disconnected, None, w.now);
      assert Began(s, m, w.a);
    } else {
      QuietThen(s, s1, t, w);
    }
  }

  lemma HumanQuiet(s: State, e: Event)
    requires e.EvConfirmReady? || e.EvEndSecret? || e.EvShutdown? || e.EvBeginSecret?
    ensures Quiet(s, Step(s, e))
  {
    match e {
      case EvConfirmReady => ReadyQuiet(s);
      case EvEndSecret => EndSecretQuiet(s);
      case EvShutdown =>
      case EvBeginSecret(now) => BeginSecretQuiet(s, now);
    }
  }

  lemma ReadyQuiet(s: State)
    ensures Quiet(s, ConfirmSessionReady(s))
  {
    if s.sess.state == Session.Authenticating {
      assert ConfirmSessionReady(s) == Apply(s.(manualReady := true), Session.Authenticated);
    }
  }

  lemma EndSecretQuiet(s: State)
    ensures Quiet(s, EndSecret(s))
  {
  }

  predicate Reads(e: Event) {
    e.EvReadChunk? || e.EvWaitRegister? || e.EvWaitCancel? || e.EvWaitReturn?
  }

  lemma DeviceJob(s: State, e: Event) returns (w: Work)
    requires Enabled(s, e)
    requires e.EvOnData? || e.EvReadError? || e.EvPromptTimer? || e.EvAuthTimer? || e.EvTick?
    ensures Did(s, Step(s, e), w) && (w.BeginEnd? ==> w.a.tx.id !in s.used)
  {
    w := Nothing;
    match e {
      case EvOnData(now) => w := OnDataJob(s, now);
      case EvReadError(stream, now) => w := ReadErrorJob(s, stream, now);
      case EvTick(now) => w := TickJob(s, now);
      case _ => TimerStepQuiet(s, e);
    }
  }

  lemma TimerStepQuiet(s: State, e: Event)
    requires Enabled(s, e) && (e.EvPromptTimer? || e.EvAuthTimer?)
    ensures Quiet(s, Step(s, e))
  {
    match e {
      case EvPromptTimer(gen) => PromptTimerQuiet(s, gen);
      case EvAuthTimer(gen) => AuthTimerQuiet(s, gen);
    }
  }

  lemma PromptTimerQuiet(s: State, gen: nat)
    ensures Quiet(s, ConfirmShellPrompt(s.(promptTimers := s.promptTimers - {gen}), gen))
  {
  }

  lemma AuthTimerQuiet(s: State, gen: nat)
    ensures Quiet(s, RetryAuth(s.(authTimers := s.authTimers - {gen}), gen))
  {
  }

  lemma OperationJob(s: State, e: Event) returns (w: Work)
    requires Enabled(s, e)
    requires e.EvStart? || e.EvRetry? || e.EvStop? || e.EvTakeover? || e.EvApprove? || e.EvDiagnose?
    ensures Did(s, Step(s, e), w) && (w.BeginEnd? ==> w.a.tx.id !in s.used)
  {
    w := Nothing;
    match e {
      case EvStart(stream, cfg, opener, auth, sid) => StartQuiet(s, stream, cfg, opener, auth, sid);
      case EvRetry(stream, auth, sid) => RetryQuiet(s, stream, auth, sid);
      case EvStop(now) => w := StopJob(s, now);
      case EvTakeover(now) =>
        if s.act.Some? {
          w := End(s.act.value, Command.InterruptedByUser, None, now);
          SettleJob(s, s.act.value, Command.InterruptedByUser, now);
        }
      case EvApprove(pid, now, txId, nonce, ok) =>
        if CanStart(s) {
          w := ApproveJob(s, pid, now, txId, nonce, ok);
        }
      case EvDiagnose(session, text, timeout, created, now, pid, txId, nonce, ok) =>
        w := DiagnoseJob(s, session, text, timeout, created, now, pid, txId, nonce, ok);
    }
  }

  /** Every such step does one of the four kinds of work. */
  lemma StepJob(s: State, e: Event) returns (w: Work)
    requires Enabled(s, e) && !Reads(e)
    ensures Did(s, Step(s, e), w) && (w.BeginEnd? ==> w.a.tx.id !in s.used)
  {
    w := Nothing;
    if e.EvOnData? || e.EvReadError? || e.EvPromptTimer? || e.EvAuthTimer? || e.EvTick? {
      w := DeviceJob(s, e);
    } else if e.EvStart? || e.EvRetry? || e.EvStop? || e.EvTakeover? || e.EvApprove? || e.EvDiagnose? {
      w := OperationJob(s, e);
    } else if e.EvPropose? || e.EvEdit? || e.EvReject? {
      ProposalQuiet(s, e);
    } else {
      HumanQuiet(s, e);
    }
  }
}
