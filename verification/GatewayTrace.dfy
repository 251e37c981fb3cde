/** What every run of the coordinator guarantees about its trace of actions. */
module GatewayTrace {
  import opened Basics
  import opened Gateway
  import GatewayControl
  import GatewayLedger
  import Command
  import ManagedCommand
  import Marker
  import Protocol
  import Session

  /** A fact about trails. */
  type Fact = Protocol.Trail -> bool

  /** A fact that observing one more action does not undo. Every section keeps every such fact, since
      all it does to a trail is to observe actions. */
  ghost predicate Closed(p: Fact) {
    forall t, o :: p(t) ==> p(Protocol.See(t, o))
  }

  lemma Seen(t: Protocol.Trail, p: Fact, o: Protocol.Obs)
    requires Closed(p) && p(t)
    ensures p(Protocol.See(t, o))
  {
  }

  lemma FinishTrue(s: State, p: Fact, status: Command.Status, now: int)
    requires Closed(p) && p(s.trail)
    ensures p(Finish(s, status, now).trail)
  {
    if s.act.Some? {
      Seen(s.trail, p, Protocol.Finished(s.act.value.tx.id, status, now));
    }
  }

  lemma InstallTrue(s: State, p: Fact, stream: StreamId, e: Session.Event, newSid: Id, auth: bool)
    requires Closed(p) && p(s.trail)
    ensures p(BeginAuthentication(InstallStream(s, stream, e, newSid), auth).trail)
  {
    Seen(s.trail, p, Protocol.Opened(newSid, s.cfg));
  }

  lemma StartTransactionTrue(s: State, p: Fact, tx: Command.Transaction, nonce: Bytes, now: int, ok: bool)
    requires Closed(p) && p(s.trail)
    ensures p(StartTransaction(s, tx, nonce, now, ok).trail)
  {
    var a := ActiveFor(s, tx, nonce, now);
    LaunchTrue(s, p, a);
    if !ok {
      SettleTrue(Launch(s, a), p, a, Command.Disconnected, now);
    }
  }

  lemma LaunchTrue(s: State, p: Fact, a: Active)
    requires Closed(p) && p(s.trail)
    ensures p(Launch(s, a).trail)
  {
    Seen(s.trail, p, Protocol.CommandLine(a.tx, a.marker, CommandText(a.tx, a.marker), a.deadline));
  }

  lemma SettleTrue(s: State, p: Fact, a: Active, status: Command.Status, now: int)
    requires Closed(p) && p(s.trail)
    ensures p(FinishAndSettle(s, a, status, now).trail)
  {
    Seen(s.trail, p, Protocol.Finished(a.tx.id, status, now));
  }

  lemma ApproveTrue(s: State, p: Fact, pid: Id, now: int, txId: Id, nonce: Bytes, ok: bool)
    requires Closed(p) && p(s.trail)
    ensures p(ApproveAndStart(s, pid, now, txId, nonce, ok).trail)
  {
    if Command.Approvable(s.records, pid, now) {
      var tx := Command.TransactionOf(s.records.proposals[pid], txId, now);
      StartTransactionTrue(s.(records := Command.ApprovedIn(s.records, pid, now, txId), used := s.used + {txId}),
        p, tx, nonce, now, ok);
    }
  }

  lemma AnswerTrue(s: State, p: Fact)
    requires Closed(p) && p(s.trail)
    ensures p(AnswerLogin(s).trail)
  {
    if s.stream.Some? {
      Seen(s.trail, p, Protocol.UsernameSent(s.lineTail));
    }
  }

  lemma AuthenticatingTrue(s: State, p: Fact)
    requires Closed(p) && p(s.trail)
    ensures p(HandleAuthenticating(s).trail)
  {
    if !s.usernameSent && Protocol.Matches(s.cfg.loginPrompt, s.lineTail) {
      AnswerTrue(s, p);
    }
  }

  lemma MarkerTrue(s: State, p: Fact, now: int)
    requires Closed(p) && p(s.trail)
    ensures p(HandleMarker(s, now).trail)
  {
    if s.act.Some? {
      Seen(s.trail, p, Protocol.Finished(s.act.value.tx.id, Command.Completed, now));
      var window := Transcript.ReadLog(s.log, RING_CAPACITY, s.act.value.startSeq, MARKER_SCAN);
      match Marker.Search(s.act.value.marker, window.data) {
        case None =>
        case Some(code) =>
      }
    }
  }

  lemma RebootTrue(s: State, p: Fact, now: int)
    requires Closed(p) && p(s.trail)
    ensures p(RespondToReboot(s, now).trail)
  {
    Seen(s.trail, p, Protocol.RebootPrompt(s.lineTail));
    var f := Finish(NoteRebootPrompt(s), Command.TargetRebooted, now);
    FinishTrue(NoteRebootPrompt(s), p, Command.TargetRebooted, now);
    Seen(f.trail, p, Protocol.Rebooted);
    AuthenticatingTrue(EnterReboot(f), p);
  }

  lemma ProgressTrue(s: State, p: Fact, now: int)
    requires Closed(p) && p(s.trail)
    ensures p(Progress(s, now).trail)
  {
    if s.sess.state == Session.Authenticating {
      AuthenticatingTrue(s, p);
    } else if s.sess.state == Session.RunningCommand {
      MarkerTrue(s, p, now);
    }
  }

  lemma RespondTrue(s: State, p: Fact, now: int)
    requires Closed(p) && p(s.trail)
    ensures p(Respond(s, now).trail)
  {
    if RebootConfirmed(s) {
      RebootTrue(s, p, now);
    } else if !s.secret && SecretPromptMatches(s.cfg, s.lineTail) {
      Seen(s.trail, p, Protocol.SecretOpened(now + s.cfg.secretGracePeriod));
    } else if !s.secret {
      ProgressTrue(s, p, now);
    }
  }

  lemma ArrivalTrue(s: State, p: Fact, chunk: Bytes)
    requires Closed(p) && p(s.trail)
    ensures p(NoteArrival(s, chunk).trail)
  {
    if ShowsBanner(s, chunk) {
      Seen(s.trail, p, Protocol.BannerSeen(s.sess.state, s.lineTail + chunk));
    }
  }

  lemma NudgeTrue(s: State, p: Fact)
    requires Closed(p) && p(s.trail)
    ensures p(Nudge(s).trail)
  {
    Seen(s.trail, p, Protocol.Nudged(s.sess.state, s.lineTail));
  }

  lemma RetryAuthTrue(s: State, p: Fact, gen: nat)
    requires Closed(p) && p(s.trail)
    ensures p(RetryAuth(s, gen).trail)
  {
    if gen == s.authGen && s.sess.state == Session.Authenticating && s.stream.Some? && !s.secret {
      if Protocol.Matches(s.cfg.shellPrompt, s.lineTail) {
        ArmAuthTrail(s);
      } else {
        NudgeTrue(s, p);
        ArmAuthTrail(Nudge(s));
      }
    }
  }

  lemma ArmAuthTrail(s: State)
    ensures ArmAuthRetry(s).trail == s.trail
  {
  }

  lemma InterruptTrue(s: State, p: Fact)
    requires Closed(p) && p(s.trail)
    ensures p(InterruptTarget(s).trail)
  {
    if s.stream.Some? {
      Seen(s.trail, p, Protocol.Interrupted);
    }
  }

  lemma ExpireTrue(s: State, p: Fact, a: Active, now: int)
    requires Closed(p) && p(s.trail)
    ensures p(ExpireActive(s, a, now).trail)
  {
    Seen(s.trail, p, Protocol.Finished(a.tx.id, Command.Timeout, now));
  }

  lemma TickTrue(s: State, p: Fact, now: int)
    requires Closed(p) && p(s.trail)
    ensures p(CheckTimeout(s, now).trail)
  {
    if s.act.Some? && now >= s.act.value.deadline {
      InterruptTrue(s, p);
      var x := ExpireActive(InterruptTarget(s), s.act.value, now);
      ExpireTrue(InterruptTarget(s), p, s.act.value, now);
      HangUpTrue(x, p);
    }
  }

  lemma HangUpTrue(s: State, p: Fact)
    requires Closed(p) && p(s.trail)
    ensures p(HangUp(s).trail)
  {
    if s.stream.Some? {
      Seen(s.trail, p, Protocol.HungUp);
    }
  }

  lemma StartTrue(s: State, p: Fact, stream: StreamId, cfg: Protocol.LoginConfig, opener: bool, auth: bool, newSid: Id)
    requires Closed(p) && p(s.trail)
    ensures p(Start(s, stream, cfg, opener, auth, newSid).trail)
  {
    if s.stream == None {
      InstallTrue(s.(sess := Abandoned(s.sess), cfg := cfg, opener := opener), p, stream, Session.Connect, newSid, auth);
    }
  }

  lemma RetryTrue(s: State, p: Fact, stream: StreamId, auth: bool, newSid: Id)
    requires Closed(p) && p(s.trail)
    ensures p(Retry(s, stream, auth, newSid).trail)
  {
    if s.sess.state == Session.Reconnecting {
      InstallTrue(s, p, stream, Session.HumanRetry, newSid, auth);
    }
  }

  lemma EndSecretTrue(s: State, p: Fact)
    requires Closed(p) && p(s.trail)
    ensures p(EndSecret(s).trail)
  {
    if s.sess.state == Session.Authenticating {
      Seen(s.trail, p, Protocol.SecretEnded(true));
    } else {
      Seen(s.trail, p, Protocol.SecretEnded(false));
    }
  }

  lemma StopTrue(s: State, p: Fact, now: int)
    requires Closed(p) && p(s.trail)
    ensures p(Stop(s, now).trail)
  {
    var f := Finish(s, Command.DaemonRestarted, now);
    FinishTrue(s, p, Command.DaemonRestarted, now);
    HangUpTrue(f, p);
    Seen(HangUp(f).trail, p, Protocol.Stopped);
  }

  lemma ReadErrorTrue(s: State, p: Fact, stream: StreamId, now: int)
    requires Closed(p) && p(s.trail)
    ensures p(OnReadError(s, stream, now).trail)
  {
    if s.stream == Some(stream) {
      FinishTrue(s, p, Command.Disconnected, now);
      Seen(Finish(s, Command.Disconnected, now).trail, p, Protocol.Lost);
    }
  }

  lemma PromptTrue(s: State, p: Fact, gen: nat)
    requires Closed(p) && p(s.trail)
    ensures p(ConfirmShellPrompt(s, gen).trail)
  {
    if gen == s.promptGen && Protocol.Matches(s.cfg.shellPrompt, s.lineTail) {
      Seen(s.trail, p, Protocol.PromptConfirmed(s.lineTail));
    }
  }

  lemma TakeoverTrue(s: State, p: Fact, now: int)
    requires Closed(p) && p(s.trail)
    ensures p(Takeover(s, now).trail)
  {
    if s.act.Some? {
      Seen(s.trail, p, Protocol.Finished(s.act.value.tx.id, Command.InterruptedByUser, now));
    }
  }

  lemma BeginSecretTrue(s: State, p: Fact, now: int)
    requires Closed(p) && p(s.trail)
    ensures p(BeginSecret(s, now).trail)
  {
    Seen(s.trail, p, Protocol.SecretOpened(now + s.cfg.secretGracePeriod));
  }

  lemma HumanTrue(s: State, p: Fact, e: Event)
    requires Closed(p) && p(s.trail) && Enabled(s, e)
    requires e.EvStart? || e.EvRetry? || e.EvBeginSecret? || e.EvEndSecret? || e.EvStop? || e.EvTakeover?
    ensures p(Step(s, e).trail)
  {
    match e {
      case EvStart(stream, cfg, opener, auth, newSid) => StartTrue(s, p, stream, cfg, opener, auth, newSid);
      case EvRetry(stream, auth, newSid) => RetryTrue(s, p, stream, auth, newSid);
      case EvBeginSecret(now) => BeginSecretTrue(s, p, now);
      case EvEndSecret => EndSecretTrue(s, p);
      case EvStop(now) => StopTrue(s, p, now);
      case EvTakeover(now) => TakeoverTrue(s, p, now);
    }
  }

  lemma OnDataTrue(s: State, p: Fact, now: int)
    requires Closed(p) && p(s.trail) && s.reader.Holding?
    ensures p(OnData(s.(reader := Reading), s.reader.raw, now).trail)
  {
    ArrivalTrue(s.(reader := Reading), p, s.reader.raw);
    RespondTrue(NoteArrival(s.(reader := Reading), s.reader.raw), p, now);
  }

  lemma DeviceTrue(s: State, p: Fact, e: Event)
    requires Closed(p) && p(s.trail) && Enabled(s, e)
    requires e.EvOnData? || e.EvReadError? || e.EvPromptTimer? || e.EvAuthTimer? || e.EvTick?
    ensures p(Step(s, e).trail)
  {
    match e {
      case EvOnData(now) => OnDataTrue(s, p, now);
      case EvReadError(stream, now) => ReadErrorTrue(s, p, stream, now);
      case EvPromptTimer(gen) => PromptTrue(s.(promptTimers := s.promptTimers - {gen}), p, gen);
      case EvAuthTimer(gen) => RetryAuthTrue(s.(authTimers := s.authTimers - {gen}), p, gen);
      case EvTick(now) => TickTrue(s, p, now);
    }
  }

  lemma RejectTrail(s: State, pid: Id)
    ensures Reject(s, pid).trail == s.trail
  {
  }

  lemma DiagnoseTrue(s: State, p: Fact, session: Id, text: Bytes, timeout: int, created: int, now: int, pid: Id, txId: Id, nonce: Bytes, ok: bool)
    requires Closed(p) && p(s.trail)
    ensures p(DiagnoseStart(s, session, text, timeout, created, now, pid, txId, nonce, ok).trail)
  {
    if CanStart(s) && session == s.sess.id && ManagedCommand.Managed(text) {
      var s1 := Propose(s, session, text, timeout, created, pid);
      ApproveTrue(s1, p, pid, now, txId, nonce, ok);
      DiagnoseTrail(s, session, text, timeout, created, now, pid, txId, nonce, ok);
    }
  }

  lemma DiagnoseTrail(s: State, session: Id, text: Bytes, timeout: int, created: int, now: int, pid: Id, txId: Id, nonce: Bytes, ok: bool)
    requires CanStart(s) && session == s.sess.id && ManagedCommand.Managed(text)
    ensures var s1 := Propose(s, session, text, timeout, created, pid);
      DiagnoseStart(s, session, text, timeout, created, now, pid, txId, nonce, ok).trail
      == ApproveAndStart(s1, pid, now, txId, nonce, ok).trail
  {
    var s1 := Propose(s, session, text, timeout, created, pid);
    RejectTrail(ApproveAndStart(s1, pid, now, txId, nonce, ok), pid);
  }

  lemma TransactionTrue(s: State, p: Fact, e: Event)
    requires Closed(p) && p(s.trail) && Enabled(s, e) && (e.EvApprove? || e.EvDiagnose?)
    ensures p(Step(s, e).trail)
  {
    match e {
      case EvApprove(pid, now, txId, nonce, ok) =>
        if CanStart(s) {
          ApproveTrue(s, p, pid, now, txId, nonce, ok);
        }
      case EvDiagnose(session, text, timeout, created, now, pid, txId, nonce, ok) =>
        DiagnoseTrue(s, p, session, text, timeout, created, now, pid, txId, nonce, ok);
    }
  }

  lemma StepTrue(s: State, p: Fact, e: Event)
    requires Closed(p) && p(s.trail) && Enabled(s, e)
    ensures p(Step(s, e).trail)
  {
    if e.EvStart? || e.EvRetry? || e.EvBeginSecret? || e.EvEndSecret? || e.EvStop? || e.EvTakeover? {
      HumanTrue(s, p, e);
    } else if e.EvOnData? || e.EvReadError? || e.EvPromptTimer? || e.EvAuthTimer? || e.EvTick? {
      DeviceTrue(s, p, e);
    } else if e.EvApprove? || e.EvDiagnose? {
      TransactionTrue(s, p, e);
    } else {
      SilentTrail(s, e);
    }
  }

  /** The other steps leave no trace. */
  lemma SilentTrail(s: State, e: Event)
    requires Enabled(s, e)
    requires e.EvPropose? || e.EvEdit? || e.EvReject? || e.EvConfirmReady? || e.EvShutdown? || e.EvReadChunk?
          || e.EvWaitRegister? || e.EvWaitCancel? || e.EvWaitReturn?
    ensures Step(s, e).trail == s.trail
  {
    if e.EvPropose? || e.EvEdit? || e.EvReject? {
      ProposalTrail(s, e);
    } else if e.EvWaitRegister? || e.EvWaitCancel? || e.EvWaitReturn? {
      CallTrail(s, e);
    } else if e.EvConfirmReady? {
      ReadyTrail(s);
    }
  }

  lemma CallTrail(s: State, e: Event)
    requires Enabled(s, e) && (e.EvWaitRegister? || e.EvWaitCancel? || e.EvWaitReturn?)
    ensures Step(s, e).trail == s.trail
  {
    match e {
      case EvWaitRegister(call, tx) => RegisterTrail(s, call, tx);
      case EvWaitCancel(_) =>
      case EvWaitReturn(_) =>
    }
  }

  lemma ProposalTrail(s: State, e: Event)
    requires Enabled(s, e) && (e.EvPropose? || e.EvEdit? || e.EvReject?)
    ensures Step(s, e).trail == s.trail
  {
    match e {
      case EvPropose(session, text, timeout, now, pid) => assert Propose(s, session, text, timeout, now, pid).trail == s.trail;
      case EvEdit(pid, text, now, next) => assert Edit(s, pid, text, now, next).trail == s.trail;
      case EvReject(pid) => RejectTrail(s, pid);
    }
  }

  lemma ReadyTrail(s: State)
    ensures ConfirmSessionReady(s).trail == s.trail
  {
  }

  lemma RegisterTrail(s: State, call: CallId, tx: Id)
    ensures WaitRegister(s, call, tx).trail == s.trail
  {
  }

  /** The recorded summary is that of the recorded trace, which continues the one of `since`. */
  ghost predicate Extends(t: Protocol.Trail, since: Protocol.Trail) {
    t.first == since.first && Protocol.Faithful(t) && since.trace <= t.trace
  }

  ghost function Extending(since: Protocol.Trail): Fact {
    t => Extends(t, since)
  }

  lemma ExtendingClosed(since: Protocol.Trail)
    ensures Closed(Extending(since))
  {
    forall t, o | Extending(since)(t)
      ensures Extending(since)(Protocol.See(t, o))
    {
      Protocol.SeeFaithful(t, o);
    }
  }

  lemma {:induction false} RunTrue(sid: Id, run: seq<Event>)
    requires Possible(sid, run)
    ensures Extends(After(sid, run).trail, Protocol.NewTrail(sid))
  {
    if run != [] {
      RunTrue(sid, run[..|run| - 1]);
      StepExtends(After(sid, run[..|run| - 1]), Protocol.NewTrail(sid), run[|run| - 1]);
    }
  }

  lemma StepExtends(s: State, since: Protocol.Trail, e: Event)
    requires Extends(s.trail, since) && Enabled(s, e)
    ensures Extends(Step(s, e).trail, since)
  {
    ExtendingClosed(since);
    StepTrue(s, Extending(since), e);
  }

  /** A run's trace only grows. */
  lemma {:induction false} RunExtends(sid: Id, run: seq<Event>, k: nat)
    requires Possible(sid, run) && k <= |run| && Possible(sid, run[..k])
    ensures Extends(After(sid, run).trail, After(sid, run[..k]).trail)
    decreases |run|
  {
    if k == |run| {
      RunTrue(sid, run);
      WholePrefix(run);
    } else {
      var n := |run| - 1;
      assert run[..n][..k] == run[..k];
      RunExtends(sid, run[..n], k);
      StepExtends(After(sid, run[..n]), After(sid, run[..k]).trail, run[n]);
    }
  }

  /** The trace of a run. */
  ghost function Trace(sid: Id, run: seq<Event>): seq<Protocol.Obs>
    requires Possible(sid, run)
  {
    After(sid, run).trail.trace
  }

  /** Refinement: every run's trace is allowed throughout, and the observer's summary of it is
      the coordinator's own state. */
  lemma RunRefinesProtocol(sid: Id, run: seq<Event>)
    requires Possible(sid, run)
    ensures Protocol.Lawful(sid, Trace(sid, run))
    ensures var s, v := After(sid, run), Protocol.Replay(sid, Trace(sid, run)).view;
      && v == Protocol.View(s.stream.Some?, v.sids, s.sess.id, s.cfg, s.secret, s.resyncPending, s.rebootSuspect, false,
           s.authRetries, s.records.transactions, GatewayControl.ActiveLine(s), v.due)
      && (s.act.Some? ==> v.due == s.act.value.deadline)
  {
    RunTrue(sid, run);
    GatewayControl.RunControl(sid, run);
  }

  /** The guarantees of the observer's protocol, for every run. */
  lemma RunGuarantees(sid: Id, run: seq<Event>, i: nat, j: nat)
    requires Possible(sid, run) && i < j < |Trace(sid, run)|
    ensures var t := Trace(sid, run);
      && (t[i].Finished? && t[i].status == Command.Timeout && t[j].CommandLine? ==>
            Protocol.Between(t, i + 1, j, Protocol.Resyncs))
      && (t[i].CommandLine? && t[j].CommandLine? ==>
            t[i].job.id != t[j].job.id && Protocol.Between(t, i + 1, j, Protocol.Finishes(t[i].job.id)))
      && (t[i].Finished? && t[j].Finished? ==> t[i].tx != t[j].tx)
      && (t[i].SecretOpened? && (t[j].CommandLine? || t[j].UsernameSent? || t[j].Nudged?) ==>
            Protocol.Between(t, i + 1, j, Protocol.ClosesSecret))
      && (t[i].Opened? && t[j].Opened? ==>
            t[i].sid != t[j].sid && Protocol.Between(t, i + 1, j, Protocol.IsLost))
  {
    RunRefinesProtocol(sid, run);
    var t := Trace(sid, run);
    if t[i].Finished? && t[i].status == Command.Timeout && t[j].CommandLine? {
      Protocol.TimeoutThenResync(sid, t, i, j);
    }
    if t[i].CommandLine? && t[j].CommandLine? {
      Protocol.WrittenOnce(sid, t, i, j);
      Protocol.CommandLinesSerial(sid, t, i, j);
    }
    if t[i].Finished? && t[j].Finished? {
      Protocol.FinishedOnce(sid, t, i, j);
    }
    if t[i].SecretOpened? && (t[j].CommandLine? || t[j].UsernameSent? || t[j].Nudged?) {
      Protocol.SilentWhileSecret(sid, t, i, j);
    }
    if t[i].Opened? && t[j].Opened? {
      Protocol.SessionsDistinct(sid, t, i, j);
    }
  }

  /** What the observer had summed up when the run stood at `k` is the coordinator's state then. */
  lemma SummaryAt(sid: Id, run: seq<Event>, k: nat)
    requires Possible(sid, run) && k <= |run| && Possible(sid, run[..k])
    ensures |Trace(sid, run[..k])| <= |Trace(sid, run)|
    ensures var v := Protocol.ViewAt(sid, Trace(sid, run), |Trace(sid, run[..k])|);
      v.secret == After(sid, run[..k]).secret && v.sid == After(sid, run[..k]).sess.id
      && v.resync == After(sid, run[..k]).resyncPending && v.started == After(sid, run[..k]).records.transactions
  {
    RunExtends(sid, run, k);
    RunTrue(sid, run[..k]);
    GatewayControl.RunControl(sid, run[..k]);
    assert Trace(sid, run)[..|Trace(sid, run[..k])|] == Trace(sid, run[..k]);
  }

  /** A window open at `k` is still open after the run unless, since then, a shell prompt was
      confirmed, the human ended it or a reboot was confirmed. */
  lemma RunSecretPersists(sid: Id, run: seq<Event>, k: nat)
    requires Possible(sid, run) && k <= |run| && Possible(sid, run[..k]) && After(sid, run[..k]).secret
    ensures var t := Trace(sid, run);
      |Trace(sid, run[..k])| <= |t|
      && (After(sid, run).secret || Protocol.Between(t, |Trace(sid, run[..k])|, |t|, Protocol.ClosesSecret))
  {
    var t := Trace(sid, run);
    SummaryAt(sid, run, k);
    WholePrefix(run);
    SummaryAt(sid, run, |run|);
    if !Protocol.Between(t, |Trace(sid, run[..k])|, |t|, Protocol.ClosesSecret) {
      Protocol.SecretPersists(sid, t, |Trace(sid, run[..k])|, |t|);
    }
  }

  /** What the observer has summed up of the whole run is the coordinator's state. */
  lemma SummaryNow(sid: Id, run: seq<Event>)
    requires Possible(sid, run)
    ensures var v := Protocol.ViewAt(sid, Trace(sid, run), |Trace(sid, run)|);
      && v.secret == After(sid, run).secret && v.resync == After(sid, run).resyncPending
      && v.started == After(sid, run).records.transactions
  {
    WholePrefix(run);
    SummaryAt(sid, run, |run|);
  }

  /** The AI stays disabled from a timeout on until a resynchronising action, ... */
  lemma RunAIDisabledAfterTimeout(sid: Id, run: seq<Event>, i: nat)
    requires Possible(sid, run) && i < |Trace(sid, run)| && AIEnabled(After(sid, run))
    requires Trace(sid, run)[i].Finished? && Trace(sid, run)[i].status == Command.Timeout
    ensures Protocol.Between(Trace(sid, run), i + 1, |Trace(sid, run)|, Protocol.Resyncs)
  {
    SummaryNow(sid, run);
    Protocol.TimeoutStands(sid, Trace(sid, run), i);
  }

  /** ... and while a window is open. */
  lemma RunAIDisabledWhileSecret(sid: Id, run: seq<Event>, i: nat)
    requires Possible(sid, run) && i < |Trace(sid, run)| && AIEnabled(After(sid, run))
    requires Trace(sid, run)[i].SecretOpened?
    ensures Protocol.Between(Trace(sid, run), i + 1, |Trace(sid, run)|, Protocol.ClosesSecret)
  {
    SummaryNow(sid, run);
    Protocol.WindowStands(sid, Trace(sid, run), i);
  }

  /** A command runs only when no resynchronisation is pending. */
  lemma RunActiveNotResync(sid: Id, run: seq<Event>)
    requires Possible(sid, run) && After(sid, run).act.Some?
    ensures !After(sid, run).resyncPending
  {
    var t := Trace(sid, run);
    RunRefinesProtocol(sid, run);
    WholePrefix(t);
    Protocol.RunningNotResync(sid, t, |t|);
  }

  /** The session identifier of `k` still stands after the run unless a stream was opened since. */
  lemma RunSidStable(sid: Id, run: seq<Event>, k: nat)
    requires Possible(sid, run) && k <= |run| && Possible(sid, run[..k])
    ensures var t := Trace(sid, run);
      |Trace(sid, run[..k])| <= |t|
      && (After(sid, run).sess.id == After(sid, run[..k]).sess.id
          || Protocol.Between(t, |Trace(sid, run[..k])|, |t|, Protocol.IsOpened))
  {
    var t := Trace(sid, run);
    SummaryAt(sid, run, k);
    WholePrefix(run);
    SummaryAt(sid, run, |run|);
    if !Protocol.Between(t, |Trace(sid, run[..k])|, |t|, Protocol.IsOpened) {
      Protocol.SidStable(sid, t, |Trace(sid, run[..k])|, |t|);
    }
  }

  /** In every run: after a timeout on a stream with no shell prompt to recognise, only a confirmed
      reboot or a new stream lets another command line be written ... */
  lemma RunPromptlessTimeout(sid: Id, run: seq<Event>, i: nat, j: nat)
    requires Possible(sid, run) && i < j < |Trace(sid, run)|
    requires var t := Trace(sid, run);
      && t[i].Finished? && t[i].status == Command.Timeout && t[j].CommandLine?
      && Protocol.ViewAt(sid, t, i).cfg.shellPrompt == None
    ensures Protocol.Between(Trace(sid, run), i + 1, j, Protocol.Restarts)
  {
    RunRefinesProtocol(sid, run);
    Protocol.PromptlessTimeout(sid, Trace(sid, run), i, j);
  }

  /** ... and the stream is closed in the very step that records the timeout. */
  lemma TimeoutHangsUp(s: State, now: int)
    requires s.act.Some? && s.act.value.deadline <= now && s.stream.Some? && s.cfg.shellPrompt == None
    ensures CheckTimeout(s, now).trail.trace == s.trail.trace
      + [Protocol.Interrupted] + [Protocol.Finished(s.act.value.tx.id, Command.Timeout, now)] + [Protocol.HungUp]
  {
  }

  /** Between two counter resets no run writes more than the configured number of newlines, each of
      them while authenticating with no shell prompt on the line. */
  lemma RunNudgesBounded(sid: Id, run: seq<Event>, i: nat, j: nat)
    requires Possible(sid, run) && i <= j <= |Trace(sid, run)|
    requires !Protocol.Between(Trace(sid, run), i, j, Protocol.ResetsNudges)
    ensures Protocol.CountNudges(Trace(sid, run), i, j)
         <= Protocol.AuthRetryLimit(Protocol.ViewAt(sid, Trace(sid, run), i).cfg)
    ensures var t := Trace(sid, run);
      forall n :: i <= n < j && t[n].Nudged? ==>
        t[n].state == Session.Authenticating
        && !Protocol.Matches(Protocol.ViewAt(sid, t, i).cfg.shellPrompt, t[n].tail)
  {
    RunRefinesProtocol(sid, run);
    Protocol.NudgesBounded(sid, Trace(sid, run), i, j);
  }

  /** In every run: each target-rebooted result directly follows a login or password prompt, seen on a
      stream that showed a boot banner while ready or running, with nothing in between to refute it;
      and a reboot is acted upon directly after such a prompt, or such a prompt and the result. */
  lemma RunRebootEvidence(sid: Id, run: seq<Event>, j: nat) returns (i: nat, k: nat)
    requires Possible(sid, run) && j < |Trace(sid, run)|
    requires Trace(sid, run)[j].Rebooted? || Protocol.RebootResult(Trace(sid, run)[j])
    ensures var t := Trace(sid, run);
      && i < k < j && Protocol.BannerAt(sid, t, i) && Protocol.PromptAt(sid, t, k)
      && !Protocol.Between(t, i + 1, k, Protocol.RefutesReboot)
      && (k + 1 == j || (t[j].Rebooted? && k + 2 == j && Protocol.RebootResult(t[k + 1])))
  {
    RunRefinesProtocol(sid, run);
    i, k := Protocol.RebootHasEvidence(sid, Trace(sid, run), j);
  }

  /** In every run a timeout comes no earlier than the deadline that stood. */
  lemma RunTimeoutNotEarly(sid: Id, run: seq<Event>, j: nat) returns (n: nat, i: nat)
    requires Possible(sid, run) && j < |Trace(sid, run)|
    requires Trace(sid, run)[j].Finished? && Trace(sid, run)[j].status == Command.Timeout
    ensures var t := Trace(sid, run);
      && n <= i < j && t[n].CommandLine? && t[n].job.id == t[j].tx
      && (i == n || t[i].SecretOpened?) && t[i].due <= t[j].at
      && !Protocol.Between(t, i + 1, j, Protocol.SetsDue)
  {
    RunRefinesProtocol(sid, run);
    n, i := Protocol.TimeoutNotEarly(sid, Trace(sid, run), j);
  }

  /** The line of an approved proposal's transaction `job`: its text, its own marker's suffix and one line
      feed, due its timeout after approval. */
  ghost predicate ApprovedLine(r: Command.Records, o: Protocol.Obs)
    requires o.CommandLine?
  {
    && LineOnRecord(r, o)
    && o.job.sourceProposalId in r.proposals
    && var source := r.proposals[o.job.sourceProposalId];
       source.state == Command.Approved && source.text == o.job.text && source.sessionId == o.job.sessionId
  }

  /** In every run each command line ever written, in vain or not, finished or not, is that of a recorded
      transaction, and its text is the approved text of that transaction's proposal. */
  lemma RunWritesApprovedText(sid: Id, run: seq<Event>, i: nat)
    requires Possible(sid, run) && i < |Trace(sid, run)| && Trace(sid, run)[i].CommandLine?
    ensures ApprovedLine(After(sid, run).records, Trace(sid, run)[i])
  {
    WrittenOnRecord(sid, run, i);
    GatewayLedger.RunConserved(sid, run);
    OnRecordApproved(After(sid, run).records, Trace(sid, run)[i]);
  }

  ghost predicate LineOnRecord(r: Command.Records, o: Protocol.Obs)
    requires o.CommandLine?
  {
    && o.job.id in r.transactions && r.transactions[o.job.id] == o.job
    && o.marker.transactionId == o.job.id && Marker.Good(o.marker)
    && o.line == o.job.text + Marker.ShellSuffix(o.marker) + "\n"
    && o.due == o.job.approvedAt + o.job.timeout
  }

  lemma WrittenOnRecord(sid: Id, run: seq<Event>, i: nat)
    requires Possible(sid, run) && i < |Trace(sid, run)| && Trace(sid, run)[i].CommandLine?
    ensures LineOnRecord(After(sid, run).records, Trace(sid, run)[i])
  {
    var t := Trace(sid, run);
    RunRefinesProtocol(sid, run);
    Protocol.LawfulAt(sid, t, i);
    Protocol.LineStands(sid, t, i, |t|);
    SummaryNow(sid, run);
  }

  lemma OnRecordApproved(r: Command.Records, o: Protocol.Obs)
    requires Command.Ledger(r) && o.CommandLine? && LineOnRecord(r, o)
    ensures ApprovedLine(r, o)
  {
    SourceApproved(r, o.job.id);
  }

  lemma SourceApproved(r: Command.Records, t: Id)
    requires Command.Ledger(r) && t in r.transactions
    ensures var tx := r.transactions[t];
      && tx.sourceProposalId in r.proposals
      && var source := r.proposals[tx.sourceProposalId];
         source.state == Command.Approved && source.text == tx.text && source.sessionId == tx.sessionId
  {
    assert Command.Snapshot(r, t);
  }

  /** The line of the active transaction is the last one written, and unanswered. */
  lemma RunActiveLine(sid: Id, run: seq<Event>) returns (i: nat)
    requires Possible(sid, run) && After(sid, run).act.Some?
    ensures var a, t := After(sid, run).act.value, Trace(sid, run);
      && i < |t| && t[i].CommandLine? && t[i].job.id == a.tx.id && t[i].line == CommandText(a.tx, a.marker)
      && !Protocol.Between(t, i + 1, |t|, Protocol.Finishes(a.tx.id)) && !Protocol.Between(t, i + 1, |t|, Protocol.IsLine)
  {
    RunRefinesProtocol(sid, run);
    WholePrefix(Trace(sid, run));
    i := Protocol.RunningWasWritten(sid, Trace(sid, run), |Trace(sid, run)|);
  }

  /** No transaction is ever forgotten or changed in a continuation of the run. */
  lemma RunKeepsTransactions(sid: Id, run: seq<Event>, k: nat)
    requires Possible(sid, run) && k <= |run| && Possible(sid, run[..k])
    ensures Protocol.Continued(After(sid, run[..k]).records.transactions, After(sid, run).records.transactions)
  {
    var t := Trace(sid, run);
    RunRefinesProtocol(sid, run);
    SummaryAt(sid, run, k);
    SummaryNow(sid, run);
    Protocol.StartedKept(sid, t, |Trace(sid, run[..k])|, |t|);
  }
}
