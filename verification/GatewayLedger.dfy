/** Conservation: no transaction the coordinator starts is lost, run twice or given two results. */
module GatewayLedger {
  import opened Basics
  import opened Gateway
  import Command
  import ManagedCommand
  import Marker
  import Protocol

  ghost predicate ActiveOk(r: Command.Records, a: Active) {
    && a.tx.id in r.transactions
    && r.transactions[a.tx.id] == a.tx
    && a.tx.id !in r.results
    && a.marker.transactionId == a.tx.id
    && Marker.Good(a.marker)
  }

  function ActiveIds(act: Option<Active>): set<Id> {
    if act.Some? then {act.value.tx.id} else {}
  }

  /** Approved proposals and transactions are in bijection with equal text, and the transactions
      are exactly the disjoint union of those with one stored result and the active one. */
  ghost predicate Conserved(r: Command.Records, act: Option<Active>) {
    && Command.Ledger(r)
    && (act.Some? ==> ActiveOk(r, act.value))
    && r.transactions.Keys == r.results.Keys + ActiveIds(act)
  }

  ghost predicate Books(s: State) {
    && Conserved(s.records, s.act)
    && s.records.proposals.Keys <= s.used
    && s.records.transactions.Keys <= s.used
  }

  lemma Untouched(s: State, s': State)
    requires Books(s) && s'.records == s.records && SameAct(s.act, s'.act) && s.used <= s'.used
    ensures Books(s')
  {
  }

  lemma FinishConserved(r: Command.Records, a: Active, res: Command.Result)
    requires Conserved(r, Some(a)) && res.transactionId == a.tx.id
    ensures Conserved(Command.CompletedIn(r, res), None)
  {
    Command.LedgerComplete(r, res);
  }

  lemma FinishBooks(s: State, a: Active, status: Command.Status, exitCode: Option<int>, now: int)
    requires Books(s) && s.act == Some(a)
    ensures Books(FinishActive(s, a, status, exitCode, now))
  {
    FinishConserved(s.records, a, ResultOf(s, a, status, exitCode, now));
  }

  lemma FinishAnyBooks(s: State, status: Command.Status, now: int)
    requires Books(s)
    ensures Books(Finish(s, status, now))
  {
    if s.act.Some? {
      FinishBooks(s, s.act.value, status, None, now);
    }
  }

  lemma ProposalsConserved(r: Command.Records, r': Command.Records, act: Option<Active>)
    requires Conserved(r, act) && Command.Ledger(r')
    requires r'.transactions == r.transactions && r'.results == r.results
    ensures Conserved(r', act)
  {
  }

  lemma InvalidateBooks(s: State, s': State)
    requires Books(s) && s'.act == s.act && s'.used == s.used
    requires s'.records == Command.Invalidated(s.records, s.sess.id)
    ensures Books(s')
  {
    Command.LedgerInvalidate(s.records, s.sess.id);
    ProposalsConserved(s.records, s'.records, s.act);
  }

  /** Proposals changed, under the identifiers minted at most. */
  lemma InUse(s: State, t: State, minted: set<Id>)
    requires Books(s) && Conserved(t.records, t.act) && t.records.transactions == s.records.transactions
    requires t.records.proposals.Keys <= s.records.proposals.Keys + minted && t.used == s.used + minted
    ensures Books(t)
  {
  }

  lemma ProposeBooks(s: State, session: Id, text: Bytes, timeout: int, now: int, pid: Id)
    requires Books(s) && pid !in s.used
    ensures Books(Propose(s, session, text, timeout, now, pid))
  {
    var t := Propose(s, session, text, timeout, now, pid);
    Command.LedgerPropose(s.records, pid, session, text, timeout, now);
    ProposalsConserved(s.records, t.records, s.act);
    InUse(s, t, {pid});
  }

  lemma EditBooks(s: State, pid: Id, text: Bytes, now: int, next: Id)
    requires Books(s) && next !in s.used
    ensures Books(Edit(s, pid, text, now, next))
  {
    var t := Edit(s, pid, text, now, next);
    Command.LedgerEdit(s.records, pid, text, now, next);
    ProposalsConserved(s.records, t.records, s.act);
    InUse(s, t, {next});
  }

  lemma RejectBooks(s: State, pid: Id)
    requires Books(s)
    ensures Books(Reject(s, pid))
  {
    Command.LedgerReject(s.records, pid);
    ProposalsConserved(s.records, Reject(s, pid).records, s.act);
    SameKeys(s, Reject(s, pid));
  }

  lemma SameKeys(s: State, t: State)
    requires Books(s) && Conserved(t.records, t.act) && t.records.transactions == s.records.transactions
    requires t.records.proposals.Keys == s.records.proposals.Keys && t.used == s.used
    ensures Books(t)
  {
  }

  lemma ApproveConserved(r: Command.Records, pid: Id, now: int, txId: Id, a: Active)
    requires Conserved(r, None) && Command.Approvable(r, pid, now) && txId !in r.transactions
    requires a.tx == Command.TransactionOf(r.proposals[pid], txId, now)
    requires a.marker.transactionId == txId && Marker.Good(a.marker)
    ensures Conserved(Command.ApprovedIn(r, pid, now, txId), Some(a))
  {
    Command.LedgerApprove(r, pid, now, txId);
    assert txId !in r.results;
  }

  lemma ApproveAndStartBooks(s: State, pid: Id, now: int, txId: Id, nonce: Bytes, ok: bool)
    requires Books(s) && s.act == None && txId !in s.used && Marker.Good(Marker.Marker(txId, nonce))
    ensures Books(ApproveAndStart(s, pid, now, txId, nonce, ok))
  {
    if Command.Approvable(s.records, pid, now) {
      var tx := Command.TransactionOf(s.records.proposals[pid], txId, now);
      var s' := s.(records := Command.ApprovedIn(s.records, pid, now, txId), used := s.used + {txId});
      var a := ActiveFor(s', tx, nonce, now);
      ApproveConserved(s.records, pid, now, txId, a);
      var launched := Launch(s', a);
      assert launched.act == Some(a) && Books(launched);
      if !ok {
        FinishBooks(launched, a, Command.Disconnected, None, now);
      }
    } else {
      Command.LedgerApprove(s.records, pid, now, txId);
      ProposalsConserved(s.records, Command.ApprovedIn(s.records, pid, now, txId), s.act);
    }
  }

  lemma DiagnoseBooks(s: State, session: Id, text: Bytes, timeout: int, created: int, now: int, pid: Id, txId: Id, nonce: Bytes, ok: bool)
    requires Books(s) && pid !in s.used && txId !in s.used && pid != txId && Marker.Good(Marker.Marker(txId, nonce))
    ensures Books(DiagnoseStart(s, session, text, timeout, created, now, pid, txId, nonce, ok))
  {
    if CanStart(s) && session == s.sess.id && ManagedCommand.Managed(text) {
      var s1 := Propose(s, session, text, timeout, created, pid);
      ProposeBooks(s, session, text, timeout, created, pid);
      ApproveAndStartBooks(s1, pid, now, txId, nonce, ok);
      if !Command.Approvable(s1.records, pid, now) {
        RejectBooks(ApproveAndStart(s1, pid, now, txId, nonce, ok), pid);
      }
    }
  }

  lemma AuthenticatingBooks(s: State)
    requires Books(s)
    ensures Books(HandleAuthenticating(s))
  {
    Untouched(s, HandleAuthenticating(s));
  }

  lemma RebootBooks(s: State, now: int)
    requires Books(s)
    ensures Books(HandleTargetReboot(s, now))
  {
    FinishAnyBooks(s, Command.TargetRebooted, now);
    var f := Finish(s, Command.TargetRebooted, now);
    InvalidateBooks(f, EnterReboot(f));
  }

  lemma MarkerBooks(s: State, now: int)
    requires Books(s)
    ensures Books(HandleMarker(s, now))
  {
    if s.act.Some? {
      var window := Transcript.ReadLog(s.log, RING_CAPACITY, s.act.value.startSeq, MARKER_SCAN);
      var found := Marker.Search(s.act.value.marker, window.data);
      if found.Some? {
        CompletedBooks(s, s.act.value, found.value, now);
      }
    }
  }

  lemma CompletedBooks(s: State, a: Active, code: int, now: int)
    requires Books(s) && s.act == Some(a)
    ensures Books(Apply(FinishActive(s.(rebootSuspect := false), a, Command.Completed, Some(code), now), Session.CommandResult))
  {
    var f := FinishActive(s.(rebootSuspect := false), a, Command.Completed, Some(code), now);
    FinishBooks(s.(rebootSuspect := false), a, Command.Completed, Some(code), now);
    Untouched(f, Apply(f, Session.CommandResult));
  }

  lemma RespondToRebootBooks(s: State, now: int)
    requires Books(s)
    ensures Books(RespondToReboot(s, now))
  {
    var s0 := NoteRebootPrompt(s);
    Untouched(s, s0);
    RebootBooks(s0, now);
    AuthenticatingBooks(HandleTargetReboot(s0, now));
  }

  lemma ProgressBooks(s: State, now: int)
    requires Books(s)
    ensures Books(Progress(s, now))
  {
    if s.sess.state == Session.Authenticating {
      AuthenticatingBooks(s);
    } else if s.sess.state == Session.RunningCommand {
      MarkerBooks(s, now);
    }
  }

  lemma RespondBooks(s: State, now: int)
    requires Books(s)
    ensures Books(Respond(s, now))
  {
    if RebootConfirmed(s) {
      RespondToRebootBooks(s, now);
    } else if s.secret {
      Untouched(s, ArmPromptConfirm(s));
    } else if SecretPromptMatches(s.cfg, s.lineTail) {
      Untouched(s, OpenWindow(s, now));
    } else {
      var p := Progress(s, now);
      ProgressBooks(s, now);
      Untouched(p, ArmPromptConfirm(p));
    }
  }

  lemma ReadErrorBooks(s: State, stream: StreamId, now: int)
    requires Books(s)
    ensures Books(OnReadError(s, stream, now))
  {
    if s.stream == Some(stream) {
      FinishAnyBooks(s, Command.Disconnected, now);
      var f := Finish(s, Command.Disconnected, now);
      InvalidateBooks(f, EnterLoss(f));
    }
  }

  lemma StopBooks(s: State, now: int)
    requires Books(s)
    ensures Books(Stop(s, now))
  {
    var f := Finish(s, Command.DaemonRestarted, now);
    FinishAnyBooks(s, Command.DaemonRestarted, now);
    Untouched(f, Halt(f));
  }

  lemma ExpireBooks(s: State, a: Active, now: int)
    requires Books(s) && s.act == Some(a)
    ensures Books(ExpireActive(s, a, now))
  {
    FinishBooks(s, a, Command.Timeout, None, now);
    Untouched(FinishActive(s, a, Command.Timeout, None, now), ExpireActive(s, a, now));
  }

  lemma TickBooks(s: State, now: int)
    requires Books(s)
    ensures Books(CheckTimeout(s, now))
  {
    if s.act.Some? && now >= s.act.value.deadline {
      var s' := InterruptTarget(s);
      Untouched(s, s');
      ExpireBooks(s', s.act.value, now);
      Untouched(ExpireActive(s', s.act.value, now), CheckTimeout(s, now));
    }
  }

  lemma InstallBooks(s: State, stream: StreamId, e: Session.Event, auth: bool, sid: Id)
    requires Books(s)
    ensures Books(BeginAuthentication(InstallStream(s, stream, e, sid), auth))
  {
    Untouched(s, BeginAuthentication(InstallStream(s, stream, e, sid), auth));
  }

  lemma StartBooks(s: State, stream: StreamId, cfg: Protocol.LoginConfig, opener: bool, auth: bool, sid: Id)
    requires Books(s)
    ensures Books(Start(s, stream, cfg, opener, auth, sid)) && Books(Retry(s, stream, auth, sid))
  {
    if s.stream == None {
      var s' := s.(sess := Abandoned(s.sess), cfg := cfg, opener := opener);
      Untouched(s, s');
      InstallBooks(s', stream, Session.Connect, auth, sid);
    }
    if s.sess.state == Session.Reconnecting {
      InstallBooks(s, stream, Session.HumanRetry, auth, sid);
    }
  }

  lemma ProposalStepBooks(s: State, e: Event)
    requires Books(s) && Enabled(s, e)
    requires e.EvPropose? || e.EvEdit? || e.EvReject? || e.EvApprove? || e.EvDiagnose?
    ensures Books(Step(s, e))
  {
    match e {
      case EvPropose(session, text, timeout, now, pid) => ProposeBooks(s, session, text, timeout, now, pid);
      case EvEdit(pid, text, now, next) => EditBooks(s, pid, text, now, next);
      case EvReject(pid) => RejectBooks(s, pid);
      case EvApprove(pid, now, txId, nonce, ok) =>
        if CanStart(s) { ApproveAndStartBooks(s, pid, now, txId, nonce, ok); }
      case EvDiagnose(session, text, timeout, created, now, pid, txId, nonce, ok) =>
        DiagnoseBooks(s, session, text, timeout, created, now, pid, txId, nonce, ok);
    }
  }

  lemma QuietStepBooks(s: State, e: Event)
    requires Books(s) && Enabled(s, e)
    requires e.EvConfirmReady? || e.EvBeginSecret? || e.EvEndSecret? || e.EvShutdown? || e.EvReadChunk?
    ensures Books(Step(s, e))
  {
    match e {
      case EvConfirmReady =>
        if s.sess.state == Session.Authenticating { Untouched(s, Step(s, e)); }
      case EvBeginSecret(now) => Untouched(s, BeginSecret(s, now));
      case EvEndSecret => Untouched(s, EndSecret(s));
      case EvShutdown => Untouched(s, Shutdown(s));
      case EvReadChunk(raw) => Untouched(s, ReadChunk(s, raw));
    }
  }

  lemma TimerStepBooks(s: State, e: Event)
    requires Books(s) && Enabled(s, e)
    requires e.EvPromptTimer? || e.EvAuthTimer?
    ensures Books(Step(s, e))
  {
    match e {
      case EvPromptTimer(gen) => ConfirmBooks(s.(promptTimers := s.promptTimers - {gen}), gen);
      case EvAuthTimer(gen) => RetryAuthBooks(s.(authTimers := s.authTimers - {gen}), gen);
    }
  }

  lemma CallStepBooks(s: State, e: Event)
    requires Books(s) && Enabled(s, e) && (e.EvWaitRegister? || e.EvWaitCancel? || e.EvWaitReturn?)
    ensures Books(Step(s, e))
  {
    match e {
      case EvWaitRegister(call, tx) => RegisterBooks(s, call, tx);
      case EvWaitCancel(call) => Untouched(s, WaitCancel(s, call));
      case EvWaitReturn(call) => Untouched(s, WaitReturn(s, call));
    }
  }

  lemma ConfirmBooks(s: State, gen: nat)
    requires Books(s)
    ensures Books(ConfirmShellPrompt(s, gen))
  {
    Untouched(s, ConfirmShellPrompt(s, gen));
  }

  lemma RetryAuthBooks(s: State, gen: nat)
    requires Books(s)
    ensures Books(RetryAuth(s, gen))
  {
    Untouched(s, RetryAuth(s, gen));
  }

  lemma RegisterBooks(s: State, call: CallId, tx: Id)
    requires Books(s)
    ensures Books(WaitRegister(s, call, tx))
  {
    Untouched(s, WaitRegister(s, call, tx));
  }

  lemma SessionStepBooks(s: State, e: Event)
    requires Books(s) && Enabled(s, e)
    requires e.EvStart? || e.EvRetry? || e.EvTakeover? || e.EvStop? || e.EvOnData? || e.EvReadError? || e.EvTick?
    ensures Books(Step(s, e))
  {
    match e {
      case EvStart(stream, cfg, opener, auth, sid) => StartBooks(s, stream, cfg, opener, auth, sid);
      case EvRetry(stream, auth, sid) => StartBooks(s, stream, s.cfg, s.opener, auth, sid);
      case EvTakeover(now) => TakeoverBooks(s, now);
      case EvStop(now) => StopBooks(s, now);
      case EvOnData(now) => OnDataBooks(s, now);
      case EvReadError(stream, now) => ReadErrorBooks(s, stream, now);
      case EvTick(now) => TickBooks(s, now);
    }
  }

  lemma StepBooks(s: State, e: Event)
    requires Books(s) && Enabled(s, e)
    ensures Books(Step(s, e))
  {
    if e.EvPropose? || e.EvEdit? || e.EvReject? || e.EvApprove? || e.EvDiagnose? {
      ProposalStepBooks(s, e);
    } else if e.EvConfirmReady? || e.EvBeginSecret? || e.EvEndSecret? || e.EvShutdown? || e.EvReadChunk? {
      QuietStepBooks(s, e);
    } else if e.EvPromptTimer? || e.EvAuthTimer? {
      TimerStepBooks(s, e);
    } else if e.EvWaitRegister? || e.EvWaitCancel? || e.EvWaitReturn? {
      CallStepBooks(s, e);
    } else {
      SessionStepBooks(s, e);
    }
  }

  lemma TakeoverBooks(s: State, now: int)
    requires Books(s)
    ensures Books(Takeover(s, now))
  {
    if s.act.Some? {
      FinishBooks(s, s.act.value, Command.InterruptedByUser, None, now);
      Untouched(FinishActive(s, s.act.value, Command.InterruptedByUser, None, now), Takeover(s, now));
    }
  }

  lemma OnDataBooks(s: State, now: int)
    requires Books(s) && s.reader.Holding?
    ensures Books(OnData(s.(reader := Reading), s.reader.raw, now))
  {
    var n := NoteArrival(s.(reader := Reading), s.reader.raw);
    Untouched(s, n);
    RespondBooks(n, now);
  }

  /** In every run each transaction was approved within five minutes of its proposal. */
  lemma RunApprovedInTime(sid: Id, run: seq<Event>, t: Id)
    requires Possible(sid, run) && t in After(sid, run).records.transactions
    ensures var r := After(sid, run).records; var tx := r.transactions[t];
      && tx.sourceProposalId in r.proposals
      && tx.approvedAt <= r.proposals[tx.sourceProposalId].createdAt + 300_000_000_000
  {
    RunConserved(sid, run);
    InTime(After(sid, run).records, t);
  }

  lemma InTime(r: Command.Records, t: Id)
    requires Command.Ledger(r) && t in r.transactions
    ensures var tx := r.transactions[t];
      && tx.sourceProposalId in r.proposals
      && tx.approvedAt <= r.proposals[tx.sourceProposalId].createdAt + 300_000_000_000
  {
    assert Command.Snapshot(r, t);
    assert Command.Stamped(r.proposals[r.transactions[t].sourceProposalId], r.transactions[t].sourceProposalId);
  }

  /** Conservation over every run. */
  lemma {:induction false} RunConserved(sid: Id, run: seq<Event>)
    requires Possible(sid, run)
    ensures Books(After(sid, run))
  {
    if run != [] {
      RunConserved(sid, run[..|run| - 1]);
      StepBooks(After(sid, run[..|run| - 1]), run[|run| - 1]);
    }
  }
}
