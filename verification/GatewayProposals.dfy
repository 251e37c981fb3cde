/** A proposal that has left the pending state keeps the state it left it for; in particular one
pending under the current session when the session is lost is never approved. */
module GatewayProposals {
  import opened Basics
  import opened Gateway
  import opened GatewayLedger
  import Command
  import ManagedCommand
  import Marker
  import Session
  import Transcript

  type Proposals = map<Id, Command.Proposal>

  /** No proposal is forgotten, and one no longer pending is not touched again. */
  ghost predicate Kept(p: Proposals, q: Proposals) {
    forall pid :: pid in p ==> pid in q && (p[pid].state != Command.Pending ==> q[pid] == p[pid])
  }

  lemma KeptThrough(p: Proposals, q: Proposals, r: Proposals)
    requires Kept(p, q) && Kept(q, r)
    ensures Kept(p, r)
  {
  }

  // ---- What the store's operations keep ----

  lemma ProposedKept(r: Command.Records, pid: Id, session: Id, text: Bytes, timeout: int, now: int)
    requires pid !in r.proposals
    ensures Kept(r.proposals, Command.Proposed(r, pid, session, text, timeout, now).proposals)
  {
  }

  lemma EditedKept(r: Command.Records, pid: Id, text: Bytes, now: int, next: Id)
    requires next !in r.proposals
    ensures Kept(r.proposals, Command.Edited(r, pid, text, now, next).proposals)
  {
  }

  lemma RejectedKept(r: Command.Records, pid: Id)
    ensures Kept(r.proposals, Command.RejectedIn(r, pid).proposals)
  {
  }

  lemma ApprovedKept(r: Command.Records, pid: Id, now: int, txId: Id)
    ensures Kept(r.proposals, Command.ApprovedIn(r, pid, now, txId).proposals)
  {
  }

  /** Invalidation retires exactly the pending proposals of the session. */
  lemma InvalidatedKept(r: Command.Records, session: Id)
    ensures Kept(r.proposals, Command.Invalidated(r, session).proposals)
    ensures forall pid :: Command.IsPending(r, pid) && r.proposals[pid].sessionId == session ==>
      Command.Invalidated(r, session).proposals[pid].state == Command.Expired
  {
  }

  // ---- Sections that leave proposals alone ----

  ghost predicate SameProposals(s: State, s': State) {
    s'.records.proposals == s.records.proposals
  }

  lemma FinishActiveSame(s: State, a: Active, status: Command.Status, exitCode: Option<int>, now: int)
    ensures SameProposals(s, FinishActive(s, a, status, exitCode, now))
  {
  }

  lemma FinishSame(s: State, status: Command.Status, now: int)
    ensures SameProposals(s, Finish(s, status, now)) && Finish(s, status, now).sess == s.sess
  {
    if s.act.Some? {
      FinishActiveSame(s, s.act.value, status, None, now);
    }
  }

  lemma MarkerSame(s: State, now: int)
    ensures SameProposals(s, HandleMarker(s, now))
  {
    if s.act.Some? {
      var window := Transcript.ReadLog(s.log, RING_CAPACITY, s.act.value.startSeq, MARKER_SCAN);
      match Marker.Search(s.act.value.marker, window.data) {
        case None =>
        case Some(code) =>
          FinishActiveSame(s.(rebootSuspect := false), s.act.value, Command.Completed, Some(code), now);
      }
    }
  }

  lemma ProgressSame(s: State, now: int)
    ensures SameProposals(s, Progress(s, now))
  {
    if s.sess.state == Session.RunningCommand {
      MarkerSame(s, now);
    }
  }

  lemma RespondToLineSame(s: State, now: int)
    ensures SameProposals(s, RespondToLine(s, now))
  {
    if !s.secret && !SecretPromptMatches(s.cfg, s.lineTail) {
      ProgressSame(s, now);
    }
  }

  lemma TickSame(s: State, now: int)
    ensures SameProposals(s, CheckTimeout(s, now))
  {
    if s.act.Some? && now >= s.act.value.deadline {
      FinishActiveSame(InterruptTarget(s), s.act.value, Command.Timeout, None, now);
    }
  }

  lemma TakeoverSame(s: State, now: int)
    ensures SameProposals(s, Takeover(s, now))
  {
    if s.act.Some? {
      FinishActiveSame(s, s.act.value, Command.InterruptedByUser, None, now);
    }
  }

  lemma InstallSame(s: State, stream: StreamId, e: Session.Event, auth: bool, sid: Id)
    ensures SameProposals(s, BeginAuthentication(InstallStream(s, stream, e, sid), auth))
  {
  }

  lemma StartSame(s: State, e: Event)
    requires e.EvStart? || e.EvRetry?
    requires Enabled(s, e)
    ensures SameProposals(s, Step(s, e))
  {
    match e {
      case EvStart(stream, cfg, opener, auth, sid) =>
        if s.stream == None {
          InstallSame(s.(sess := Abandoned(s.sess), cfg := cfg, opener := opener), stream, Session.Connect, auth, sid);
        }
      case EvRetry(stream, auth, sid) =>
        if s.sess.state == Session.Reconnecting { InstallSame(s, stream, Session.HumanRetry, auth, sid); }
    }
  }

  // ---- Losing the session ----

  /** The step loses the transport or confirms a reboot of the target. */
  predicate LosesSession(s: State, e: Event)
    requires Enabled(s, e)
  {
    match e
    case EvReadError(stream, _) => s.stream == Some(stream)
    case EvOnData(_) => RebootConfirmed(NoteArrival(s.(reader := Reading), s.reader.raw))
    case _ => false
  }

  ghost predicate Lapsed(s: State, s': State) {
    s'.records.proposals == Command.Invalidated(s.records, s.sess.id).proposals
  }

  lemma InvalidatedAlike(r: Command.Records, q: Command.Records, session: Id)
    requires r.proposals == q.proposals
    ensures Command.Invalidated(r, session).proposals == Command.Invalidated(q, session).proposals
  {
  }

  lemma RebootLapses(s: State, now: int)
    ensures Lapsed(s, RespondToReboot(s, now))
  {
    var s0 := NoteRebootPrompt(s);
    FinishSame(s0, Command.TargetRebooted, now);
    InvalidatedAlike(s.records, Finish(s0, Command.TargetRebooted, now).records, s.sess.id);
  }

  lemma LossLapses(s: State, stream: StreamId, now: int)
    requires s.stream == Some(stream)
    ensures Lapsed(s, OnReadError(s, stream, now))
  {
    FinishSame(s, Command.Disconnected, now);
    InvalidatedAlike(s.records, Finish(s, Command.Disconnected, now).records, s.sess.id);
  }

  lemma LossStepLapses(s: State, e: Event)
    requires Enabled(s, e) && LosesSession(s, e)
    ensures Lapsed(s, Step(s, e))
  {
    match e {
      case EvReadError(stream, now) => LossLapses(s, stream, now);
      case EvOnData(now) => RebootLapses(NoteArrival(s.(reader := Reading), s.reader.raw), now);
    }
  }

  // ---- Every step ----

  lemma ApproveAndStartKept(s: State, pid: Id, now: int, txId: Id, nonce: Bytes, ok: bool)
    ensures Kept(s.records.proposals, ApproveAndStart(s, pid, now, txId, nonce, ok).records.proposals)
  {
    ApprovedKept(s.records, pid, now, txId);
    if Command.Approvable(s.records, pid, now) {
      var s' := s.(records := Command.ApprovedIn(s.records, pid, now, txId), used := s.used + {txId});
      var a := ActiveFor(s', Command.TransactionOf(s.records.proposals[pid], txId, now), nonce, now);
      FinishActiveSame(Launch(s', a), a, Command.Disconnected, None, now);
    }
  }

  lemma DiagnoseKept(s: State, session: Id, text: Bytes, timeout: int, created: int, now: int, pid: Id, txId: Id, nonce: Bytes, ok: bool)
    requires pid !in s.records.proposals
    ensures Kept(s.records.proposals,
      DiagnoseStart(s, session, text, timeout, created, now, pid, txId, nonce, ok).records.proposals)
  {
    if CanStart(s) && session == s.sess.id && ManagedCommand.Managed(text) {
      var s1 := Propose(s, session, text, timeout, created, pid);
      ProposedKept(s.records, pid, session, text, timeout, created);
      ApproveAndStartKept(s1, pid, now, txId, nonce, ok);
      var s2 := ApproveAndStart(s1, pid, now, txId, nonce, ok);
      RejectedKept(s2.records, pid);
      KeptThrough(s.records.proposals, s1.records.proposals, s2.records.proposals);
      KeptThrough(s.records.proposals, s2.records.proposals, Reject(s2, pid).records.proposals);
    }
  }

  lemma ProposalStepKept(s: State, e: Event)
    requires Enabled(s, e) && s.records.proposals.Keys <= s.used
    requires e.EvPropose? || e.EvEdit? || e.EvReject? || e.EvApprove? || e.EvDiagnose?
    ensures Kept(s.records.proposals, Step(s, e).records.proposals)
  {
    match e {
      case EvPropose(session, text, timeout, now, pid) => ProposedKept(s.records, pid, session, text, timeout, now);
      case EvEdit(pid, text, now, next) => EditedKept(s.records, pid, text, now, next);
      case EvReject(pid) => RejectedKept(s.records, pid);
      case EvApprove(pid, now, txId, nonce, ok) => ApproveAndStartKept(s, pid, now, txId, nonce, ok);
      case EvDiagnose(session, text, timeout, created, now, pid, txId, nonce, ok) =>
        DiagnoseKept(s, session, text, timeout, created, now, pid, txId, nonce, ok);
    }
  }

  lemma OtherStepSame(s: State, e: Event)
    requires Enabled(s, e) && !LosesSession(s, e)
    requires !(e.EvPropose? || e.EvEdit? || e.EvReject? || e.EvApprove? || e.EvDiagnose?)
    ensures SameProposals(s, Step(s, e))
  {
    if e.EvStart? || e.EvRetry? {
      StartSame(s, e);
    } else if e.EvTakeover? || e.EvStop? || e.EvOnData? || e.EvTick? {
      FinishingStepSame(s, e);
    } else if e.EvConfirmReady? || e.EvBeginSecret? || e.EvEndSecret? || e.EvShutdown? {
      HumanStepSame(s, e);
    } else if e.EvReadChunk? || e.EvReadError? {
      ReaderStepSame(s, e);
    } else if e.EvPromptTimer? || e.EvAuthTimer? {
      TimerStepSame(s, e);
    } else {
      QuietStepSame(s, e);
    }
  }

  lemma FinishingStepSame(s: State, e: Event)
    requires Enabled(s, e) && !LosesSession(s, e) && (e.EvTakeover? || e.EvStop? || e.EvOnData? || e.EvTick?)
    ensures SameProposals(s, Step(s, e))
  {
    match e {
      case EvTakeover(now) => TakeoverSame(s, now);
      case EvStop(now) => FinishSame(s, Command.DaemonRestarted, now);
      case EvOnData(now) => RespondToLineSame(NoteArrival(s.(reader := Reading), s.reader.raw), now);
      case EvTick(now) => TickSame(s, now);
    }
  }

  lemma HumanStepSame(s: State, e: Event)
    requires Enabled(s, e) && (e.EvConfirmReady? || e.EvBeginSecret? || e.EvEndSecret? || e.EvShutdown?)
    ensures SameProposals(s, Step(s, e))
  {
    match e {
      case EvConfirmReady => assert SameProposals(s, ConfirmSessionReady(s));
      case EvBeginSecret(now) => assert SameProposals(s, BeginSecret(s, now));
      case EvEndSecret => assert SameProposals(s, EndSecret(s));
      case EvShutdown =>
    }
  }

  lemma QuietStepSame(s: State, e: Event)
    requires Enabled(s, e) && !LosesSession(s, e)
    requires e.EvWaitRegister? || e.EvWaitCancel? || e.EvWaitReturn?
    ensures SameProposals(s, Step(s, e))
  {
    match e {
      case EvWaitRegister(call, tx) => RegisterSame(s, call, tx);
      case EvWaitCancel(_) =>
      case EvWaitReturn(_) =>
    }
  }

  lemma TimerStepSame(s: State, e: Event)
    requires Enabled(s, e) && (e.EvPromptTimer? || e.EvAuthTimer?)
    ensures SameProposals(s, Step(s, e))
  {
    match e {
      case EvPromptTimer(gen) => ConfirmSame(s.(promptTimers := s.promptTimers - {gen}), gen);
      case EvAuthTimer(gen) => RetryAuthSame(s.(authTimers := s.authTimers - {gen}), gen);
    }
  }

  lemma ReaderStepSame(s: State, e: Event)
    requires Enabled(s, e) && !LosesSession(s, e) && (e.EvReadChunk? || e.EvReadError?)
    ensures SameProposals(s, Step(s, e))
  {
  }

  lemma ConfirmSame(s: State, gen: nat)
    ensures SameProposals(s, ConfirmShellPrompt(s, gen))
  {
  }

  lemma RetryAuthSame(s: State, gen: nat)
    ensures SameProposals(s, RetryAuth(s, gen))
  {
  }

  lemma RegisterSame(s: State, call: CallId, tx: Id)
    ensures SameProposals(s, WaitRegister(s, call, tx))
  {
  }

  lemma StepKept(s: State, e: Event)
    requires Enabled(s, e) && s.records.proposals.Keys <= s.used
    ensures Kept(s.records.proposals, Step(s, e).records.proposals)
  {
    if LosesSession(s, e) {
      LossStepLapses(s, e);
      InvalidatedKept(s.records, s.sess.id);
    } else if e.EvPropose? || e.EvEdit? || e.EvReject? || e.EvApprove? || e.EvDiagnose? {
      ProposalStepKept(s, e);
    } else {
      OtherStepSame(s, e);
    }
  }

  // ---- Runs ----

  /** A decided proposal stays decided, the same way, in every continuation of the run. */
  lemma {:induction false} DecidedForever(sid: Id, run: seq<Event>, k: nat)
    requires Possible(sid, run) && k <= |run| && Possible(sid, run[..k])
    ensures Kept(After(sid, run[..k]).records.proposals, After(sid, run).records.proposals)
    decreases |run|
  {
    if k == |run| {
      assert run[..k] == run;
    } else {
      var n := |run| - 1;
      assert run[..n][..k] == run[..k];
      DecidedForever(sid, run[..n], k);
      RunConserved(sid, run[..n]);
      StepKept(After(sid, run[..n]), run[n]);
    }
  }

  lemma ExpiredAtLoss(s: State, e: Event, pid: Id)
    requires Enabled(s, e) && LosesSession(s, e)
    requires Command.IsPending(s.records, pid) && s.records.proposals[pid].sessionId == s.sess.id
    ensures var p := Step(s, e).records.proposals; pid in p && p[pid].state == Command.Expired
  {
    LossStepLapses(s, e);
    InvalidatedKept(s.records, s.sess.id);
  }

  /** A proposal pending under the current session when step `k` loses the session is expired ever
      after, and no transaction is ever made of it. */
  lemma LostProposalNeverApproved(sid: Id, run: seq<Event>, k: nat, pid: Id)
    requires Possible(sid, run) && k < |run| && Possible(sid, run[..k])
    requires var s := After(sid, run[..k]);
      && Enabled(s, run[k]) && LosesSession(s, run[k])
      && Command.IsPending(s.records, pid) && s.records.proposals[pid].sessionId == s.sess.id
    ensures var r := After(sid, run).records;
      && pid in r.proposals && r.proposals[pid].state == Command.Expired && !Command.HasTransaction(r, pid)
  {
    ExpiredAtLoss(After(sid, run[..k]), run[k], pid);
    PossiblePrefix(sid, run, k + 1);
    assert run[..k + 1][..k] == run[..k];
    ExpiredForever(sid, run, k + 1, pid);
  }

  lemma ExpiredForever(sid: Id, run: seq<Event>, k: nat, pid: Id)
    requires Possible(sid, run) && k <= |run| && Possible(sid, run[..k])
    requires var p := After(sid, run[..k]).records.proposals; pid in p && p[pid].state == Command.Expired
    ensures var r := After(sid, run).records;
      && pid in r.proposals && r.proposals[pid].state == Command.Expired && !Command.HasTransaction(r, pid)
  {
    DecidedForever(sid, run, k);
    RunConserved(sid, run);
    ExpiredHasNone(After(sid, run).records, pid);
  }

  lemma ExpiredHasNone(r: Command.Records, pid: Id)
    requires Command.Ledger(r) && pid in r.proposals && r.proposals[pid].state != Command.Approved
    ensures !Command.HasTransaction(r, pid)
  {
    forall t | t in r.transactions ensures r.transactions[t].sourceProposalId != pid {
      assert Command.Snapshot(r, t);
    }
  }
}
