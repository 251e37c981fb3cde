/** What the coordinator takes for the current line, and when it believes a shell prompt. */
module GatewayPrompt {
  import opened Basics
  import opened Gateway
  import Command
  import ManagedCommand
  import Marker
  import Protocol
  import Session
  import Transcript

  // ---- The line tail ----

  /** The line a console shows after printing `x`, as far as it is kept. */
  function TailOf(x: Bytes): Bytes {
    LastBytes(AfterLastBreak(x))
  }

  lemma {:induction false} AfterLastBreakIs(x: Bytes)
    ensures var a := AfterLastBreak(x);
      && |a| <= |x| && x[|x| - |a|..] == a && !HasBreak(a)
      && (|a| < |x| ==> IsBreak(x[|x| - |a| - 1]))
  {
    if x != [] && !IsBreak(x[|x| - 1]) {
      AfterLastBreakIs(x[..|x| - 1]);
    }
  }

  /** The tail is the longest end of the bytes without a line break that has at most 1024 of them. */
  lemma TailIs(x: Bytes)
    ensures var t := TailOf(x);
      && |t| <= |x| && x[|x| - |t|..] == t && !HasBreak(t) && |t| <= 1024
      && (|t| == 1024 || |t| == |x| || IsBreak(x[|x| - |t| - 1]))
  {
    var a := AfterLastBreak(x);
    AfterLastBreakIs(x);
    if |a| > 1024 {
      EndOfEnd(x, a, 1024);
    }
  }

  lemma EndOfEnd(x: Bytes, a: Bytes, n: nat)
    requires n <= |a| <= |x| && x[|x| - |a|..] == a && !HasBreak(a)
    ensures x[|x| - n..] == a[|a| - n..] && !HasBreak(a[|a| - n..])
  {
    var b := a[|a| - n..];
    forall i | 0 <= i < n
      ensures !IsBreak(b[i])
    {
      assert b[i] == a[|a| - n + i];
    }
  }

  lemma AfterBreaklessChunk(x: Bytes, chunk: Bytes)
    requires !HasBreak(chunk)
    ensures AfterLastBreak(x + chunk) == AfterLastBreak(x) + chunk
  {
    if chunk == [] {
      assert x + chunk == x;
    } else {
      var k := |chunk| - 1;
      assert x + chunk == x + chunk[..k] + [chunk[k]];
      assert chunk == chunk[..k] + [chunk[k]];
      AfterBreaklessChunk(x, chunk[..k]);
      assert (x + chunk)[..|x + chunk| - 1] == x + chunk[..k];
    }
  }

  lemma AfterBrokenChunk(x: Bytes, chunk: Bytes)
    requires HasBreak(chunk)
    ensures AfterLastBreak(x + chunk) == AfterLastBreak(chunk)
  {
    var k := |chunk| - 1;
    if !IsBreak(chunk[k]) {
      var i :| 0 <= i < |chunk| && IsBreak(chunk[i]);
      assert chunk[..k][i] == chunk[i];
      AfterBrokenChunk(x, chunk[..k]);
      assert (x + chunk)[..|x + chunk| - 1] == x + chunk[..k];
    }
  }

  /** Cutting the kept bytes early loses none of those kept later. */
  lemma LastBytesOfLast(x: Bytes, y: Bytes)
    ensures LastBytes(LastBytes(x) + y) == LastBytes(x + y)
  {
    if |x| > MAX_LINE_TAIL {
      var cut := |x| - MAX_LINE_TAIL;
      assert x[cut..] + y == (x + y)[cut..];
      assert LastBytes(x) + y == (x + y)[cut..];
    }
  }

  /** The tail depends on the bytes read, not on how reads split them. */
  lemma TailAdvances(x: Bytes, chunk: Bytes)
    ensures AdvanceLineTail(TailOf(x), chunk) == TailOf(x + chunk)
  {
    if HasBreak(chunk) {
      AfterBrokenChunk(x, chunk);
    } else {
      AfterBreaklessChunk(x, chunk);
      LastBytesOfLast(AfterLastBreak(x), chunk);
    }
  }

  // ---- Pending confirmations ----

  /** The tail is what the bytes fed since its last clear leave on the line, and a pending
      confirmation of the current generation was armed on this very tail with no chunk since. */
  ghost predicate Tracked(s: State) {
    && s.lineTail == TailOf(s.fed)
    && (forall g :: g in s.promptTimers ==> g <= s.promptGen)
    && (s.promptGen in s.promptTimers ==> ArmedNow(s))
  }

  ghost predicate ArmedNow(s: State) {
    && s.promptGen in s.promptTimers
    && s.promptTimers[s.promptGen] == Armed(s.lineTail, s.arrivals)
    && Protocol.Matches(s.cfg.shellPrompt, s.lineTail)
  }

  /** Nothing about the line or its pending confirmations differs. */
  ghost predicate SameLine(s: State, s': State) {
    && s'.lineTail == s.lineTail
    && s'.fed == s.fed
    && s'.promptGen == s.promptGen
    && s'.promptTimers == s.promptTimers
    && s'.arrivals == s.arrivals
    && s'.cfg == s.cfg
  }

  /** No confirmation pending in `s` can take effect in `s'`, and none is new. */
  ghost predicate LineReset(s: State, s': State) {
    && s'.lineTail == s'.fed == []
    && s'.promptTimers == s.promptTimers
    && s'.promptGen == s.promptGen + 1
    && s'.arrivals == s.arrivals
  }

  lemma ResetTracked(s: State, s': State)
    requires Tracked(s) && LineReset(s, s')
    ensures Tracked(s') && s'.promptGen !in s'.promptTimers
  {
  }

  lemma InstallResets(s: State, stream: StreamId, e: Session.Event, auth: bool, sid: Id)
    ensures LineReset(s, BeginAuthentication(InstallStream(s, stream, e, sid), auth))
  {
  }

  lemma FinishActiveSameLine(s: State, a: Active, status: Command.Status, exitCode: Option<int>, now: int)
    ensures SameLine(s, FinishActive(s, a, status, exitCode, now))
    ensures SameLine(s, FinishActive(s, a, status, exitCode, now).(sess := Settled(s.sess)))
  {
  }

  lemma FinishSameLine(s: State, status: Command.Status, now: int)
    ensures SameLine(s, Finish(s, status, now))
  {
    if s.act.Some? {
      FinishActiveSameLine(s, s.act.value, status, None, now);
    }
  }

  lemma LaunchSameLine(s: State, a: Active)
    ensures SameLine(s, Launch(s, a))
  {
  }

  lemma ExpireSameLine(s: State, a: Active, now: int)
    ensures SameLine(s, ExpireActive(s, a, now))
  {
    FinishActiveSameLine(s, a, Command.Timeout, None, now);
  }

  lemma EnterSameLine(s: State)
    ensures SameLine(s, EnterLoss(s)) && SameLine(s, EnterReboot(s))
  {
  }

  predicate Resets(s: State, e: Event) {
    match e
    case EvStart(_, _, _, _, _) => s.stream == None
    case EvRetry(_, _, _) => s.sess.state == Session.Reconnecting
    case EvStop(_) => true
    case _ => false
  }

  lemma StepResets(s: State, e: Event)
    requires Enabled(s, e) && Resets(s, e)
    ensures LineReset(s, Step(s, e))
  {
    match e {
      case EvStart(stream, cfg, opener, auth, sid) =>
        InstallResets(s.(sess := Abandoned(s.sess), cfg := cfg, opener := opener), stream, Session.Connect, auth, sid);
      case EvRetry(stream, auth, sid) => InstallResets(s, stream, Session.HumanRetry, auth, sid);
      case EvStop(now) => FinishSameLine(s, Command.DaemonRestarted, now);
    }
  }

  lemma StartSameLine(s: State, pid: Id, now: int, txId: Id, nonce: Bytes, ok: bool)
    ensures SameLine(s, ApproveAndStart(s, pid, now, txId, nonce, ok))
  {
    if Command.Approvable(s.records, pid, now) {
      var s' := s.(records := Command.ApprovedIn(s.records, pid, now, txId), used := s.used + {txId});
      var a := ActiveFor(s', Command.TransactionOf(s.records.proposals[pid], txId, now), nonce, now);
      LaunchSameLine(s', a);
      if !ok {
        FinishActiveSameLine(Launch(s', a), a, Command.Disconnected, None, now);
      }
    }
  }

  lemma DiagnoseSameLine(s: State, session: Id, text: Bytes, timeout: int, created: int, now: int, pid: Id, txId: Id, nonce: Bytes, ok: bool)
    ensures SameLine(s, DiagnoseStart(s, session, text, timeout, created, now, pid, txId, nonce, ok))
  {
    if CanStart(s) && session == s.sess.id && ManagedCommand.Managed(text) {
      var s1 := Propose(s, session, text, timeout, created, pid);
      StartSameLine(s1, pid, now, txId, nonce, ok);
      RejectSameLine(ApproveAndStart(s1, pid, now, txId, nonce, ok), pid);
    }
  }

  lemma RejectSameLine(s: State, pid: Id)
    ensures SameLine(s, Reject(s, pid))
  {
  }

  lemma ReadySameLine(s: State)
    ensures SameLine(s, ConfirmSessionReady(s))
  {
    if s.sess.state == Session.Authenticating {
      assert ConfirmSessionReady(s) == Apply(s.(manualReady := true), Session.Authenticated);
    }
  }

  lemma OperatorSameLine(s: State, e: Event)
    requires Enabled(s, e)
    requires e.EvApprove? || e.EvDiagnose? || e.EvConfirmReady? || e.EvTakeover? || e.EvBeginSecret? || e.EvEndSecret?
    ensures SameLine(s, Step(s, e))
  {
    match e {
      case EvApprove(pid, now, txId, nonce, ok) =>
        if CanStart(s) { StartSameLine(s, pid, now, txId, nonce, ok); }
      case EvDiagnose(session, text, timeout, created, now, pid, txId, nonce, ok) =>
        DiagnoseSameLine(s, session, text, timeout, created, now, pid, txId, nonce, ok);
      case EvConfirmReady => ReadySameLine(s);
      case EvTakeover(now) =>
        if s.act.Some? { FinishActiveSameLine(s, s.act.value, Command.InterruptedByUser, None, now); }
      case EvBeginSecret(now) =>
      case EvEndSecret =>
    }
  }

  lemma LossSameLine(s: State, stream: StreamId, now: int)
    ensures SameLine(s, OnReadError(s, stream, now))
  {
    if s.stream == Some(stream) {
      FinishSameLine(s, Command.Disconnected, now);
      EnterSameLine(Finish(s, Command.Disconnected, now));
    }
  }

  lemma TickSameLine(s: State, now: int)
    ensures SameLine(s, CheckTimeout(s, now))
  {
    if s.act.Some? && now >= s.act.value.deadline {
      ExpireSameLine(InterruptTarget(s), s.act.value, now);
    }
  }

  lemma CallSameLine(s: State, e: Event)
    requires Enabled(s, e) && (e.EvAuthTimer? || e.EvWaitRegister? || e.EvWaitCancel? || e.EvWaitReturn?)
    ensures SameLine(s, Step(s, e))
  {
    match e {
      case EvAuthTimer(gen) => AuthTimerSameLine(s, gen);
      case EvWaitRegister(call, tx) => RegisterSameLine(s, call, tx);
      case EvWaitCancel(call) =>
      case EvWaitReturn(call) =>
    }
  }

  lemma AuthTimerSameLine(s: State, gen: nat)
    ensures SameLine(s, RetryAuth(s.(authTimers := s.authTimers - {gen}), gen))
  {
  }

  lemma RegisterSameLine(s: State, call: CallId, tx: Id)
    ensures SameLine(s, WaitRegister(s, call, tx))
  {
  }

  lemma StepSameLine(s: State, e: Event)
    requires Enabled(s, e) && !Resets(s, e) && !e.EvOnData? && !e.EvPromptTimer?
    ensures SameLine(s, Step(s, e))
  {
    match e {
      case EvStart(_, _, _, _, _) =>
      case EvRetry(_, _, _) =>
      case EvPropose(_, _, _, _, _) =>
      case EvEdit(_, _, _, _) =>
      case EvReject(_) =>
      case EvShutdown =>
      case EvReadChunk(_) =>
      case EvApprove(_, _, _, _, _) => OperatorSameLine(s, e);
      case EvDiagnose(_, _, _, _, _, _, _, _, _) => OperatorSameLine(s, e);
      case EvConfirmReady => OperatorSameLine(s, e);
      case EvTakeover(_) => OperatorSameLine(s, e);
      case EvBeginSecret(_) => OperatorSameLine(s, e);
      case EvEndSecret => OperatorSameLine(s, e);
      case EvReadError(stream, now) => LossSameLine(s, stream, now);
      case EvTick(now) => TickSameLine(s, now);
      case _ => CallSameLine(s, e);
    }
  }

  // ---- A chunk arrives ----

  /** The tail is tracked and no confirmation of this generation is pending. */
  ghost predicate Unarmed(s: State) {
    Tracked(s) && s.promptGen !in s.promptTimers
  }

  lemma ArrivalUnarmed(s: State, chunk: Bytes)
    requires Tracked(s)
    ensures Unarmed(NoteArrival(s, chunk)) && NoteArrival(s, chunk).arrivals == s.arrivals + 1
  {
    TailAdvances(s.fed, chunk);
  }

  lemma ArmTracked(s: State)
    requires Unarmed(s)
    ensures Tracked(ArmPromptConfirm(s))
  {
  }

  /** Only the tail may differ, and then it has been cleared. */
  ghost predicate KeptOrCleared(s: State, s': State) {
    && s'.promptGen == s.promptGen
    && s'.promptTimers == s.promptTimers
    && s'.arrivals == s.arrivals
    && s'.cfg == s.cfg
    && ((s'.lineTail == [] && s'.fed == []) || (s'.lineTail == s.lineTail && s'.fed == s.fed))
  }

  lemma ClearedUnarmed(s: State, s': State)
    requires Unarmed(s) && KeptOrCleared(s, s')
    ensures Unarmed(s')
  {
  }

  lemma AuthenticatingLine(s: State)
    ensures KeptOrCleared(s, HandleAuthenticating(s))
  {
  }

  lemma CompletedSameLine(s: State, a: Active, code: int, now: int)
    ensures SameLine(s,
      Apply(FinishActive(s.(rebootSuspect := false), a, Command.Completed, Some(code), now), Session.CommandResult))
  {
    FinishActiveSameLine(s.(rebootSuspect := false), a, Command.Completed, Some(code), now);
  }

  lemma MarkerSameLine(s: State, now: int)
    ensures SameLine(s, HandleMarker(s, now))
  {
    if s.act.Some? {
      var window := Transcript.ReadLog(s.log, RING_CAPACITY, s.act.value.startSeq, MARKER_SCAN);
      match Marker.Search(s.act.value.marker, window.data) {
        case None =>
        case Some(code) =>
          CompletedSameLine(s, s.act.value, code, now);
      }
    }
  }

  lemma ProgressLine(s: State, now: int)
    ensures KeptOrCleared(s, Progress(s, now))
  {
    if s.sess.state == Session.Authenticating {
      AuthenticatingLine(s);
    } else if s.sess.state == Session.RunningCommand {
      MarkerSameLine(s, now);
    }
  }

  lemma KeptAfter(s: State, s1: State, s2: State, s3: State)
    requires SameLine(s, s1) && SameLine(s1, s2) && KeptOrCleared(s2, s3)
    ensures KeptOrCleared(s, s3)
  {
  }

  lemma RebootLine(s: State, now: int)
    ensures KeptOrCleared(s, RespondToReboot(s, now))
  {
    var s0 := NoteRebootPrompt(s);
    FinishSameLine(s0, Command.TargetRebooted, now);
    var f := Finish(s0, Command.TargetRebooted, now);
    EnterSameLine(f);
    AuthenticatingLine(EnterReboot(f));
    KeptAfter(s, f, EnterReboot(f), HandleAuthenticating(EnterReboot(f)));
  }

  lemma RespondTracked(s: State, now: int)
    requires Unarmed(s)
    ensures Tracked(Respond(s, now))
  {
    if RebootConfirmed(s) {
      RebootLine(s, now);
      ClearedUnarmed(s, RespondToReboot(s, now));
    } else if s.secret {
      ArmTracked(s);
    } else if SecretPromptMatches(s.cfg, s.lineTail) {
      ClearedUnarmed(s, OpenWindow(s, now));
    } else {
      var p := Progress(s, now);
      ProgressLine(s, now);
      ClearedUnarmed(s, p);
      ArmTracked(p);
    }
  }

  // ---- Runs ----

  lemma ConfirmLine(s: State, gen: nat)
    requires Tracked(s) && gen in s.promptTimers
    ensures var s' := Step(s, EvPromptTimer(gen));
      && Tracked(s') && s'.promptGen == s.promptGen && s'.promptTimers == s.promptTimers - {gen}
      && (gen != s.promptGen ==> SameLine(s.(promptTimers := s.promptTimers - {gen}), s'))
  {
  }

  lemma StepTracked(s: State, e: Event)
    requires Tracked(s) && Enabled(s, e)
    ensures Tracked(Step(s, e))
  {
    if Resets(s, e) {
      StepResets(s, e);
      ResetTracked(s, Step(s, e));
    } else if e.EvOnData? {
      ArrivalUnarmed(s.(reader := Reading), s.reader.raw);
      RespondTracked(NoteArrival(s.(reader := Reading), s.reader.raw), e.now);
    } else if e.EvPromptTimer? {
      ConfirmLine(s, e.gen);
    } else {
      StepSameLine(s, e);
    }
  }

  lemma {:induction false} RunTracked(sid: Id, run: seq<Event>)
    requires Possible(sid, run)
    ensures Tracked(After(sid, run))
  {
    if run != [] {
      RunTracked(sid, run[..|run| - 1]);
      StepTracked(After(sid, run[..|run| - 1]), run[|run| - 1]);
    }
  }

  /** A pending confirmation that a later step leaves able to take effect was so before it. */
  lemma StillPending(s: State, e: Event)
    requires Tracked(s) && Enabled(s, e) && !e.EvOnData?
    requires Step(s, e).promptGen in Step(s, e).promptTimers
    ensures s.promptGen in s.promptTimers && Step(s, e).lineTail == s.lineTail
    ensures Step(s, e).promptGen == s.promptGen
  {
    if Resets(s, e) {
      StepResets(s, e);
    } else if e.EvPromptTimer? {
      ConfirmLine(s, e.gen);
    } else {
      StepSameLine(s, e);
    }
  }

  /** The chunk handled at `j` armed the confirmation still pending when the run stood at `n`, nothing
      was handed to prompt matching in between, and the line stayed as that chunk left it. */
  ghost predicate QuietSince(sid: Id, run: seq<Event>, j: nat, n: nat)
    requires n <= |run| && Possible(sid, run[..n])
  {
    && NoChunkSince(run, j, n)
    && Possible(sid, run[..j + 1])
    && SameTail(After(sid, run[..j + 1]), After(sid, run[..n]))
  }

  /** The chunk at `j` is the last one handled before the run stood at `n`. */
  predicate NoChunkSince(run: seq<Event>, j: nat, n: nat)
    requires n <= |run|
  {
    j < n && run[j].EvOnData? && forall k :: j < k < n ==> !run[k].EvOnData?
  }

  predicate SameTail(s: State, t: State) {
    s.lineTail == t.lineTail && s.promptGen == t.promptGen
  }

  predicate Pending(s: State) {
    s.promptGen in s.promptTimers
  }

  /** A confirmation still pending after a step that handled no chunk was pending before it. */
  lemma PendingBefore(sid: Id, run: seq<Event>, n: nat)
    requires Possible(sid, run) && n < |run| && Possible(sid, run[..n]) && Possible(sid, run[..n + 1])
    requires Pending(After(sid, run[..n + 1])) && !run[n].EvOnData?
    ensures Pending(After(sid, run[..n])) && SameTail(After(sid, run[..n]), After(sid, run[..n + 1]))
  {
    NextEnabled(sid, run, n);
    RunTracked(sid, run[..n]);
    StillPending(After(sid, run[..n]), run[n]);
  }

  lemma NothingPendingYet(sid: Id, run: seq<Event>)
    ensures Possible(sid, run[..0]) && !Pending(After(sid, run[..0]))
  {
    assert run[..0] == [];
  }

  lemma {:induction false} PendingIsQuiet(sid: Id, run: seq<Event>, n: nat) returns (j: nat)
    requires Possible(sid, run) && n <= |run| && Possible(sid, run[..n]) && Pending(After(sid, run[..n]))
    ensures QuietSince(sid, run, j, n)
    decreases n
  {
    NothingPendingYet(sid, run);
    PossiblePrefix(sid, run, n - 1);
    if run[n - 1].EvOnData? {
      j := n - 1;
      QuietAtOnce(sid, run, j);
    } else {
      PendingBefore(sid, run, n - 1);
      j := PendingIsQuiet(sid, run, n - 1);
      NoChunkLonger(run, j, n - 1);
      SameTailThrough(After(sid, run[..j + 1]), After(sid, run[..n - 1]), After(sid, run[..n]));
    }
  }

  lemma QuietAtOnce(sid: Id, run: seq<Event>, j: nat)
    requires j < |run| && Possible(sid, run[..j + 1]) && run[j].EvOnData?
    ensures QuietSince(sid, run, j, j + 1)
  {
  }

  lemma NoChunkLonger(run: seq<Event>, j: nat, n: nat)
    requires n < |run| && NoChunkSince(run, j, n) && !run[n].EvOnData?
    ensures NoChunkSince(run, j, n + 1)
  {
  }

  lemma SameTailThrough(a: State, b: State, c: State)
    requires SameTail(a, b) && SameTail(b, c)
    ensures SameTail(a, c)
  {
  }

  /** The shell is back: an authenticating session is ready, the window is closed, and neither a timeout
      nor a suspected reboot is pending. */
  ghost predicate ShellIsBack(s: State, t: State) {
    && t.sess == Session.Session(if s.sess.state == Session.Authenticating then Session.Ready else s.sess.state, s.sess.id)
    && !t.secret && !t.resyncPending && !t.rebootSuspect && t.lineTail == []
    && t.act == s.act && t.records == s.records && t.stream == s.stream
    && t.trail.trace == s.trail.trace + [Protocol.PromptConfirmed(s.lineTail)]
  }

  lemma BelievedPrompt(s: State, gen: nat)
    requires gen == s.promptGen && Protocol.Matches(s.cfg.shellPrompt, s.lineTail)
    ensures ShellIsBack(s, ConfirmShellPrompt(s, gen))
  {
  }

  /** What firing confirmation `gen` does: restore the shell if it was armed last, else nothing. */
  ghost predicate Confirms(s: State, gen: nat)
    requires gen in s.promptTimers
  {
    var s0 := s.(promptTimers := s.promptTimers - {gen});
    var t := Step(s, EvPromptTimer(gen));
    if gen == s.promptGen then ShellIsBack(s0, t) else t == s0
  }

  lemma TrackedConfirms(s: State, gen: nat)
    requires Tracked(s) && gen in s.promptTimers
    ensures Confirms(s, gen)
  {
    if gen == s.promptGen {
      BelievedPrompt(s.(promptTimers := s.promptTimers - {gen}), gen);
    }
  }

  /** A confirmation restores the shell exactly when it is the one armed last. It is then believed on
      the very line it was armed on, that line ends in a shell prompt, and no chunk has been
      handled since; any other confirmation changes nothing. */
  lemma RunPromptBelief(sid: Id, run: seq<Event>, gen: nat) returns (j: nat)
    requires Possible(sid, run) && gen in After(sid, run).promptTimers
    ensures var s := After(sid, run);
      && Confirms(s, gen)
      && s.lineTail == TailOf(s.fed)
      && (gen == s.promptGen ==> ArmedNow(s) && run[..|run|] == run && QuietSince(sid, run, j, |run|))
  {
    RunTracked(sid, run);
    TrackedConfirms(After(sid, run), gen);
    j := 0;
    WholePrefix(run);
    if gen == After(sid, run).promptGen {
      j := PendingIsQuiet(sid, run, |run|);
    }
  }
}
