/** The coordinator itself (internal/gateway/coordinator.go): each method is one critical section,
or a helper run inside one, and does exactly what the corresponding function of the model says. */
module Coordination {
  import opened Basics
  import opened Gateway
  import Command
  import ManagedCommand
  import Marker
  import Protocol
  import Secret
  import Session
  import Transcript

  datatype Error =
    | TransportActive
    | NotConnected
    | NotReady
    | NotReconnecting
    | HumanSelectionRequired
    | CommandActive
    | ResultWaiterLimit
    | WriteFailed
    | Refused(reason: Command.Error)

  /** Where the last line break of `s` is, or -1. */
  method LastBreak(s: Bytes) returns (i: int)
    ensures -1 <= i < |s|
    ensures i >= 0 ==> IsBreak(s[i])
    ensures forall j :: i < j < |s| ==> !IsBreak(s[j])
  {
    i := |s| - 1;
    while i >= 0 && !IsBreak(s[i])
      invariant -1 <= i < |s|
      invariant forall j :: i < j < |s| ==> !IsBreak(s[j])
    {
      i := i - 1;
    }
  }

  lemma AfterKnownBreak(s: Bytes, i: int)
    requires -1 <= i < |s| && (i >= 0 ==> IsBreak(s[i]))
    requires forall j :: i < j < |s| ==> !IsBreak(s[j])
    ensures AfterLastBreak(s) == s[i + 1..]
  {
    if i >= 0 {
      Snoc(s, i);
      AfterSnoc(s[..i], s[i]);
    }
    AfterUnbroken(s, i + 1, |s|);
    WholePrefix(s);
  }

  /** The new tail in terms of where the chunk's last line break is. */
  lemma TailFrom(tail: Bytes, chunk: Bytes, i: int)
    requires -1 <= i < |chunk| && (i >= 0 ==> IsBreak(chunk[i]))
    requires forall j :: i < j < |chunk| ==> !IsBreak(chunk[j])
    ensures AdvanceLineTail(tail, chunk) == LastBytes(if i >= 0 then chunk[i + 1..] else tail + chunk)
  {
    AfterKnownBreak(chunk, i);
    assert HasBreak(chunk) <==> i >= 0;
  }

  /** Bytes without a break after a line start are the line. */
  lemma {:induction false} AfterUnbroken(s: Bytes, a: nat, n: nat)
    requires a <= n <= |s| && AfterLastBreak(s[..a]) == [] && forall j :: a <= j < n ==> !IsBreak(s[j])
    ensures AfterLastBreak(s[..n]) == s[a..n]
    decreases n
  {
    if a < n {
      AfterUnbroken(s, a, n - 1);
      Snoc(s, n - 1);
      AfterSnoc(s[..n - 1], s[n - 1]);
      SliceSnoc(s, a, n - 1);
    }
  }

  lemma SliceSnoc(s: Bytes, a: nat, n: nat)
    requires a <= n < |s|
    ensures s[a..n + 1] == s[a..n] + [s[n]]
  {
  }

  lemma AfterSnoc(x: Bytes, c: Byte)
    ensures AfterLastBreak(x + [c]) == if IsBreak(c) then [] else AfterLastBreak(x) + [c]
  {
    assert (x + [c])[..|x|] == x;
  }

  method MatchesSecretPrompt(cfg: Protocol.LoginConfig, b: Bytes) returns (found: bool)
    ensures found <==> SecretPromptMatches(cfg, b)
  {
    if Protocol.Matches(cfg.passwordPrompt, b) {
      return true;
    }
    for i := 0 to |cfg.secretPrompts|
      invariant forall j :: 0 <= j < i ==> !Protocol.Matches(cfg.secretPrompts[j], b)
    {
      if Protocol.Matches(cfg.secretPrompts[i], b) {
        return true;
      }
    }
    return false;
  }

  /** What the registering section of a wait tells its caller. */
  datatype Wait = Done(result: Command.Result) | Blocked(wake: ChanId) | TooMany

  /** The goroutines, timers and channels around the coordinator, and its history. */
  datatype Env = Env(
    reader: Reader,
    promptTimers: map<nat, Armed>,
    authTimers: set<nat>,
    calls: map<CallId, Call>,
    closed: set<ChanId>,
    trail: Protocol.Trail,
    taken: seq<Secret.Read>,
    fed: Bytes,
    arrivals: nat,
    spans: map<Id, Span>,
    used: set<Id>)

  /** What the goroutine about to enter a section carries in its own variables. */
  datatype Locals = Locals(raw: Bytes, tx: Id, wake: ChanId)

  ghost predicate Holds(s: State, e: Event, held: Locals)
    requires Enabled(s, e)
  {
    && (e.EvOnData? ==> s.reader == Holding(held.raw))
    && (e.EvWaitCancel? ==> s.calls[e.call] == Call(held.tx, held.wake))
  }

  /** Sections the human or the AI asks for, as opposed to those of goroutines and timers. */
  predicate Operation(e: Event) {
    || e.EvStart? || e.EvRetry? || e.EvPropose? || e.EvEdit? || e.EvReject? || e.EvApprove? || e.EvDiagnose?
    || e.EvConfirmReady? || e.EvTakeover? || e.EvBeginSecret? || e.EvEndSecret? || e.EvShutdown? || e.EvStop?
  }

  /** Sections of a call waiting for a result. */
  predicate OfCall(e: Event) {
    e.EvWaitRegister? || e.EvWaitCancel? || e.EvWaitReturn?
  }

  class Coordinator {
    const sess: Session.Machine
    const commands: Command.Store
    const ring: Transcript.Ring
    const secretW: Secret.Window

    var stream: Option<StreamId>
    var loginCfg: Protocol.LoginConfig
    var opener: bool
    var usernameSent: bool
    var manualReady: bool
    var resyncPending: bool
    var lineTail: Bytes
    var rebootSuspect: bool
    var promptGen: nat
    var authRetries: nat
    var authGen: nat
    var act: Option<Active>
    var resultWaiters: map<Id, Waiter>
    var nextChan: ChanId // the next wake channel to be made

    ghost var env: Env

    ghost predicate Valid()
      reads ring, ring.buf
    {
      ring.Valid() && ring.buf.Length == RING_CAPACITY
    }

    ghost function Snap(): State
      reads this, sess, commands, ring, secretW
    {
      State(
        sess.View(), commands.View(), ring.log, secretW.active, stream, loginCfg, opener, usernameSent, manualReady,
        resyncPending, lineTail, rebootSuspect, promptGen, authRetries, authGen, act, resultWaiters,
        env.reader, env.promptTimers, env.authTimers, env.calls, env.closed, nextChan,
        env.trail, env.taken, env.fed, env.arrivals, env.spans, env.used)
    }

    constructor (sid: Id)
      ensures Valid() && Snap() == Init(sid)
      ensures fresh(sess) && fresh(commands) && fresh(ring) && fresh(ring.buf) && fresh(secretW)
    {
      sess := new Session.Machine(sid);
      commands := new Command.Store();
      ring := new Transcript.Ring(RING_CAPACITY);
      secretW := new Secret.Window();
      stream, loginCfg, opener := None, Protocol.NO_LOGIN, false;
      usernameSent, manualReady, resyncPending := false, false, false;
      lineTail, rebootSuspect, promptGen := [], false, 0;
      authRetries, authGen := 0, 0;
      act, resultWaiters, nextChan := None, map[], 0;
      env := Env(NoReader, map[], {}, map[], {}, Protocol.NewTrail(sid), [], [], 0, map[], {sid});
    }

    // ---- Helpers that run under the lock ----

    method StopAuthRetry()
      modifies this`authGen, this`authRetries
      ensures Snap() == old(Snap()).(authGen := old(authGen) + 1, authRetries := 0)
    {
      authGen := authGen + 1;
      authRetries := 0;
    }

    method ClearTail()
      modifies this`lineTail, this`env
      ensures Snap() == Gateway.ClearTail(old(Snap()))
    {
      lineTail := [];
      env := env.(fed := []);
    }

    method ResetPromptState()
      modifies this`promptGen, this`authGen, this`authRetries, this`lineTail, this`rebootSuspect, this`env
      ensures Snap() == Gateway.ResetPromptState(old(Snap()))
    {
      promptGen := promptGen + 1;
      StopAuthRetry();
      ClearTail();
      rebootSuspect := false;
    }

    method ArmAuthRetry()
      modifies this`authGen, this`env
      ensures Snap() == Gateway.ArmAuthRetry(old(Snap()))
    {
      if stream == None || secretW.active {
        return;
      }
      if authRetries >= Protocol.AuthRetryLimit(loginCfg) {
        return;
      }
      authGen := authGen + 1;
      env := env.(authTimers := env.authTimers + {authGen});
    }

    method ArmPromptConfirm()
      modifies this`env
      ensures Snap() == Gateway.ArmPromptConfirm(old(Snap()))
    {
      if !Protocol.Matches(loginCfg.shellPrompt, lineTail) {
        return;
      }
      env := env.(promptTimers := env.promptTimers[promptGen := Armed(lineTail, env.arrivals)]);
    }

    method AdvanceTail(chunk: Bytes)
      modifies this`lineTail
      ensures lineTail == AdvanceLineTail(old(lineTail), chunk)
    {
      var i := LastBreak(chunk);
      TailFrom(lineTail, chunk, i);
      var tail := if i >= 0 then chunk[i + 1..] else lineTail + chunk;
      var n := |tail|;
      if n > MAX_LINE_TAIL {
        tail := tail[n - MAX_LINE_TAIL..];
      }
      lineTail := tail;
    }

    method FinishActiveLocked(status: Command.Status, exitCode: Option<int>, now: int)
      requires Valid()
      modifies this`act, this`resultWaiters, this`env, commands
      ensures old(act) == None ==> Snap() == old(Snap())
      ensures old(act).Some? ==> Snap() == FinishActive(old(Snap()), old(act).value, status, exitCode, now)
    {
      if act == None {
        return;
      }
      var a := act.value;
      StoreResult(a, status, exitCode, now);
      env := env.(
        spans := env.spans[a.tx.id := Span(a.startSeq, |ring.log|, a.marker)],
        trail := Protocol.See(env.trail, Protocol.Finished(a.tx.id, status, now)));
      WakeWaiters(a.tx.id);
      act := None;
    }

    method StoreResult(a: Active, status: Command.Status, exitCode: Option<int>, now: int)
      requires Valid()
      modifies commands
      ensures Snap() == old(Snap()).(
        records := Command.CompletedIn(old(Snap()).records, ResultOf(old(Snap()), a, status, exitCode, now)))
    {
      var chunk := ring.ReadAfter(a.startSeq, MAX_OUTPUT);
      var res := Command.Result(
        a.tx.id, a.tx.sourceProposalId, status, exitCode, now - a.tx.approvedAt, chunk.data, chunk.gap, now);
      var _ := commands.CompleteTransaction(res);
    }

    method WakeWaiters(tx: Id)
      modifies this`resultWaiters, this`env
      ensures Snap() == old(Snap()).(
        resultWaiters := old(resultWaiters) - {tx},
        closed := if tx in old(resultWaiters) then old(env).closed + {old(resultWaiters)[tx].wake} else old(env).closed)
    {
      if tx in resultWaiters {
        var waiter := resultWaiters[tx];
        resultWaiters := resultWaiters - {tx};
        env := env.(closed := env.closed + {waiter.wake});
      }
    }

    method SettleSession()
      modifies sess
      ensures Snap() == old(Snap()).(sess := Settled(old(Snap()).sess))
    {
      if sess.state == Session.RunningCommand {
        var _ := sess.Apply(Session.CommandResult, sess.sessionId);
      }
    }

    method ApplyEvent(e: Session.Event)
      modifies sess
      ensures Snap() == Gateway.Apply(old(Snap()), e)
    {
      var _ := sess.Apply(e, sess.sessionId);
    }

    ghost method Emit(o: Protocol.Obs)
      modifies this`env
      ensures Snap() == Gateway.Emit(old(Snap()), o)
    {
      env := env.(trail := Protocol.See(env.trail, o));
    }

    method AuthPromptAtLineEnd() returns (found: bool)
      ensures found <==> Gateway.AuthPromptAtLineEnd(Snap())
    {
      if Protocol.Matches(loginCfg.loginPrompt, lineTail) {
        return true;
      }
      return Protocol.Matches(loginCfg.passwordPrompt, lineTail);
    }

    method HandleAuthenticating()
      modifies this`usernameSent, this`lineTail, this`env, this`authGen
      ensures Snap() == Gateway.HandleAuthenticating(old(Snap()))
    {
      if !usernameSent && Protocol.Matches(loginCfg.loginPrompt, lineTail) {
        AnswerLogin();
      }
      ArmAuthRetry();
    }

    method AnswerLogin()
      modifies this`usernameSent, this`lineTail, this`env
      ensures Snap() == Gateway.AnswerLogin(old(Snap()))
    {
      if stream != None {
        Emit(Protocol.UsernameSent(lineTail));
      }
      usernameSent := true;
      ClearTail();
    }

    method ClearSuspicion()
      modifies this`rebootSuspect
      ensures Snap() == old(Snap()).(rebootSuspect := false)
    {
      rebootSuspect := false;
    }

    method HandleMarker(now: int)
      requires Valid()
      modifies this`rebootSuspect, this`act, this`resultWaiters, this`env, commands, sess
      ensures Snap() == Gateway.HandleMarker(old(Snap()), now)
    {
      if act == None {
        return;
      }
      var tail := ring.ReadAfter(act.value.startSeq, MARKER_SCAN);
      var code := Marker.Find(act.value.marker, tail.data);
      if code == None {
        return;
      }
      ClearSuspicion();
      FinishActiveLocked(Command.Completed, code, now);
      ApplyEvent(Session.CommandResult);
    }

    method HandleTargetReboot(now: int)
      requires Valid()
      modifies this`usernameSent, this`manualReady, this`resyncPending, this`rebootSuspect, this`act,
        this`resultWaiters, this`env, commands, sess, secretW
      ensures Snap() == Gateway.HandleTargetReboot(old(Snap()), now)
    {
      FinishActiveLocked(Command.TargetRebooted, None, now);
      EnterReboot();
    }

    method EnterReboot()
      modifies this`usernameSent, this`manualReady, this`resyncPending, this`rebootSuspect, this`env, commands, sess, secretW
      ensures Snap() == Gateway.EnterReboot(old(Snap()))
    {
      Invalidate();
      ApplyEvent(Session.TargetRebooted);
      ForgetLogin();
      ForgetTimeout();
      EndWindow();
      Emit(Protocol.Rebooted);
    }

    method Invalidate()
      modifies commands
      ensures Snap() == old(Snap()).(records := Command.Invalidated(old(Snap()).records, old(Snap()).sess.id))
    {
      commands.InvalidateSession(sess.sessionId);
    }

    method EndWindow()
      modifies secretW
      ensures Snap() == old(Snap()).(secret := false)
    {
      if secretW.active {
        secretW.Finish();
      }
    }

    method ForgetLogin()
      modifies this`usernameSent, this`manualReady
      ensures Snap() == old(Snap()).(usernameSent := false, manualReady := false)
    {
      usernameSent := false;
      manualReady := false;
    }

    method ForgetTimeout()
      modifies this`resyncPending, this`rebootSuspect
      ensures Snap() == old(Snap()).(resyncPending := false, rebootSuspect := false)
    {
      resyncPending := false;
      rebootSuspect := false;
    }

    // ---- Starting, retrying and ending ----

    method InstallStream(newStream: StreamId, event: Session.Event, sid: Id)
      modifies this`stream, this`usernameSent, this`manualReady, this`resyncPending, this`promptGen, this`authGen,
        this`authRetries, this`lineTail, this`rebootSuspect, this`env, sess
      ensures Snap() == Gateway.InstallStream(old(Snap()), newStream, event, sid)
    {
      Attach(newStream);
      ResetPromptState();
      RotateSession(event, sid);
      ApplyEvent(Session.TransportReady);
      Emit(Protocol.Opened(sid, loginCfg));
    }

    method Attach(newStream: StreamId)
      modifies this`stream, this`usernameSent, this`manualReady, this`resyncPending
      ensures Snap() == old(Snap()).(
        stream := Some(newStream), usernameSent := false, manualReady := false, resyncPending := false)
    {
      stream := Some(newStream);
      ForgetLogin();
      resyncPending := false;
    }

    method RotateSession(event: Session.Event, sid: Id)
      modifies this`env, sess
      ensures Snap() == old(Snap()).(
        sess := Session.Applied(old(Snap()).sess, event, sid), used := old(Snap()).used + {sid}, reader := Reading)
    {
      var _ := sess.Apply(event, sid);
      env := env.(used := env.used + {sid}, reader := Reading);
    }

    method BeginAuthentication(alreadyAuthenticated: bool)
      modifies this`authGen, this`env, sess
      ensures Snap() == Gateway.BeginAuthentication(old(Snap()), alreadyAuthenticated)
    {
      if alreadyAuthenticated {
        ApplyEvent(Session.Authenticated);
      } else {
        ArmAuthRetry();
      }
    }

    method Start(newStream: StreamId, cfg: Protocol.LoginConfig, hasOpener: bool, alreadyAuthenticated: bool, sid: Id)
      returns (err: Option<Error>)
      modifies this, sess
      ensures Snap() == Gateway.Start(old(Snap()), newStream, cfg, hasOpener, alreadyAuthenticated, sid)
      ensures err == if old(stream).Some? then Some(TransportActive) else None
    {
      if stream != None {
        return Some(TransportActive);
      }
      Abandon();
      Configure(cfg, hasOpener);
      InstallStream(newStream, Session.Connect, sid);
      BeginAuthentication(alreadyAuthenticated);
      return None;
    }

    method Configure(cfg: Protocol.LoginConfig, hasOpener: bool)
      modifies this`loginCfg, this`opener
      ensures Snap() == old(Snap()).(cfg := cfg, opener := hasOpener)
    {
      loginCfg := cfg;
      opener := hasOpener;
    }

    method Abandon()
      modifies sess
      ensures Snap() == old(Snap()).(sess := Abandoned(old(Snap()).sess))
    {
      if sess.state == Session.Reconnecting {
        ApplyEvent(Session.Shutdown);
      }
    }

    /** The first section of a retry: may the opener be asked for a new stream? */
    method MayRetry() returns (err: Option<Error>)
      ensures err == None <==> Gateway.MayRetry(Snap())
      ensures err == Some(NotReconnecting) <==> sess.state != Session.Reconnecting
    {
      if sess.state != Session.Reconnecting {
        return Some(NotReconnecting);
      }
      if !opener {
        return Some(HumanSelectionRequired);
      }
      return None;
    }

    /** The second section, with the stream the opener delivered. */
    method Retry(newStream: StreamId, alreadyAuthenticated: bool, sid: Id) returns (err: Option<Error>)
      modifies this, sess
      ensures Snap() == Gateway.Retry(old(Snap()), newStream, alreadyAuthenticated, sid)
      ensures err == None <==> old(sess.state) == Session.Reconnecting
    {
      if sess.state != Session.Reconnecting {
        return Some(NotReconnecting);
      }
      InstallStream(newStream, Session.HumanRetry, sid);
      BeginAuthentication(alreadyAuthenticated);
      return None;
    }

    /** The last section of ending a session. */
    method Shutdown()
      modifies sess
      ensures Snap() == Gateway.Shutdown(old(Snap()))
    {
      ApplyEvent(Session.Shutdown);
    }

    method Stop(now: int)
      requires Valid()
      modifies this, commands
      ensures Snap() == Gateway.Stop(old(Snap()), now)
    {
      FinishActiveLocked(Command.DaemonRestarted, None, now);
      HangUp();
      ResetPromptState();
      Emit(Protocol.Stopped);
    }

    // ---- Proposals and transactions ----

    method Propose(session: Id, text: Bytes, timeout: int, now: int, pid: Id) returns (err: Option<Command.Error>)
      modifies this`env, commands
      ensures Snap() == Gateway.Propose(old(Snap()), session, text, timeout, now, pid)
      ensures err == None <==> ManagedCommand.Managed(text)
    {
      err := commands.Propose(pid, session, text, timeout, now);
      env := env.(used := env.used + {pid});
    }

    method Edit(pid: Id, text: Bytes, now: int, next: Id) returns (err: Option<Command.Error>)
      modifies this`env, commands
      ensures Snap() == Gateway.Edit(old(Snap()), pid, text, now, next)
      ensures err == None <==> ManagedCommand.Managed(text) && Command.IsPending(old(Snap()).records, pid)
    {
      err := commands.Edit(pid, text, now, next);
      env := env.(used := env.used + {next});
    }

    method Reject(pid: Id) returns (err: Option<Command.Error>)
      modifies commands
      ensures Snap() == Gateway.Reject(old(Snap()), pid)
      ensures err == None <==> Command.IsPending(old(Snap()).records, pid)
    {
      err := commands.Reject(pid);
    }

    method CanStart() returns (err: Option<Error>)
      ensures err == None <==> Gateway.CanStart(Snap())
    {
      if stream == None {
        return Some(NotConnected);
      }
      if sess.state != Session.Ready || secretW.active || resyncPending {
        return Some(NotReady);
      }
      if act != None {
        return Some(CommandActive);
      }
      return None;
    }

    method Launch(a: Active)
      modifies this`act, this`env, sess
      ensures Snap() == Gateway.Launch(old(Snap()), a)
    {
      act := Some(a);
      ApplyEvent(Session.CommandStart);
      var line := a.tx.text + Marker.ShellSuffix(a.marker) + "\n";
      Emit(Protocol.CommandLine(a.tx, a.marker, line, a.deadline));
    }

    method StartTransaction(tx: Command.Transaction, nonce: Bytes, now: int, writeOk: bool) returns (err: Option<Error>)
      requires Valid()
      modifies this`act, this`resultWaiters, this`env, commands, sess
      ensures Snap() == Gateway.StartTransaction(old(Snap()), tx, nonce, now, writeOk)
      ensures err == if writeOk then None else Some(WriteFailed)
    {
      var start := ring.Len();
      var a := Active(tx, Marker.Marker(tx.id, nonce), now + tx.timeout, start);
      Launch(a);
      if writeOk {
        return None;
      }
      FinishActiveLocked(Command.Disconnected, None, now);
      SettleSession();
      return Some(WriteFailed);
    }

    method ApproveAndStart(pid: Id, now: int, txId: Id, nonce: Bytes, writeOk: bool) returns (err: Option<Error>)
      requires Valid()
      modifies this`act, this`resultWaiters, this`env, commands, sess
      ensures Snap() == Gateway.ApproveAndStart(old(Snap()), pid, now, txId, nonce, writeOk)
      ensures err == None <==> Command.Approvable(old(Snap()).records, pid, now) && writeOk
      ensures err == Some(WriteFailed) <==> Command.Approvable(old(Snap()).records, pid, now) && !writeOk
    {
      var refused := commands.Approve(pid, now, txId);
      env := env.(used := env.used + {txId});
      if refused != None {
        return Some(Refused(refused.value));
      }
      err := StartTransaction(commands.transactions[txId], nonce, now, writeOk);
    }

    method Approve(pid: Id, now: int, txId: Id, nonce: Bytes, writeOk: bool) returns (err: Option<Error>)
      requires Valid()
      modifies this`act, this`resultWaiters, this`env, commands, sess
      ensures Snap() == Gateway.Approve(old(Snap()), pid, now, txId, nonce, writeOk)
      ensures err == None <==>
        Gateway.CanStart(old(Snap())) && Command.Approvable(old(Snap()).records, pid, now) && writeOk
    {
      err := CanStart();
      if err != None {
        return;
      }
      err := ApproveAndStart(pid, now, txId, nonce, writeOk);
    }

    method DiagnoseStart(session: Id, text: Bytes, timeout: int, created: int, now: int, pid: Id, txId: Id, nonce: Bytes, writeOk: bool)
      returns (err: Option<Error>)
      requires Valid()
      modifies this`act, this`resultWaiters, this`env, commands, sess
      ensures Snap() == Gateway.DiagnoseStart(old(Snap()), session, text, timeout, created, now, pid, txId, nonce, writeOk)
    {
      err := CanStart();
      if err != None {
        return;
      }
      if session != sess.sessionId {
        return Some(NotReady);
      }
      var refused := commands.Propose(pid, session, text, timeout, created);
      if refused != None {
        return Some(Refused(refused.value));
      }
      env := env.(used := env.used + {pid});
      err := ApproveAndStart(pid, now, txId, nonce, writeOk);
      if err != None && err.value.Refused? {
        var _ := Reject(pid);
      }
    }

    // ---- The human's operations ----

    method ConfirmSessionReady() returns (ok: bool)
      modifies this`manualReady, sess
      ensures Snap() == Gateway.ConfirmSessionReady(old(Snap()))
      ensures ok <==> old(sess.state) == Session.Authenticating
    {
      if sess.state != Session.Authenticating {
        return false;
      }
      manualReady := true;
      ApplyEvent(Session.Authenticated);
      return true;
    }

    method Takeover(now: int)
      requires Valid()
      modifies this`act, this`resultWaiters, this`env, commands, sess
      ensures Snap() == Gateway.Takeover(old(Snap()), now)
    {
      if act == None {
        return;
      }
      FinishActiveLocked(Command.InterruptedByUser, None, now);
      SettleSession();
    }

    method BeginSecret(now: int)
      modifies this`act, this`env, secretW
      ensures Snap() == Gateway.BeginSecret(old(Snap()), now)
    {
      secretW.Begin();
      if act != None {
        act := Some(act.value.(deadline := now + loginCfg.secretGracePeriod));
      }
      Emit(Protocol.SecretOpened(now + loginCfg.secretGracePeriod));
    }

    method EndSecret()
      modifies this`authGen, this`authRetries, this`env, sess, secretW
      ensures Snap() == Gateway.EndSecret(old(Snap()))
    {
      secretW.Finish();
      if sess.state == Session.Authenticating {
        StopAuthRetry();
        ApplyEvent(Session.Authenticated);
        Emit(Protocol.SecretEnded(true));
      } else {
        Emit(Protocol.SecretEnded(false));
      }
    }

    method AIEnabled() returns (enabled: bool)
      ensures enabled <==> Gateway.AIEnabled(Snap())
    {
      if secretW.active || resyncPending {
        return false;
      }
      return sess.state == Session.Ready || sess.state == Session.RunningCommand;
    }

    // ---- The reader ----

    method ReadChunk(raw: Bytes)
      requires Valid()
      modifies this`env, ring, ring.buf
      ensures Valid()
      ensures Snap() == Gateway.ReadChunk(old(Snap()), raw)
    {
      var stored := raw;
      if secretW.active {
        stored := secretW.FilterTarget(raw);
      }
      ring.Append(stored);
      env := env.(taken := env.taken + [Secret.Read(secretW.active, raw)], reader := Holding(raw));
    }

    method NoteArrival(chunk: Bytes)
      modifies this`promptGen, this`lineTail, this`rebootSuspect, this`env
      ensures Snap() == Gateway.NoteArrival(old(Snap()), chunk)
    {
      NoteBanner(lineTail + chunk, chunk);
      ExtendLine(chunk);
    }

    method ExtendLine(chunk: Bytes)
      modifies this`promptGen, this`lineTail, this`env
      ensures Snap() == Gateway.ExtendLine(old(Snap()), chunk)
    {
      promptGen := promptGen + 1;
      AdvanceTail(chunk);
      env := env.(fed := env.fed + chunk, arrivals := env.arrivals + 1);
    }

    method NoteBanner(scan: Bytes, chunk: Bytes)
      requires scan == lineTail + chunk
      modifies this`rebootSuspect, this`env
      ensures Snap() == Gateway.NoteBanner(old(Snap()), chunk)
    {
      if Protocol.Matches(loginCfg.bootBanner, scan)
        && (sess.state == Session.Ready || sess.state == Session.RunningCommand) {
        rebootSuspect := true;
        Emit(Protocol.BannerSeen(sess.state, scan));
      }
    }

    method OnData(chunk: Bytes, now: int)
      requires Valid()
      modifies this, sess, commands, secretW
      ensures Snap() == Gateway.OnData(old(Snap()), chunk, now)
    {
      NoteArrival(chunk);
      Respond(now);
    }

    method Respond(now: int)
      requires Valid()
      modifies this, sess, commands, secretW
      ensures Snap() == Gateway.Respond(old(Snap()), now)
    {
      var prompt := AuthPromptAtLineEnd();
      if rebootSuspect && sess.state != Session.Authenticating && prompt {
        RespondToReboot(now);
      } else {
        RespondToLine(now);
      }
    }

    method RespondToReboot(now: int)
      requires Valid()
      modifies this`usernameSent, this`manualReady, this`resyncPending, this`rebootSuspect, this`lineTail, this`authGen,
        this`act, this`resultWaiters, this`env, commands, sess, secretW
      ensures Snap() == Gateway.RespondToReboot(old(Snap()), now)
    {
      ClearSuspicion();
      Emit(Protocol.RebootPrompt(lineTail));
      HandleTargetReboot(now);
      HandleAuthenticating();
    }

    method RespondToLine(now: int)
      requires Valid()
      modifies this, sess, commands, secretW
      ensures Snap() == Gateway.RespondToLine(old(Snap()), now)
    {
      if secretW.active {
        ArmPromptConfirm();
        return;
      }
      var asks := MatchesSecretPrompt(loginCfg, lineTail);
      if asks {
        BeginSecret(now);
        ClearTail();
        return;
      }
      Progress(now);
      ArmPromptConfirm();
    }

    method Progress(now: int)
      requires Valid()
      modifies this, sess, commands
      ensures Snap() == Gateway.Progress(old(Snap()), now)
    {
      if sess.state == Session.Authenticating {
        HandleAuthenticating();
      } else if sess.state == Session.RunningCommand {
        HandleMarker(now);
      }
    }

    method OnReadError(failed: StreamId, now: int)
      requires Valid()
      modifies this, sess, commands
      ensures Snap() == Gateway.OnReadError(old(Snap()), failed, now)
    {
      if stream != Some(failed) {
        return;
      }
      FinishActiveLocked(Command.Disconnected, None, now);
      EnterLoss();
    }

    method EnterLoss()
      modifies this`stream, this`usernameSent, this`manualReady, this`env, sess, commands
      ensures Snap() == Gateway.EnterLoss(old(Snap()))
    {
      Invalidate();
      ApplyEvent(Session.TransportLost);
      stream := None;
      ForgetLogin();
      env := env.(reader := NoReader);
      Emit(Protocol.Lost);
    }

    // ---- Timers ----

    method ConfirmShellPrompt(gen: nat)
      modifies this`lineTail, this`rebootSuspect, this`resyncPending, this`env, sess, secretW
      ensures Snap() == Gateway.ConfirmShellPrompt(old(Snap()), gen)
    {
      if gen != promptGen {
        return;
      }
      if !Protocol.Matches(loginCfg.shellPrompt, lineTail) {
        return;
      }
      BelievePrompt();
    }

    method BelievePrompt()
      modifies this`lineTail, this`rebootSuspect, this`resyncPending, this`env, sess, secretW
      ensures Snap() == Gateway.BelievePrompt(old(Snap()))
    {
      Emit(Protocol.PromptConfirmed(lineTail));
      ClearTail();
      ForgetTimeout();
      EndWindow();
      if sess.state == Session.Authenticating {
        ApplyEvent(Session.Authenticated);
      }
    }

    method RetryAuth(gen: nat)
      modifies this`authRetries, this`usernameSent, this`authGen, this`env
      ensures Snap() == Gateway.RetryAuth(old(Snap()), gen)
    {
      if gen != authGen || sess.state != Session.Authenticating {
        return;
      }
      if stream == None || secretW.active {
        return;
      }
      if !Protocol.Matches(loginCfg.shellPrompt, lineTail) {
        Nudge();
      }
      ArmAuthRetry();
    }

    method Nudge()
      modifies this`authRetries, this`usernameSent, this`env
      ensures Snap() == Gateway.Nudge(old(Snap()))
    {
      authRetries := authRetries + 1;
      Emit(Protocol.Nudged(sess.state, lineTail));
      usernameSent := false;
    }

    method CheckTimeout(now: int)
      requires Valid()
      modifies this`act, this`resultWaiters, this`resyncPending, this`env, commands, sess
      ensures Snap() == Gateway.CheckTimeout(old(Snap()), now)
    {
      if act == None || now < act.value.deadline {
        return;
      }
      if stream != None {
        Emit(Protocol.Interrupted);
      }
      ExpireActive(now);
      if loginCfg.shellPrompt.None? {
        HangUp();
      }
    }

    method ExpireActive(now: int)
      requires Valid() && act.Some?
      modifies this`act, this`resultWaiters, this`resyncPending, this`env, commands, sess
      ensures Snap() == Gateway.ExpireActive(old(Snap()), old(act).value, now)
    {
      FinishActiveLocked(Command.Timeout, None, now);
      SettleSession();
      resyncPending := true;
    }

    /** Closes the stream, if there is one; its reader will see the error. */
    method HangUp()
      modifies this`env
      ensures Snap() == Gateway.HangUp(old(Snap()))
    {
      if stream != None {
        Emit(Protocol.HungUp);
      }
    }

    // ---- Waiting for a result ----

    /** The registering section of a wait, for call `call`. */
    method WaitRegister(ghost call: CallId, tx: Id) returns (r: Wait)
      modifies this`resultWaiters, this`nextChan, this`env
      ensures Snap() == Gateway.WaitRegister(old(Snap()), call, tx)
      ensures r == (
        if tx in commands.results then Done(commands.results[tx])
        else if tx in Snap().resultWaiters then Blocked(Snap().resultWaiters[tx].wake)
        else TooMany)
    {
      if tx in commands.results {
        return Done(commands.results[tx]);
      }
      if tx !in resultWaiters && |resultWaiters| >= MAX_RESULT_WAITERS {
        return TooMany;
      }
      var waiter;
      if tx in resultWaiters {
        waiter := resultWaiters[tx];
      } else {
        waiter := Waiter(nextChan, 0);
        nextChan := nextChan + 1;
      }
      resultWaiters := resultWaiters[tx := waiter.(refs := waiter.refs + 1)];
      env := env.(calls := env.calls[call := Call(tx, waiter.wake)]);
      return Blocked(waiter.wake);
    }

    /** The call's context ended before its channel was closed. */
    method WaitCancel(ghost call: CallId, tx: Id, wake: ChanId)
      requires call in env.calls && env.calls[call] == Call(tx, wake)
      modifies this`resultWaiters, this`env
      ensures Snap() == Gateway.WaitCancel(old(Snap()), call)
    {
      if tx in resultWaiters && resultWaiters[tx].wake == wake {
        var waiter := resultWaiters[tx];
        if waiter.refs - 1 == 0 {
          resultWaiters := resultWaiters - {tx};
        } else {
          resultWaiters := resultWaiters[tx := waiter.(refs := waiter.refs - 1)];
        }
      }
      env := env.(calls := env.calls - {call});
    }

    /** The call found its channel closed and reads the result. */
    method WaitReturn(ghost call: CallId)
      modifies this`env
      ensures Snap() == Gateway.WaitReturn(old(Snap()), call)
    {
      env := env.(calls := env.calls - {call});
    }

    // ---- Any section ----

    ghost method SetEnv(e: Env)
      modifies this`env
      ensures env == e
    {
      env := e;
    }

    method PerformOperation(e: Event)
      requires Valid() && Enabled(Snap(), e) && Operation(e)
      modifies this, sess, commands, secretW
      ensures Snap() == Step(old(Snap()), e)
    {
      match e {
        case EvStart(newStream, cfg, hasOpener, auth, sid) => var _ := Start(newStream, cfg, hasOpener, auth, sid);
        case EvRetry(newStream, auth, sid) => var _ := Retry(newStream, auth, sid);
        case EvPropose(session, text, timeout, now, pid) => var _ := Propose(session, text, timeout, now, pid);
        case EvEdit(pid, text, now, next) => var _ := Edit(pid, text, now, next);
        case EvReject(pid) => var _ := Reject(pid);
        case EvApprove(pid, now, txId, nonce, ok) => var _ := Approve(pid, now, txId, nonce, ok);
        case EvDiagnose(session, text, timeout, created, now, pid, txId, nonce, ok) =>
          var _ := DiagnoseStart(session, text, timeout, created, now, pid, txId, nonce, ok);
        case EvConfirmReady => var _ := ConfirmSessionReady();
        case EvTakeover(now) => Takeover(now);
        case EvBeginSecret(now) => BeginSecret(now);
        case EvEndSecret => EndSecret();
        case EvShutdown => Shutdown();
        case EvStop(now) => Stop(now);
      }
    }

    method PerformBackground(e: Event, held: Locals)
      requires Valid() && Enabled(Snap(), e) && !Operation(e) && !OfCall(e) && Holds(Snap(), e, held)
      modifies this, sess, commands, ring, ring.buf, secretW
      ensures Valid() && Snap() == Step(old(Snap()), e)
    {
      match e {
        case EvReadChunk(raw) => ReadChunk(raw);
        case EvOnData(now) => HandleHeld(held.raw, now);
        case EvReadError(failed, now) => OnReadError(failed, now);
        case EvPromptTimer(gen) => FirePromptTimer(gen);
        case EvAuthTimer(gen) => FireAuthTimer(gen);
        case EvTick(now) => CheckTimeout(now);
      }
    }

    /** The reader hands over the chunk it holds and goes back to reading. */
    method HandleHeld(raw: Bytes, now: int)
      requires Valid()
      modifies this, sess, commands, secretW
      ensures Snap() == Gateway.OnData(old(Snap()).(reader := Reading), raw, now)
    {
      SetEnv(env.(reader := Reading));
      OnData(raw, now);
    }

    method FirePromptTimer(gen: nat)
      modifies this`lineTail, this`rebootSuspect, this`resyncPending, this`env, sess, secretW
      ensures Snap() == Gateway.ConfirmShellPrompt(
        old(Snap()).(promptTimers := old(Snap()).promptTimers - {gen}), gen)
    {
      SetEnv(env.(promptTimers := env.promptTimers - {gen}));
      ConfirmShellPrompt(gen);
    }

    method FireAuthTimer(gen: nat)
      modifies this`authRetries, this`usernameSent, this`authGen, this`env
      ensures Snap() == Gateway.RetryAuth(old(Snap()).(authTimers := old(Snap()).authTimers - {gen}), gen)
    {
      SetEnv(env.(authTimers := env.authTimers - {gen}));
      RetryAuth(gen);
    }

    method PerformCall(e: Event, held: Locals)
      requires Enabled(Snap(), e) && OfCall(e) && Holds(Snap(), e, held)
      modifies this`resultWaiters, this`nextChan, this`env
      ensures Snap() == Step(old(Snap()), e)
    {
      match e {
        case EvWaitRegister(call, tx) => var _ := WaitRegister(call, tx);
        case EvWaitCancel(call) => WaitCancel(call, held.tx, held.wake);
        case EvWaitReturn(call) => WaitReturn(call);
      }
    }

    /** Whatever section runs next, the coordinator takes one step of the model. */
    method Perform(e: Event, held: Locals)
      requires Valid() && Enabled(Snap(), e) && Holds(Snap(), e, held)
      modifies this, sess, commands, ring, ring.buf, secretW
      ensures Valid() && Snap() == Step(old(Snap()), e)
    {
      if Operation(e) {
        PerformOperation(e);
      } else if OfCall(e) {
        PerformCall(e, held);
      } else {
        PerformBackground(e, held);
      }
    }
  }

  /** `held[i]` is what the goroutine entering the section `run[i]` carries. */
  ghost predicate Carried(sid: Id, run: seq<Event>, held: seq<Locals>)
    requires Possible(sid, run) && |held| == |run|
  {
    forall i :: 0 <= i < |run| ==> CarriedAt(sid, run, held, i)
  }

  ghost predicate CarriedAt(sid: Id, run: seq<Event>, held: seq<Locals>, i: nat)
    requires |held| == |run| && i < |run|
  {
    Possible(sid, run[..i]) && Enabled(After(sid, run[..i]), run[i]) ==>
      Holds(After(sid, run[..i]), run[i], held[i])
  }

  /** A coordinator put through any run is in the state the model gives that run, so everything
      proved of reachable states holds of it. */
  method Drive(sid: Id, run: seq<Event>, held: seq<Locals>) returns (c: Coordinator)
    requires Possible(sid, run) && |held| == |run| && Carried(sid, run, held)
    ensures c.Valid() && c.Snap() == After(sid, run)
  {
    c := new Coordinator(sid);
    for i := 0 to |run|
      invariant c.Valid() && Possible(sid, run[..i]) && c.Snap() == After(sid, run[..i])
      invariant fresh(c) && fresh(c.sess) && fresh(c.commands) && fresh(c.ring) && fresh(c.ring.buf) && fresh(c.secretW)
    {
      NextEnabled(sid, run, i);
      assert CarriedAt(sid, run, held, i);
      c.Perform(run[i], held[i]);
    }
    assert run[..|run|] == run;
  }
}
