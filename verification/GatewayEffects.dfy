/** What each section must do, field by field: which prompt opens the window, what a confirmed prompt
restores, that an overdue command times out, and so on. Everything here is said of plain fields and of
the trace, so that it can be compared with the source without reading the section's own definition. */
module GatewayEffects {
  import opened Basics
  import opened Gateway
  import opened GatewayLedger
  import opened GatewayStatus
  import Command
  import ManagedCommand
  import Marker
  import Protocol
  import GatewayJobs
  import GatewayPrompt
  import GatewayResults
  import GatewayTrace
  import Secret
  import Session

  // ---- Recording a result ----

  /** The result of the transaction `a`, active in `s`, is stored in `t`, and nothing else is started,
      forgotten or decided. */
  ghost predicate Recorded(s: State, t: State, a: Active, status: Command.Status, code: Option<int>, now: int) {
    && t.act == None
    && a.tx.id !in s.records.results && a.tx.id in t.records.results
    && t.records.transactions == s.records.transactions
    && var r := t.records.results[a.tx.id];
       r.transactionId == a.tx.id && r.sourceProposalId == a.tx.sourceProposalId
       && r.status == status && r.exitCode == code
       && r.duration == now - a.tx.approvedAt && r.completedAt == now
  }

  lemma FinishRecords(s: State, a: Active, status: Command.Status, code: Option<int>, now: int)
    requires s.act == Some(a) && ActiveOk(s.records, a)
    ensures var f := FinishActive(s, a, status, code, now);
      && Recorded(s, f, a, status, code, now)
      && f.records.proposals == s.records.proposals
      && f.trail.trace == s.trail.trace + [Protocol.Finished(a.tx.id, status, now)]
  {
  }

  /** The session after a command has ended in it. */
  function Rested(sess: Session.Session): Session.Session {
    if sess.state == Session.RunningCommand then Session.Session(Session.Ready, sess.id) else sess
  }

  lemma SettledRests(sess: Session.Session)
    ensures Settled(sess) == Rested(sess)
  {
  }

  // ---- Timeouts ----

  /** A tick before the deadline, or with nothing active, does nothing. */
  lemma EarlyTick(s: State, now: int)
    requires s.act.Some? ==> now < s.act.value.deadline
    ensures CheckTimeout(s, now) == s
  {
  }

  ghost predicate TimedOut(s: State, t: State, a: Active, now: int) {
    && Recorded(s, t, a, Command.Timeout, None, now)
    && t.records.proposals == s.records.proposals
    && t.resyncPending
    && t.sess == Rested(s.sess)
    && t.stream == s.stream && t.secret == s.secret && t.lineTail == s.lineTail
    && t.trail.trace == s.trail.trace
         + (if s.stream.Some? then [Protocol.Interrupted] else [])
         + [Protocol.Finished(a.tx.id, Command.Timeout, now)]
         + (if s.stream.Some? && s.cfg.shellPrompt.None? then [Protocol.HungUp] else [])
  }

  lemma InterruptTrace(s: State)
    ensures InterruptTarget(s).trail.trace == s.trail.trace + (if s.stream.Some? then [Protocol.Interrupted] else [])
  {
  }

  lemma LeaveTrace(s: State)
    ensures LeavePromptless(s).trail.trace
         == s.trail.trace + (if s.stream.Some? && s.cfg.shellPrompt.None? then [Protocol.HungUp] else [])
  {
  }

  lemma ExpireRecords(s: State, a: Active, now: int)
    requires s.act == Some(a) && ActiveOk(s.records, a)
    ensures var x := ExpireActive(s, a, now);
      && Recorded(s, x, a, Command.Timeout, None, now)
      && x.records.proposals == s.records.proposals && x.resyncPending && x.sess == Rested(s.sess)
      && x.stream == s.stream && x.cfg == s.cfg && x.secret == s.secret && x.lineTail == s.lineTail
      && x.trail.trace == s.trail.trace + [Protocol.Finished(a.tx.id, Command.Timeout, now)]
  {
    FinishRecords(s, a, Command.Timeout, None, now);
    SettledRests(s.sess);
  }

  /** An overdue command times out, whatever is configured. */
  lemma LateTick(s: State, now: int)
    requires s.act.Some? && s.act.value.deadline <= now && ActiveOk(s.records, s.act.value)
    ensures TimedOut(s, CheckTimeout(s, now), s.act.value, now)
  {
    var i := InterruptTarget(s);
    InterruptTrace(s);
    ExpireRecords(i, s.act.value, now);
    LeaveTrace(ExpireActive(i, s.act.value, now));
  }

  /** In every run a tick times the active transaction out if and only if its deadline has come. */
  lemma RunTimesOutIff(sid: Id, run: seq<Event>, now: int)
    requires Possible(sid, run)
    ensures Possible(sid, run + [EvTick(now)])
    ensures var s, t := After(sid, run), After(sid, run + [EvTick(now)]);
      if s.act.Some? && s.act.value.deadline <= now then TimedOut(s, t, s.act.value, now) else t == s
  {
    RunConserved(sid, run);
    OneMore(sid, run, EvTick(now));
    var s := After(sid, run);
    if s.act.Some? && s.act.value.deadline <= now {
      LateTick(s, now);
    } else {
      EarlyTick(s, now);
    }
  }

  // ---- A confirmed shell prompt ----

  /** In every run the confirmation armed last restores the shell, and with a stream, nothing active and
      the session authenticating or ready a command can start at once. Any other confirmation is spent
      without effect. */
  lemma RunConfirmedPrompt(sid: Id, run: seq<Event>, gen: nat)
    requires Possible(sid, run) && gen in After(sid, run).promptTimers
    ensures Possible(sid, run + [EvPromptTimer(gen)])
    ensures var s, t := After(sid, run), After(sid, run + [EvPromptTimer(gen)]);
      if gen != s.promptGen then t == s.(promptTimers := s.promptTimers - {gen})
      else
        && GatewayPrompt.ShellIsBack(s, t)
        && (s.stream.Some? && s.act == None && (s.sess.state.Authenticating? || s.sess.state.Ready?) ==> CanStart(t))
  {
    OneMore(sid, run, EvPromptTimer(gen));
    GatewayPrompt.RunTracked(sid, run);
    GatewayPrompt.TrackedConfirms(After(sid, run), gen);
  }

  // ---- A chunk arrives ----

  /** The chunk and the unfinished line before it show a boot banner while that counts. */
  predicate BannerShown(s: State)
    requires s.reader.Holding?
  {
    && Protocol.Matches(s.cfg.bootBanner, s.lineTail + s.reader.raw)
    && (s.sess.state == Session.Ready || s.sess.state == Session.RunningCommand)
  }

  /** Nothing but the line, its generation, the suspicion and the trace differs. */
  ghost predicate SameButLine(s: State, n: State) {
    && n.sess == s.sess && n.act == s.act && n.records == s.records && n.log == s.log
    && n.stream == s.stream && n.cfg == s.cfg && n.secret == s.secret && n.resyncPending == s.resyncPending
    && n.usernameSent == s.usernameSent && n.authTimers == s.authTimers && n.authGen == s.authGen
    && n.authRetries == s.authRetries && n.promptTimers == s.promptTimers && n.used == s.used
  }

  /** A chunk extends the line, outdates pending confirmations and raises the suspicion of a reboot if
      and only if it shows a boot banner. */
  lemma ArrivalDoes(s: State)
    requires s.reader.Holding?
    ensures var n := Noted(s);
      && SameButLine(s, n) && n.reader.Reading?
      && n.lineTail == AdvanceLineTail(s.lineTail, s.reader.raw) && n.fed == s.fed + s.reader.raw
      && n.promptGen == s.promptGen + 1 && n.arrivals == s.arrivals + 1
      && n.rebootSuspect == (s.rebootSuspect || BannerShown(s))
      && n.trail.trace == s.trail.trace
           + (if BannerShown(s) then [Protocol.BannerSeen(s.sess.state, s.lineTail + s.reader.raw)] else [])
  {
    var r := s.(reader := Reading);
    BannerDoes(r, s.reader.raw);
    ExtendDoes(NoteBanner(r, s.reader.raw), s.reader.raw);
  }

  lemma BannerDoes(r: State, chunk: Bytes)
    ensures var shown := Protocol.Matches(r.cfg.bootBanner, r.lineTail + chunk)
        && (r.sess.state == Session.Ready || r.sess.state == Session.RunningCommand);
      && NoteBanner(r, chunk).rebootSuspect == (r.rebootSuspect || shown)
      && NoteBanner(r, chunk).trail.trace == r.trail.trace
           + (if shown then [Protocol.BannerSeen(r.sess.state, r.lineTail + chunk)] else [])
  {
  }

  lemma ExtendDoes(r: State, chunk: Bytes)
    ensures ExtendLine(r, chunk) == r.(promptGen := r.promptGen + 1, lineTail := AdvanceLineTail(r.lineTail, chunk),
      fed := r.fed + chunk, arrivals := r.arrivals + 1)
  {
  }

  /** A login or password prompt ends the line. */
  predicate ShowsLogin(s: State) {
    Protocol.Matches(s.cfg.loginPrompt, s.lineTail) || Protocol.Matches(s.cfg.passwordPrompt, s.lineTail)
  }

  /** Such a prompt under a standing suspicion, unless the session is authenticating anyway. */
  predicate RebootShown(s: State) {
    s.rebootSuspect && s.sess.state != Session.Authenticating && ShowsLogin(s)
  }

  /** The password prompt or some secret prompt ends the line. */
  predicate AsksSecret(s: State) {
    || Protocol.Matches(s.cfg.passwordPrompt, s.lineTail)
    || exists i :: 0 <= i < |s.cfg.secretPrompts| && Protocol.Matches(s.cfg.secretPrompts[i], s.lineTail)
  }

  lemma AsksIff(s: State)
    ensures AsksSecret(s) <==> SecretPromptMatches(s.cfg, s.lineTail)
    ensures RebootShown(s) <==> RebootConfirmed(s)
  {
  }

  /** The state after the chunk the reader holds has been handled. */
  function Handled(s: State, now: int): State
    requires s.reader.Holding?
  {
    OnData(s.(reader := Reading), s.reader.raw, now)
  }

  lemma HandledIs(s: State, now: int)
    requires s.reader.Holding?
    ensures Handled(s, now) == Respond(Noted(s), now)
  {
  }

  // ---- ... asking for a secret ----

  /** The window opens: the active deadline becomes the grace period's, the line is cleared and the
      chunk has no other effect. */
  ghost predicate WindowOpened(n: State, t: State, now: int) {
    var due := now + n.cfg.secretGracePeriod;
    && t.secret && t.lineTail == []
    && t.act == (if n.act.Some? then Some(n.act.value.(deadline := due)) else None)
    && t.sess == n.sess && t.records == n.records && t.stream == n.stream && t.resyncPending == n.resyncPending
    && t.log == n.log && t.reader == n.reader
    && t.promptTimers == n.promptTimers && t.authTimers == n.authTimers
    && t.trail.trace == n.trail.trace + [Protocol.SecretOpened(due)]
  }

  lemma OpenWindowOpens(n: State, now: int)
    ensures WindowOpened(n, OpenWindow(n, now), now)
  {
  }

  /** A chunk whose line asks for a secret opens the window, whatever the session is doing; unless a
      reboot is confirmed, no other chunk opens or closes it. */
  lemma ChunkOpensWindowIff(s: State, now: int)
    requires s.reader.Holding? && !RebootShown(Noted(s))
    ensures !s.secret && AsksSecret(Noted(s)) ==> WindowOpened(Noted(s), Handled(s, now), now)
    ensures Handled(s, now).secret <==> s.secret || AsksSecret(Noted(s))
  {
    var n := Noted(s);
    ArrivalDoes(s);
    AsksIff(n);
    HandledIs(s, now);
    if !s.secret && AsksSecret(n) {
      OpenWindowOpens(n, now);
    } else {
      OtherwiseUnchanged(n, now);
    }
  }

  lemma OtherwiseUnchanged(n: State, now: int)
    requires !RebootConfirmed(n) && (n.secret || !SecretPromptMatches(n.cfg, n.lineTail))
    ensures Respond(n, now).secret == n.secret
  {
    if !n.secret {
      ProgressKeepsWindow(n, now);
    }
  }

  lemma ProgressKeepsWindow(n: State, now: int)
    ensures Progress(n, now).secret == n.secret && Progress(n, now).cfg == n.cfg
  {
    if n.sess.state == Session.RunningCommand {
      MarkerKeepsWindow(n, now);
    }
  }

  lemma MarkerKeepsWindow(n: State, now: int)
    ensures HandleMarker(n, now).secret == n.secret && HandleMarker(n, now).cfg == n.cfg
  {
  }

  /** The ring has grown by what stands for `n` redacted bytes. */
  predicate Masks(s: State, t: State, n: nat) {
    t.log == s.log + "[redacted " + Decimal(n) + " bytes]"
  }

  /** A chunk enters the ring as it is, or under an open window as its placeholder only. */
  lemma ReadUnderWindow(s: State, raw: Bytes)
    ensures var t := ReadChunk(s, raw);
      && (if s.secret then Masks(s, t, |raw|) else t.log == s.log + raw)
      && t.taken == s.taken + [Secret.Read(s.secret, raw)] && t.reader == Holding(raw)
      && t.secret == s.secret && t.sess == s.sess && t.act == s.act && t.records == s.records && t.trail == s.trail
  {
  }

  lemma AfterRead(sid: Id, run: seq<Event>, raw: Bytes)
    requires Possible(sid, run) && After(sid, run).reader.Reading? && 0 < |raw| <= READ_BUFFER
    ensures Possible(sid, run + [EvReadChunk(raw)])
    ensures After(sid, run + [EvReadChunk(raw)]) == ReadChunk(After(sid, run), raw)
  {
    OneMore(sid, run, EvReadChunk(raw));
  }

  /** In every run a chunk whose line asks for a secret opens the window. */
  lemma RunSecretPromptOpens(sid: Id, run: seq<Event>, now: int)
    requires Possible(sid, run) && After(sid, run).reader.Holding?
    requires !After(sid, run).secret && AsksSecret(Noted(After(sid, run))) && !RebootShown(Noted(After(sid, run)))
    ensures Possible(sid, run + [EvOnData(now)])
    ensures WindowOpened(Noted(After(sid, run)), After(sid, run + [EvOnData(now)]), now)
  {
    AfterChunk(sid, run, now);
    ChunkOpensWindowIff(After(sid, run), now);
  }

  /** In every run: after a chunk whose line asks for a secret, whatever the next chunk holds, only its
      length enters the ring. */
  lemma RunSecretPromptRedacts(sid: Id, run: seq<Event>, now: int, raw: Bytes)
    requires Possible(sid, run) && After(sid, run).reader.Holding? && 0 < |raw| <= READ_BUFFER
    requires !After(sid, run).secret && AsksSecret(Noted(After(sid, run))) && !RebootShown(Noted(After(sid, run)))
    ensures var asked := run + [EvOnData(now)];
      && Possible(sid, asked) && Possible(sid, asked + [EvReadChunk(raw)])
      && Masks(After(sid, run), After(sid, asked + [EvReadChunk(raw)]), |raw|)
  {
    var asked := run + [EvOnData(now)];
    RunSecretPromptOpens(sid, run, now);
    ArrivalDoes(After(sid, run));
    AfterRead(sid, asked, raw);
    ReadUnderWindow(After(sid, asked), raw);
    SameLogMasks(After(sid, run), After(sid, asked), After(sid, asked + [EvReadChunk(raw)]), |raw|);
  }

  lemma SameLogMasks(s: State, m: State, t: State, n: nat)
    requires m.log == s.log && Masks(m, t, n)
    ensures Masks(s, t, n)
  {
  }

  /** Only a read adds to what was read, and it samples the window. */
  lemma StepTakes(s: State, e: Event)
    requires Enabled(s, e)
    ensures Step(s, e).taken == s.taken + (if e.EvReadChunk? then [Secret.Read(s.secret, e.raw)] else [])
  {
    if e.EvReadChunk? {
      ReadUnderWindow(s, e.raw);
    } else if GatewayJobs.Reads(e) {
      CallTakesNothing(s, e);
    } else {
      var w := GatewayJobs.StepJob(s, e);
      WorkTakesNothing(s, Step(s, e), w);
    }
  }

  lemma WorkTakesNothing(s: State, t: State, w: GatewayJobs.Work)
    requires GatewayJobs.Did(s, t, w)
    ensures t.taken == s.taken
  {
  }

  lemma CallTakesNothing(s: State, e: Event)
    requires Enabled(s, e) && (e.EvWaitRegister? || e.EvWaitCancel? || e.EvWaitReturn?)
    ensures Step(s, e).taken == s.taken
  {
    match e {
      case EvWaitRegister(call, tx) => assert WaitRegister(s, call, tx).taken == s.taken;
      case EvWaitCancel(call) =>
      case EvWaitReturn(call) =>
    }
  }

  /** All reads from the `k`-th on were made under an open window. */
  predicate CoveredFrom(taken: seq<Secret.Read>, k: nat) {
    k <= |taken| && forall i :: k <= i < |taken| ==> taken[i].active
  }

  /** The run shows no end of the window from its `i`-th observation on. */
  ghost predicate NotClosedSince(sid: Id, run: seq<Event>, i: nat)
    requires Possible(sid, run)
  {
    !Protocol.Between(GatewayTrace.Trace(sid, run), i, |GatewayTrace.Trace(sid, run)|, Protocol.ClosesSecret)
  }

  lemma NoneInPrefix(t: seq<Protocol.Obs>, t': seq<Protocol.Obs>, i: nat, p: Protocol.Obs -> bool)
    requires t <= t' && !Protocol.Between(t', i, |t'|, p)
    ensures !Protocol.Between(t, i, |t|, p)
  {
    forall j | i <= j < |t|
      ensures !p(t[j])
    {
      assert t[j] == t'[j];
    }
  }

  lemma NotClosedBefore(sid: Id, run: seq<Event>, i: nat)
    requires run != [] && Possible(sid, run) && Possible(sid, run[..|run| - 1]) && NotClosedSince(sid, run, i)
    ensures NotClosedSince(sid, run[..|run| - 1], i)
  {
    GatewayTrace.RunExtends(sid, run, |run| - 1);
    NoneInPrefix(GatewayTrace.Trace(sid, run[..|run| - 1]), GatewayTrace.Trace(sid, run), i, Protocol.ClosesSecret);
  }

  lemma StillCovered(was: seq<Secret.Read>, s: State, e: Event)
    requires Enabled(s, e) && s.secret && was <= s.taken && CoveredFrom(s.taken, |was|)
    ensures was <= Step(s, e).taken && CoveredFrom(Step(s, e).taken, |was|)
  {
    StepTakes(s, e);
  }

  lemma {:induction false} CoveredWhileOpen(sid: Id, run: seq<Event>, k: nat)
    requires Possible(sid, run) && k <= |run| && Possible(sid, run[..k]) && After(sid, run[..k]).secret
    requires NotClosedSince(sid, run, |GatewayTrace.Trace(sid, run[..k])|)
    ensures After(sid, run[..k]).taken <= After(sid, run).taken
    ensures CoveredFrom(After(sid, run).taken, |After(sid, run[..k]).taken|)
    decreases |run|
  {
    if k == |run| {
      WholePrefix(run);
    } else {
      var n := |run| - 1;
      assert run[..n][..k] == run[..k];
      NotClosedBefore(sid, run, |GatewayTrace.Trace(sid, run[..k])|);
      CoveredWhileOpen(sid, run[..n], k);
      GatewayTrace.RunSecretPersists(sid, run[..n], k);
      StillCovered(After(sid, run[..k]).taken, After(sid, run[..n]), run[n]);
    }
  }

  /** From an open window on, and until a confirmed prompt, the human or a confirmed reboot closes it, the
      ring of a run receives the placeholders of the chunks read and nothing else. */
  lemma RunRedactsWhileOpen(sid: Id, run: seq<Event>, k: nat)
    requires Possible(sid, run) && k <= |run| && Possible(sid, run[..k]) && After(sid, run[..k]).secret
    requires NotClosedSince(sid, run, |GatewayTrace.Trace(sid, run[..k])|)
    ensures var s, t := After(sid, run[..k]), After(sid, run);
      s.taken <= t.taken && t.log == s.log + Secret.Masked(t.taken[|s.taken|..])
  {
    CoveredWhileOpen(sid, run, k);
    GatewayResults.RunSound(sid, run);
    GatewayResults.RunSound(sid, run[..k]);
    MaskedSince(After(sid, run[..k]), After(sid, run));
  }

  lemma MaskedSince(s: State, t: State)
    requires GatewayResults.Redacted(s) && GatewayResults.Redacted(t)
    requires s.taken <= t.taken && CoveredFrom(t.taken, |s.taken|)
    ensures t.log == s.log + Secret.Masked(t.taken[|s.taken|..])
  {
    Secret.MaskedFrom(t.taken, |s.taken|);
    assert t.taken[..|s.taken|] == s.taken;
  }

  // ---- ... while authenticating ----

  /** The stalled-login timer is set anew if and only if it may still nudge. */
  ghost predicate NudgeArmed(n: State, t: State) {
    if n.stream.Some? && !n.secret && n.authRetries < Protocol.AuthRetryLimit(n.cfg)
    then t.authGen == n.authGen + 1 && t.authTimers == n.authTimers + {n.authGen + 1}
    else t.authGen == n.authGen && t.authTimers == n.authTimers
  }

  lemma ArmAuthArms(n: State)
    ensures NudgeArmed(n, ArmAuthRetry(n))
  {
  }

  /** The first login prompt is answered with the user name, on the line it ends; nothing else is. */
  ghost predicate LoginAnswered(n: State, t: State) {
    var asked := !n.usernameSent && Protocol.Matches(n.cfg.loginPrompt, n.lineTail);
    && t.usernameSent == (n.usernameSent || asked)
    && t.lineTail == (if asked then [] else n.lineTail)
    && t.trail.trace == n.trail.trace + (if asked && n.stream.Some? then [Protocol.UsernameSent(n.lineTail)] else [])
    && t.sess == n.sess && t.act == n.act && t.records == n.records && t.stream == n.stream && t.secret == n.secret
  }

  lemma AnswerAnswers(n: State)
    ensures LoginAnswered(n, AnswerIfAsked(n)) && AnswerIfAsked(n).cfg == n.cfg
    ensures AnswerIfAsked(n).authRetries == n.authRetries && AnswerIfAsked(n).promptTimers == n.promptTimers
    ensures AnswerIfAsked(n).authGen == n.authGen && AnswerIfAsked(n).authTimers == n.authTimers
    ensures AnswerIfAsked(n).promptGen == n.promptGen && AnswerIfAsked(n).arrivals == n.arrivals
  {
  }

  lemma AuthenticatingDoes(n: State)
    ensures LoginAnswered(n, HandleAuthenticating(n)) && NudgeArmed(n, HandleAuthenticating(n))
  {
    AnswerAnswers(n);
    ArmAuthArms(AnswerIfAsked(n));
  }

  /** A chunk in an authenticating session answers a login prompt and puts the next nudge off. */
  lemma ChunkWhileAuthenticating(s: State, now: int)
    requires s.reader.Holding? && s.sess.state == Session.Authenticating && !s.secret && !AsksSecret(Noted(s))
    ensures LoginAnswered(Noted(s), Handled(s, now)) && NudgeArmed(Noted(s), Handled(s, now))
  {
    var n := Noted(s);
    ArrivalDoes(s);
    AsksIff(n);
    HandledIs(s, now);
    AuthenticatingDoes(n);
    assert Handled(s, now) == ArmPromptConfirm(HandleAuthenticating(n));
  }

  // ---- ... while a command runs ----

  /** The active transaction is completed with `code` and the session is ready again. */
  ghost predicate Completes(n: State, t: State, a: Active, code: int, now: int) {
    && Recorded(n, t, a, Command.Completed, Some(code), now)
    && t.records.proposals == n.records.proposals
    && t.sess == Rested(n.sess) && !t.rebootSuspect && t.resyncPending == n.resyncPending && t.secret == n.secret
    && t.lineTail == n.lineTail && t.stream == n.stream
    && t.trail.trace == n.trail.trace + [Protocol.Finished(a.tx.id, Command.Completed, now)]
  }

  lemma MarkerDoes(n: State, now: int)
    requires n.act.Some? && ActiveOk(n.records, n.act.value) && n.sess.state == Session.RunningCommand
    ensures var found := Marker.Search(n.act.value.marker, Visible(n));
      if found.Some? then Completes(n, HandleMarker(n, now), n.act.value, found.value, now) else HandleMarker(n, now) == n
  {
    var a := n.act.value;
    var found := Marker.Search(a.marker, Visible(n));
    if found.Some? {
      var s0 := n.(rebootSuspect := false);
      FinishRecords(s0, a, Command.Completed, found, now);
      CompletedIs(n, a, found.value, now);
    } else {
      assert HandleMarker(n, now) == n;
    }
  }

  lemma CompletedIs(n: State, a: Active, code: int, now: int)
    requires n.act == Some(a) && n.sess.state == Session.RunningCommand
    requires Marker.Search(a.marker, Visible(n)) == Some(code)
    ensures var f := FinishActive(n.(rebootSuspect := false), a, Command.Completed, Some(code), now);
      HandleMarker(n, now) == f.(sess := Session.Session(Session.Ready, n.sess.id))
  {
  }

  /** A chunk that reaches marker matching completes the command exactly when its marker is visible, and
      makes the session ready; otherwise it only extends the line. */
  lemma ChunkWhileRunning(s: State, now: int)
    requires Undisturbed(s) && ActiveOk(s.records, s.act.value)
    ensures var n, t := Noted(s), Handled(s, now);
      var found := Marker.Search(s.act.value.marker, Visible(s));
      if found.Some? then Completes(n, t, s.act.value, found.value, now)
      else t.act == n.act && t.records == n.records && t.sess == n.sess && t.trail == n.trail && t.lineTail == n.lineTail
  {
    var n := Noted(s);
    ArrivalDoes(s);
    UndisturbedProgress(s, now);
    MarkerDoes(n, now);
    ArmDoes(HandleMarker(n, now));
  }

  // ---- ... and the prompt it may end in ----

  lemma ArmDoes(n: State)
    ensures var t := ArmPromptConfirm(n);
      && t == n.(promptTimers := t.promptTimers)
      && t.promptTimers == (if Protocol.Matches(n.cfg.shellPrompt, n.lineTail)
           then n.promptTimers[n.promptGen := Armed(n.lineTail, n.arrivals)] else n.promptTimers)
  {
  }

  lemma ProgressKeepsTimers(n: State, now: int)
    ensures var p := Progress(n, now);
      p.promptTimers == n.promptTimers && p.promptGen == n.promptGen && p.cfg == n.cfg && p.arrivals == n.arrivals
  {
    GatewayPrompt.ProgressLine(n, now);
  }

  /** A chunk that neither confirms a reboot nor opens the window arms a confirmation, of its own
      generation and of the line it leaves, if and only if that line ends in a shell prompt. */
  lemma ChunkArmsPromptIff(s: State, now: int)
    requires s.reader.Holding? && !RebootShown(Noted(s)) && (s.secret || !AsksSecret(Noted(s)))
    ensures var n, t := Noted(s), Handled(s, now);
      t.promptGen == n.promptGen && t.promptTimers == (if Protocol.Matches(n.cfg.shellPrompt, t.lineTail)
        then n.promptTimers[n.promptGen := Armed(t.lineTail, n.arrivals)] else n.promptTimers)
  {
    var n := Noted(s);
    ArrivalDoes(s);
    AsksIff(n);
    HandledIs(s, now);
    if n.secret {
      ArmDoes(n);
      assert Handled(s, now) == ArmPromptConfirm(n);
    } else {
      ProgressKeepsTimers(n, now);
      ArmDoes(Progress(n, now));
      assert Handled(s, now) == ArmPromptConfirm(Progress(n, now));
    }
  }

  /** Under an open window, or in a session that neither authenticates nor runs a command, a chunk that
      confirms no reboot and asks for no secret does nothing but extend the line and arm a confirmation. */
  lemma ChunkOtherwise(s: State, now: int)
    requires s.reader.Holding? && !RebootShown(Noted(s))
    requires s.secret || (!AsksSecret(Noted(s)) && !s.sess.state.Authenticating? && !s.sess.state.RunningCommand?)
    ensures Handled(s, now) == Noted(s).(promptTimers := Handled(s, now).promptTimers)
  {
    var n := Noted(s);
    ArrivalDoes(s);
    AsksIff(n);
    HandledIs(s, now);
    QuietLine(n, now);
  }

  lemma QuietLine(n: State, now: int)
    requires !RebootConfirmed(n)
    requires n.secret
      || (!SecretPromptMatches(n.cfg, n.lineTail) && !n.sess.state.Authenticating? && !n.sess.state.RunningCommand?)
    ensures Respond(n, now) == ArmPromptConfirm(n)
  {
  }

  // ---- ... confirming a reboot ----

  /** The target is logging in anew: the active command has ended with its reboot, the proposals of the
      session have expired, window, timeout and suspicion are gone, and a login prompt is answered. */
  ghost predicate Rebooting(n: State, t: State, now: int) {
    var login := Protocol.Matches(n.cfg.loginPrompt, n.lineTail);
    && (n.act.Some? ==> Recorded(n, t, n.act.value, Command.TargetRebooted, None, now))
    && (n.act.None? ==> t.act == None && t.records.results == n.records.results)
    && t.records.transactions == n.records.transactions
    && t.records.proposals == Command.Invalidated(n.records, n.sess.id).proposals
    && (n.sess.state.Ready? || n.sess.state.RunningCommand? ==> t.sess == Session.Session(Session.Authenticating, n.sess.id))
    && !t.secret && !t.resyncPending && !t.rebootSuspect && !t.manualReady
    && t.usernameSent == login && t.lineTail == (if login then [] else n.lineTail) && t.stream == n.stream
    && t.trail.trace == n.trail.trace + [Protocol.RebootPrompt(n.lineTail)]
         + (if n.act.Some? then [Protocol.Finished(n.act.value.tx.id, Command.TargetRebooted, now)] else [])
         + [Protocol.Rebooted]
         + (if login && n.stream.Some? then [Protocol.UsernameSent(n.lineTail)] else [])
    && (if n.stream.Some? && n.authRetries < Protocol.AuthRetryLimit(n.cfg)
        then t.authGen == n.authGen + 1 && t.authGen in t.authTimers else t.authGen == n.authGen)
  }

  lemma FinishOrNot(s: State, status: Command.Status, now: int)
    requires s.act.Some? ==> ActiveOk(s.records, s.act.value)
    ensures var f := Finish(s, status, now);
      && f == s.(records := f.records, resultWaiters := f.resultWaiters, closed := f.closed, act := None, spans := f.spans, trail := f.trail)
      && f.records.proposals == s.records.proposals && f.records.transactions == s.records.transactions
      && (s.act.Some? ==> Recorded(s, f, s.act.value, status, None, now))
      && (s.act.None? ==> f.records == s.records)
      && f.trail.trace == s.trail.trace + (if s.act.Some? then [Protocol.Finished(s.act.value.tx.id, status, now)] else [])
  {
    if s.act.Some? {
      FinishRecords(s, s.act.value, status, None, now);
    } else {
      assert Finish(s, status, now) == s;
    }
  }

  lemma EnterRebootDoes(f: State)
    ensures var t := EnterReboot(f);
      && t == f.(sess := t.sess, records := t.records, usernameSent := false, manualReady := false,
           resyncPending := false, rebootSuspect := false, secret := false, trail := t.trail)
      && t.records == Command.Invalidated(f.records, f.sess.id)
      && (f.sess.state.Ready? || f.sess.state.RunningCommand? ==> t.sess == Session.Session(Session.Authenticating, f.sess.id))
      && t.trail.trace == f.trail.trace + [Protocol.Rebooted]
  {
  }

  lemma RebootDoes(n: State, now: int)
    requires n.act.Some? ==> ActiveOk(n.records, n.act.value)
    ensures Rebooting(n, RespondToReboot(n, now), now)
  {
    var p := NoteRebootPrompt(n);
    FinishOrNot(p, Command.TargetRebooted, now);
    var f := Finish(p, Command.TargetRebooted, now);
    EnterRebootDoes(f);
    InvalidatedSame(n.records, f.records, n.sess.id);
    AuthenticatingDoes(EnterReboot(f));
  }

  lemma InvalidatedSame(r: Command.Records, q: Command.Records, session: Id)
    requires r.proposals == q.proposals
    ensures Command.Invalidated(r, session).proposals == Command.Invalidated(q, session).proposals
    ensures Command.Invalidated(q, session).results == q.results && Command.Invalidated(q, session).transactions == q.transactions
  {
  }

  /** A login or password prompt under suspicion reboots the session. */
  lemma ChunkReboots(s: State, now: int)
    requires s.reader.Holding? && RebootShown(Noted(s)) && (s.act.Some? ==> ActiveOk(s.records, s.act.value))
    ensures Rebooting(Noted(s), Handled(s, now), now)
  {
    ArrivalDoes(s);
    AsksIff(Noted(s));
    HandledIs(s, now);
    RebootDoes(Noted(s), now);
  }

  // ---- Nudging ----

  /** A newline is written and counted, and the next login prompt will be answered again. */
  ghost predicate NudgeWritten(s: State, t: State) {
    && t.authRetries == s.authRetries + 1 && !t.usernameSent && t.lineTail == s.lineTail
    && t.trail.trace == s.trail.trace + [Protocol.Nudged(s.sess.state, s.lineTail)]
    && t.sess == s.sess && t.act == s.act && t.records == s.records
  }

  lemma NudgeOrNot(s: State)
    ensures var t := NudgeUnlessPrompted(s);
      && (Protocol.Matches(s.cfg.shellPrompt, s.lineTail) ==> t == s)
      && (!Protocol.Matches(s.cfg.shellPrompt, s.lineTail) ==> NudgeWritten(s, t))
      && t.stream == s.stream && t.secret == s.secret && t.cfg == s.cfg && t.authGen == s.authGen && t.authTimers == s.authTimers
  {
  }

  /** The nudge timer armed last nudges an authenticating session, unless its line ends in a shell prompt
      or a window is open, and is armed anew while nudges are left; any other is spent for nothing. */
  lemma NudgeTimerDoes(s: State, gen: nat)
    ensures var t := RetryAuth(s, gen);
      if !(gen == s.authGen && s.sess.state == Session.Authenticating && s.stream.Some? && !s.secret) then t == s
      else if Protocol.Matches(s.cfg.shellPrompt, s.lineTail) then
        NudgeArmed(s, t) && t.trail == s.trail && t.authRetries == s.authRetries
      else NudgeWritten(s, t) && NudgeArmed(s.(authRetries := s.authRetries + 1), t)
  {
    if gen == s.authGen && s.sess.state == Session.Authenticating && s.stream.Some? && !s.secret {
      NudgeTimerFires(s, gen);
    }
  }

  lemma NudgeTimerFires(s: State, gen: nat)
    requires gen == s.authGen && s.sess.state == Session.Authenticating && s.stream.Some? && !s.secret
    ensures var t := RetryAuth(s, gen);
      if Protocol.Matches(s.cfg.shellPrompt, s.lineTail) then
        NudgeArmed(s, t) && t.trail == s.trail && t.authRetries == s.authRetries
      else NudgeWritten(s, t) && NudgeArmed(s.(authRetries := s.authRetries + 1), t)
  {
    RetryUnfolds(s, gen);
    NudgeOrNot(s);
    ArmAuthArms(NudgeUnlessPrompted(s));
  }

  lemma RetryUnfolds(s: State, gen: nat)
    requires gen == s.authGen && s.sess.state == Session.Authenticating && s.stream.Some? && !s.secret
    ensures RetryAuth(s, gen) == ArmAuthRetry(NudgeUnlessPrompted(s))
  {
  }

  // ---- The transport is lost ----

  ghost predicate TransportLost(s: State, t: State, now: int) {
    && (s.act.Some? ==> Recorded(s, t, s.act.value, Command.Disconnected, None, now))
    && (s.act.None? ==> t.act == None && t.records.results == s.records.results)
    && t.records.transactions == s.records.transactions
    && t.records.proposals == Command.Invalidated(s.records, s.sess.id).proposals
    && t.stream == None && t.reader.NoReader? && !t.usernameSent && !t.manualReady && t.secret == s.secret
    && (s.sess.state.Authenticating? || s.sess.state.Ready? || s.sess.state.RunningCommand? ==>
          t.sess == Session.Session(Session.Reconnecting, s.sess.id))
    && t.trail.trace == s.trail.trace
         + (if s.act.Some? then [Protocol.Finished(s.act.value.tx.id, Command.Disconnected, now)] else [])
         + [Protocol.Lost]
  }

  lemma EnterLossDoes(f: State)
    ensures var t := EnterLoss(f);
      && t == f.(sess := t.sess, records := t.records, stream := None, usernameSent := false, manualReady := false,
           reader := NoReader, trail := t.trail)
      && t.records == Command.Invalidated(f.records, f.sess.id)
      && (f.sess.state.Authenticating? || f.sess.state.Ready? || f.sess.state.RunningCommand? ==>
            t.sess == Session.Session(Session.Reconnecting, f.sess.id))
      && t.trail.trace == f.trail.trace + [Protocol.Lost]
  {
  }

  /** An error of the current stream loses the transport; one of a former stream does nothing. */
  lemma ReadErrorDoes(s: State, stream: StreamId, now: int)
    requires s.act.Some? ==> ActiveOk(s.records, s.act.value)
    ensures var t := OnReadError(s, stream, now);
      if s.stream == Some(stream) then TransportLost(s, t, now) else t == s
  {
    if s.stream == Some(stream) {
      FinishOrNot(s, Command.Disconnected, now);
      var f := Finish(s, Command.Disconnected, now);
      EnterLossDoes(f);
      InvalidatedSame(s.records, f.records, s.sess.id);
    }
  }

  // ---- Human operations ----

  lemma ReadyDoes(s: State)
    ensures var t := ConfirmSessionReady(s);
      if s.sess.state == Session.Authenticating
      then t == s.(manualReady := true, sess := Session.Session(Session.Ready, s.sess.id))
      else t == s
  {
  }

  /** A takeover ends the active transaction as interrupted; with nothing active it does nothing. */
  lemma TakeoverDoes(s: State, now: int)
    requires s.act.Some? ==> ActiveOk(s.records, s.act.value)
    ensures var t := Takeover(s, now);
      if s.act.None? then t == s
      else
        && Recorded(s, t, s.act.value, Command.InterruptedByUser, None, now)
        && t.records.proposals == s.records.proposals && t.sess == Rested(s.sess)
        && t.secret == s.secret && t.resyncPending == s.resyncPending && t.stream == s.stream
        && t.trail.trace == s.trail.trace + [Protocol.Finished(s.act.value.tx.id, Command.InterruptedByUser, now)]
  {
    if s.act.Some? {
      EndedBy(s, s.act.value, Command.InterruptedByUser, now);
    }
  }

  lemma EndedBy(s: State, a: Active, status: Command.Status, now: int)
    requires s.act == Some(a) && ActiveOk(s.records, a)
    ensures var t := FinishAndSettle(s, a, status, now);
      && Recorded(s, t, a, status, None, now)
      && t.records.proposals == s.records.proposals && t.sess == Rested(s.sess)
      && t.secret == s.secret && t.resyncPending == s.resyncPending && t.stream == s.stream
      && t.trail.trace == s.trail.trace + [Protocol.Finished(a.tx.id, status, now)]
  {
    FinishRecords(s, a, status, None, now);
    SettledRests(s.sess);
  }

  /** The human's opening of the window does what a prompt's does, but leaves the line alone. */
  lemma BeginSecretDoes(s: State, now: int)
    ensures WindowOpened(s, BeginSecret(s, now).(lineTail := []), now) && BeginSecret(s, now).lineTail == s.lineTail
  {
  }

  lemma EndSecretDoes(s: State)
    ensures var t := EndSecret(s);
      && !t.secret && t.act == s.act && t.records == s.records && t.resyncPending == s.resyncPending
      && (if s.sess.state == Session.Authenticating
          then t.sess == Session.Session(Session.Ready, s.sess.id) && t.authRetries == 0 && t.authGen == s.authGen + 1
          else t.sess == s.sess && t.authRetries == s.authRetries && t.authGen == s.authGen)
      && t.trail.trace == s.trail.trace + [Protocol.SecretEnded(s.sess.state == Session.Authenticating)]
  {
    if s.sess.state == Session.Authenticating {
      assert EndSecret(s).sess.state == Session.Ready;
    } else {
      assert EndSecret(s).sess == s.sess;
    }
  }

  lemma ShutdownDoes(s: State)
    ensures Shutdown(s) == s.(sess := Session.Session(Session.Disconnected, s.sess.id))
  {
  }

  /** A stop ends the active transaction, closes the stream and leaves no prompt state behind. */
  lemma StopDoes(s: State, now: int)
    requires s.act.Some? ==> ActiveOk(s.records, s.act.value)
    ensures var t := Stop(s, now);
      && (s.act.Some? ==> Recorded(s, t, s.act.value, Command.DaemonRestarted, None, now))
      && t.act == None && t.records.proposals == s.records.proposals && t.sess == s.sess && t.secret == s.secret
      && t.lineTail == [] && !t.rebootSuspect && t.authRetries == 0
      && t.promptGen == s.promptGen + 1 && t.authGen == s.authGen + 1
      && t.trail.trace == s.trail.trace
           + (if s.act.Some? then [Protocol.Finished(s.act.value.tx.id, Command.DaemonRestarted, now)] else [])
           + (if s.stream.Some? then [Protocol.HungUp] else [])
           + [Protocol.Stopped]
  {
    FinishOrNot(s, Command.DaemonRestarted, now);
    HaltDoes(Finish(s, Command.DaemonRestarted, now));
  }

  lemma HaltDoes(f: State)
    ensures var t := Halt(f);
      && t == f.(lineTail := [], fed := [], promptGen := f.promptGen + 1, authGen := f.authGen + 1, authRetries := 0,
           rebootSuspect := false, trail := t.trail)
      && t.trail.trace == f.trail.trace + (if f.stream.Some? then [Protocol.HungUp] else []) + [Protocol.Stopped]
  {
  }

  // ---- Approving ----

  /** A command may start this moment. */
  predicate Startable(s: State) {
    s.stream.Some? && s.sess.state == Session.Ready && !s.secret && !s.resyncPending && s.act.None?
  }

  predicate IsApproved(r: Command.Records, pid: Id) {
    pid in r.proposals && r.proposals[pid].state == Command.Approved
  }

  /** The transaction `tx` is on record and its line is written. If that succeeds it is running;
      otherwise it has ended as disconnected. */
  ghost predicate Started(s: State, t: State, tx: Command.Transaction, nonce: Bytes, now: int, ok: bool) {
    var m := Marker.Marker(tx.id, nonce);
    var line := Protocol.CommandLine(tx, m, tx.text + Marker.ShellSuffix(m) + "\n", now + tx.timeout);
    && t.records.transactions == s.records.transactions[tx.id := tx]
    && IsApproved(t.records, tx.sourceProposalId)
    && (ok ==>
          && t.act == Some(Active(tx, m, now + tx.timeout, |s.log|)) && t.records.results == s.records.results
          && t.sess == Session.Session(Session.RunningCommand, s.sess.id)
          && t.trail.trace == s.trail.trace + [line])
    && (!ok ==>
          && t.act == None && tx.id in t.records.results && t.records.results[tx.id].status == Command.Disconnected
          && t.sess == Session.Session(Session.Ready, s.sess.id)
          && t.trail.trace == s.trail.trace + [line] + [Protocol.Finished(tx.id, Command.Disconnected, now)])
  }

  lemma LaunchDoes(s: State, a: Active)
    requires s.sess.state == Session.Ready
    ensures var t := Launch(s, a);
      && t == s.(act := Some(a), sess := Session.Session(Session.RunningCommand, s.sess.id), trail := t.trail)
      && t.trail.trace == s.trail.trace
           + [Protocol.CommandLine(a.tx, a.marker, a.tx.text + Marker.ShellSuffix(a.marker) + "\n", a.deadline)]
  {
  }

  lemma FailedLaunchDoes(l: State, a: Active, now: int)
    requires l.act == Some(a) && l.sess.state == Session.RunningCommand && ActiveOk(l.records, a)
    ensures var t := FinishAndSettle(l, a, Command.Disconnected, now);
      && Recorded(l, t, a, Command.Disconnected, None, now) && t.records.proposals == l.records.proposals
      && t.sess == Session.Session(Session.Ready, l.sess.id)
      && t.trail.trace == l.trail.trace + [Protocol.Finished(a.tx.id, Command.Disconnected, now)]
  {
    FinishRecords(l, a, Command.Disconnected, None, now);
    SettledRests(l.sess);
  }

  /** The transaction an approval of `p` makes. */
  function Job(p: Command.Proposal, txId: Id, now: int): Command.Transaction {
    Command.Transaction(txId, p.id, p.sessionId, p.text, p.timeout, now)
  }

  lemma ApprovalUnfolds(s: State, pid: Id, now: int, txId: Id, nonce: Bytes, ok: bool)
    requires Command.Approvable(s.records, pid, now)
    ensures ApproveAndStart(s, pid, now, txId, nonce, ok)
         == StartTransaction(s.(records := Command.ApprovedIn(s.records, pid, now, txId), used := s.used + {txId}),
              Job(s.records.proposals[pid], txId, now), nonce, now, ok)
  {
  }

  /** The same session with the transaction `tx` on record. */
  ghost predicate OnRecord(s: State, s': State, tx: Command.Transaction) {
    && s' == s.(records := s'.records, used := s'.used) && s.sess.state == Session.Ready
    && s'.records.results == s.records.results
    && s'.records.transactions == s.records.transactions[tx.id := tx] && IsApproved(s'.records, tx.sourceProposalId)
  }

  lemma ApprovalRecords(s: State, pid: Id, now: int, txId: Id)
    requires Command.Approvable(s.records, pid, now) && s.sess.state == Session.Ready && s.records.proposals[pid].id == pid
    ensures OnRecord(s, s.(records := Command.ApprovedIn(s.records, pid, now, txId), used := s.used + {txId}),
      Job(s.records.proposals[pid], txId, now))
  {
  }

  lemma LaunchStarts(s: State, s': State, tx: Command.Transaction, nonce: Bytes, now: int)
    requires OnRecord(s, s', tx)
    ensures var a := Active(tx, Marker.Marker(tx.id, nonce), now + tx.timeout, |s.log|);
      && Launch(s', a).records == s'.records
      && Started(s, Launch(s', a), tx, nonce, now, true)
  {
    LaunchDoes(s', Active(tx, Marker.Marker(tx.id, nonce), now + tx.timeout, |s.log|));
  }

  lemma LaunchFails(s: State, l: State, tx: Command.Transaction, nonce: Bytes, now: int)
    requires Started(s, l, tx, nonce, now, true) && ActiveOk(l.records, l.act.value)
    ensures Started(s, FinishAndSettle(l, l.act.value, Command.Disconnected, now), tx, nonce, now, false)
  {
    FailedLaunchDoes(l, l.act.value, now);
  }

  lemma StartWrites(s: State, tx: Command.Transaction, nonce: Bytes, now: int)
    ensures StartTransaction(s, tx, nonce, now, true) == Launch(s, ActiveFor(s, tx, nonce, now))
  {
  }

  lemma StartGivesUp(s: State, tx: Command.Transaction, nonce: Bytes, now: int)
    ensures var a := ActiveFor(s, tx, nonce, now);
      StartTransaction(s, tx, nonce, now, false) == FinishAndSettle(Launch(s, a), a, Command.Disconnected, now)
  {
  }

  lemma StartDoes(s: State, pid: Id, now: int, txId: Id, nonce: Bytes, ok: bool)
    requires Books(s) && Startable(s) && txId !in s.used && Marker.Good(Marker.Marker(txId, nonce))
    requires Command.Approvable(s.records, pid, now)
    ensures Started(s, ApproveAndStart(s, pid, now, txId, nonce, ok), Job(s.records.proposals[pid], txId, now), nonce, now, ok)
  {
    var s' := s.(records := Command.ApprovedIn(s.records, pid, now, txId), used := s.used + {txId});
    var tx := Job(s.records.proposals[pid], txId, now);
    ApprovalUnfolds(s, pid, now, txId, nonce, ok);
    assert Command.Stamped(s.records.proposals[pid], pid);
    ApprovalRecords(s, pid, now, txId);
    LaunchStarts(s, s', tx, nonce, now);
    var a := Active(tx, Marker.Marker(txId, nonce), now + tx.timeout, |s.log|);
    assert ActiveFor(s', tx, nonce, now) == a;
    if ok {
      StartWrites(s', tx, nonce, now);
    } else {
      StartGivesUp(s', tx, nonce, now);
      NewActiveOk(s, s'.records, a, pid, now);
      LaunchFails(s, Launch(s', a), tx, nonce, now);
    }
  }

  lemma NewActiveOk(s: State, r: Command.Records, a: Active, pid: Id, now: int)
    requires Books(s) && s.act == None && a.tx.id !in s.used && a.marker.transactionId == a.tx.id && Marker.Good(a.marker)
    requires Command.Approvable(s.records, pid, now) && r == Command.ApprovedIn(s.records, pid, now, a.tx.id)
    requires a.tx == Job(s.records.proposals[pid], a.tx.id, now)
    ensures ActiveOk(r, a)
  {
    assert a.tx.id !in s.records.results;
  }

  /** Nothing is started, ended or written. */
  ghost predicate NothingStarted(s: State, t: State) {
    && t.act == s.act && t.sess == s.sess && t.trail == s.trail && t.secret == s.secret && t.stream == s.stream
    && t.records.transactions == s.records.transactions && t.records.results == s.records.results
  }

  /** The proposal `pid` is waiting for a decision. */
  predicate Waiting(s: State, pid: Id) {
    pid in s.records.proposals && s.records.proposals[pid].state == Command.Pending
  }

  /** Nothing is started, and the proposal `pid` alone has expired. */
  ghost predicate Lapsed(s: State, t: State, pid: Id)
    requires pid in s.records.proposals
  {
    && NothingStarted(s, t)
    && t.records.proposals == s.records.proposals[pid := s.records.proposals[pid].(state := Command.Expired)]
  }

  lemma LateApproval(s: State, pid: Id, now: int, txId: Id, nonce: Bytes, ok: bool)
    requires Waiting(s, pid) && s.records.proposals[pid].expiresAt < now
    ensures Lapsed(s, ApproveAndStart(s, pid, now, txId, nonce, ok), pid)
  {
    assert !Command.Approvable(s.records, pid, now);
    LateRecords(s.records, pid, now, txId);
    RefusedApproval(s, pid, now, txId, nonce, ok);
  }

  lemma LateRecords(r: Command.Records, pid: Id, now: int, txId: Id)
    requires pid in r.proposals && r.proposals[pid].state == Command.Pending && r.proposals[pid].expiresAt < now
    ensures Command.ApprovedIn(r, pid, now, txId)
         == r.(proposals := r.proposals[pid := r.proposals[pid].(state := Command.Expired)])
  {
  }

  lemma RefusedApproval(s: State, pid: Id, now: int, txId: Id, nonce: Bytes, ok: bool)
    requires !Command.Approvable(s.records, pid, now)
    ensures ApproveAndStart(s, pid, now, txId, nonce, ok)
         == s.(records := Command.ApprovedIn(s.records, pid, now, txId), used := s.used + {txId})
  {
  }

  lemma DecidedAlready(s: State, pid: Id, now: int, txId: Id, nonce: Bytes, ok: bool)
    requires !Waiting(s, pid)
    ensures var t := ApproveAndStart(s, pid, now, txId, nonce, ok);
      NothingStarted(s, t) && t.records == s.records
  {
    RefusedApproval(s, pid, now, txId, nonce, ok);
  }

  /** What an approval may do. */
  ghost predicate ApprovalOutcome(s: State, t: State, pid: Id, now: int, txId: Id, nonce: Bytes, ok: bool) {
    if !Waiting(s, pid) then NothingStarted(s, t) && t.records == s.records
    else if s.records.proposals[pid].expiresAt < now then Lapsed(s, t, pid)
    else Started(s, t, Job(s.records.proposals[pid], txId, now), nonce, now, ok)
  }

  lemma OutcomeOf(s: State, pid: Id, now: int, txId: Id, nonce: Bytes, ok: bool)
    requires Books(s) && Startable(s) && txId !in s.used && Marker.Good(Marker.Marker(txId, nonce))
    ensures ApprovalOutcome(s, ApproveAndStart(s, pid, now, txId, nonce, ok), pid, now, txId, nonce, ok)
  {
    if !Waiting(s, pid) {
      DecidedAlready(s, pid, now, txId, nonce, ok);
    } else if s.records.proposals[pid].expiresAt < now {
      LateApproval(s, pid, now, txId, nonce, ok);
    } else {
      StartDoes(s, pid, now, txId, nonce, ok);
    }
  }

  /** An approval in a startable session starts exactly the transaction of a pending proposal that is not
      overdue; it expires one that is, and starts nothing; and in any other session it does nothing. */
  lemma ApproveDoes(s: State, pid: Id, now: int, txId: Id, nonce: Bytes, ok: bool)
    requires Books(s) && txId !in s.used && Marker.Good(Marker.Marker(txId, nonce))
    ensures !Startable(s) ==> Approve(s, pid, now, txId, nonce, ok) == s
    ensures Startable(s) ==> ApprovalOutcome(s, Approve(s, pid, now, txId, nonce, ok), pid, now, txId, nonce, ok)
  {
    if Startable(s) {
      OutcomeOf(s, pid, now, txId, nonce, ok);
    }
  }

  /** In every run: an approval more than five minutes after its proposal starts nothing. */
  lemma RunOverdueApproval(sid: Id, run: seq<Event>, pid: Id, now: int, txId: Id, nonce: Bytes, ok: bool)
    requires Possible(sid, run) && Enabled(After(sid, run), EvApprove(pid, now, txId, nonce, ok))
    requires Startable(After(sid, run)) && pid in After(sid, run).records.proposals
    requires var p := After(sid, run).records.proposals[pid]; p.state == Command.Pending && now > p.createdAt + 300_000_000_000
    ensures Possible(sid, run + [EvApprove(pid, now, txId, nonce, ok)])
    ensures var s, t := After(sid, run), After(sid, run + [EvApprove(pid, now, txId, nonce, ok)]);
      NothingStarted(s, t) && pid in t.records.proposals && t.records.proposals[pid].state == Command.Expired
  {
    RunConserved(sid, run);
    OneMore(sid, run, EvApprove(pid, now, txId, nonce, ok));
    assert Command.Stamped(After(sid, run).records.proposals[pid], pid);
    ApproveDoes(After(sid, run), pid, now, txId, nonce, ok);
  }

  /** In every run: an approval within five minutes starts the proposal's transaction. */
  lemma RunTimelyApproval(sid: Id, run: seq<Event>, pid: Id, now: int, txId: Id, nonce: Bytes, ok: bool)
    requires Possible(sid, run) && Enabled(After(sid, run), EvApprove(pid, now, txId, nonce, ok))
    requires Startable(After(sid, run)) && pid in After(sid, run).records.proposals
    requires var p := After(sid, run).records.proposals[pid]; p.state == Command.Pending && now <= p.createdAt + 300_000_000_000
    ensures Possible(sid, run + [EvApprove(pid, now, txId, nonce, ok)])
    ensures var s, t := After(sid, run), After(sid, run + [EvApprove(pid, now, txId, nonce, ok)]);
      Started(s, t, Job(s.records.proposals[pid], txId, now), nonce, now, ok)
  {
    RunConserved(sid, run);
    OneMore(sid, run, EvApprove(pid, now, txId, nonce, ok));
    assert Command.Stamped(After(sid, run).records.proposals[pid], pid);
    ApproveDoes(After(sid, run), pid, now, txId, nonce, ok);
  }

  /** What is proposed, or edited, is what runs: approving it in time writes the very text. */
  lemma ProposalRuns(s: State, session: Id, text: Bytes, timeout: int, created: int, pid: Id, now: int, txId: Id, nonce: Bytes, ok: bool)
    requires Books(s) && Startable(s) && ManagedCommand.Managed(text) && now <= created + 300_000_000_000
    requires pid !in s.used && txId !in s.used && pid != txId && Marker.Good(Marker.Marker(txId, nonce))
    ensures var p := Propose(s, session, text, timeout, created, pid);
      Started(p, Approve(p, pid, now, txId, nonce, ok), Command.Transaction(txId, pid, session, text, timeout, now), nonce, now, ok)
  {
    ProposalWaits(s, session, text, timeout, created, pid);
    ApproveDoes(Propose(s, session, text, timeout, created, pid), pid, now, txId, nonce, ok);
  }

  lemma EditRuns(s: State, pid: Id, text: Bytes, edited: int, next: Id, now: int, txId: Id, nonce: Bytes, ok: bool)
    requires Books(s) && Startable(s) && ManagedCommand.Managed(text) && now <= edited + 300_000_000_000
    requires pid in s.records.proposals && s.records.proposals[pid].state == Command.Pending
    requires next !in s.used && txId !in s.used && next != txId && Marker.Good(Marker.Marker(txId, nonce))
    ensures var e, p := Edit(s, pid, text, edited, next), s.records.proposals[pid];
      && Started(e, Approve(e, next, now, txId, nonce, ok), Command.Transaction(txId, next, p.sessionId, text, p.timeout, now), nonce, now, ok)
      && NothingStarted(e, Approve(e, pid, now, txId, nonce, ok))
  {
    Command.EditedMeans(s.records, pid, text, edited, next);
    EditBooks(s, pid, text, edited, next);
    ApproveDoes(Edit(s, pid, text, edited, next), next, now, txId, nonce, ok);
    ApproveDoes(Edit(s, pid, text, edited, next), pid, now, txId, nonce, ok);
  }

  /** A rejected proposal starts nothing any more. */
  lemma RejectedStartsNothing(s: State, pid: Id, now: int, txId: Id, nonce: Bytes, ok: bool)
    requires Books(s) && txId !in s.used && Marker.Good(Marker.Marker(txId, nonce))
    ensures NothingStarted(Reject(s, pid), Approve(Reject(s, pid), pid, now, txId, nonce, ok))
  {
    Command.RejectedMeans(s.records, pid);
    RejectBooks(s, pid);
    ApproveDoes(Reject(s, pid), pid, now, txId, nonce, ok);
  }

  /** A diagnostic command in a startable session of its own starts at once, leaving no pending proposal
      behind; in any other case nothing is started. */
  lemma DiagnoseDoes(s: State, session: Id, text: Bytes, timeout: int, created: int, now: int, pid: Id, txId: Id, nonce: Bytes, ok: bool)
    requires Books(s) && pid !in s.used && txId !in s.used && pid != txId && Marker.Good(Marker.Marker(txId, nonce))
    ensures var t := DiagnoseStart(s, session, text, timeout, created, now, pid, txId, nonce, ok);
      if !(Startable(s) && session == s.sess.id && ManagedCommand.Managed(text)) then t == s
      else if created + 300_000_000_000 < now then NothingStarted(s, t) && !Waiting(t, pid)
      else Started(s, t, Command.Transaction(txId, pid, session, text, timeout, now), nonce, now, ok) && !Waiting(t, pid)
  {
    if Startable(s) && session == s.sess.id && ManagedCommand.Managed(text) {
      DiagnosisDoes(s, session, text, timeout, created, now, pid, txId, nonce, ok);
    }
  }

  lemma DiagnosisDoes(s: State, session: Id, text: Bytes, timeout: int, created: int, now: int, pid: Id, txId: Id, nonce: Bytes, ok: bool)
    requires Books(s) && pid !in s.used && txId !in s.used && pid != txId && Marker.Good(Marker.Marker(txId, nonce))
    requires Startable(s) && session == s.sess.id && ManagedCommand.Managed(text)
    ensures var t := DiagnoseStart(s, session, text, timeout, created, now, pid, txId, nonce, ok);
      && !Waiting(t, pid)
      && (if created + 300_000_000_000 < now then NothingStarted(s, t)
          else Started(s, t, Command.Transaction(txId, pid, session, text, timeout, now), nonce, now, ok))
  {
    var s1 := Propose(s, session, text, timeout, created, pid);
    ProposalWaits(s, session, text, timeout, created, pid);
    if created + 300_000_000_000 < now {
      LateApproval(s1, pid, now, txId, nonce, ok);
      LateDiagnosis(s, session, text, timeout, created, now, pid, txId, nonce, ok);
      SpentProposal(ApproveAndStart(s1, pid, now, txId, nonce, ok), pid);
    } else {
      StartDoes(s1, pid, now, txId, nonce, ok);
      TimelyDiagnosis(s, session, text, timeout, created, now, pid, txId, nonce, ok);
    }
  }

  lemma ProposalWaits(s: State, session: Id, text: Bytes, timeout: int, created: int, pid: Id)
    requires Books(s) && pid !in s.used && ManagedCommand.Managed(text)
    ensures var p := Propose(s, session, text, timeout, created, pid);
      && p == s.(records := p.records, used := s.used + {pid}) && Books(p)
      && p.records.transactions == s.records.transactions && p.records.results == s.records.results
      && Waiting(p, pid) && p.records.proposals[pid].expiresAt == created + 300_000_000_000
      && forall tx, now :: Job(p.records.proposals[pid], tx, now) == Command.Transaction(tx, pid, session, text, timeout, now)
  {
    Command.ProposedMeans(s.records, pid, session, text, timeout, created);
    ProposeBooks(s, session, text, timeout, created, pid);
  }

  lemma LateDiagnosis(s: State, session: Id, text: Bytes, timeout: int, created: int, now: int, pid: Id, txId: Id, nonce: Bytes, ok: bool)
    requires CanStart(s) && session == s.sess.id && ManagedCommand.Managed(text)
    requires !Command.Approvable(Propose(s, session, text, timeout, created, pid).records, pid, now)
    ensures DiagnoseStart(s, session, text, timeout, created, now, pid, txId, nonce, ok)
         == Reject(ApproveAndStart(Propose(s, session, text, timeout, created, pid), pid, now, txId, nonce, ok), pid)
  {
  }

  lemma TimelyDiagnosis(s: State, session: Id, text: Bytes, timeout: int, created: int, now: int, pid: Id, txId: Id, nonce: Bytes, ok: bool)
    requires CanStart(s) && session == s.sess.id && ManagedCommand.Managed(text)
    requires Command.Approvable(Propose(s, session, text, timeout, created, pid).records, pid, now)
    ensures DiagnoseStart(s, session, text, timeout, created, now, pid, txId, nonce, ok)
         == ApproveAndStart(Propose(s, session, text, timeout, created, pid), pid, now, txId, nonce, ok)
  {
  }

  lemma SpentProposal(s: State, pid: Id)
    requires !Waiting(s, pid)
    ensures Reject(s, pid) == s
  {
  }

  // ---- Waiting ----

  /** The call waits for `tx` on the channel of that transaction's waiter `w`. */
  ghost predicate Registered(s: State, t: State, call: CallId, tx: Id, w: Waiter) {
    && t.resultWaiters == s.resultWaiters[tx := w]
    && t.calls == s.calls[call := Call(tx, w.wake)]
  }

  lemma JoinsWaiter(s: State, call: CallId, tx: Id)
    requires tx !in s.records.results && tx in s.resultWaiters
    ensures var w, t := s.resultWaiters[tx], WaitRegister(s, call, tx);
      Registered(s, t, call, tx, Waiter(w.wake, w.refs + 1)) && t.nextChan == s.nextChan
  {
  }

  lemma OpensWaiter(s: State, call: CallId, tx: Id)
    requires tx !in s.records.results && tx !in s.resultWaiters && |s.resultWaiters| < 1024
    ensures var t := WaitRegister(s, call, tx);
      Registered(s, t, call, tx, Waiter(s.nextChan, 1)) && t.nextChan == s.nextChan + 1
  {
  }

  /** A call for an unfinished transaction is registered and blocks, sharing the channel of the calls
      before it, unless it would be the first for one identifier too many. */
  lemma RegisterDoes(s: State, call: CallId, tx: Id)
    ensures var t := WaitRegister(s, call, tx);
      if tx in s.records.results then t == s
      else if tx in s.resultWaiters then
        Registered(s, t, call, tx, Waiter(s.resultWaiters[tx].wake, s.resultWaiters[tx].refs + 1)) && t.nextChan == s.nextChan
      else if |s.resultWaiters| < 1024 then
        Registered(s, t, call, tx, Waiter(s.nextChan, 1)) && t.nextChan == s.nextChan + 1
      else t == s
  {
    if tx !in s.records.results {
      if tx in s.resultWaiters {
        JoinsWaiter(s, call, tx);
      } else if |s.resultWaiters| < 1024 {
        OpensWaiter(s, call, tx);
      }
    }
  }
}
