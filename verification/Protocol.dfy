/** What one board's coordinator may do, as an observer of its actions sees it.

The observer keeps a small summary of the trace and says of each next action whether it is
allowed. The coordinator is proved elsewhere to produce only traces allowed throughout; this
module proves what such traces have in common, from the trace alone. */
module Protocol {
  import opened Basics
  import ManagedCommand
  import Session
  import Command
  import Marker

  type Id = Bytes

  /** A configured pattern, matched against a byte string; nothing is known about it. */
  type Pattern = Bytes -> bool

  datatype LoginConfig = LoginConfig(
    username: Bytes,
    loginPrompt: Option<Pattern>,
    passwordPrompt: Option<Pattern>,
    shellPrompt: Option<Pattern>,
    bootBanner: Option<Pattern>,
    secretPrompts: seq<Option<Pattern>>,
    secretGracePeriod: int,
    authRetryLimit: int)

  const NO_LOGIN: LoginConfig := LoginConfig([], None, None, None, None, [], 0, 0)

  /** An absent pattern never matches. */
  predicate Matches(p: Option<Pattern>, b: Bytes) {
    p.Some? && p.value(b)
  }

  const DEFAULT_AUTH_RETRY_LIMIT: int := 5

  function AuthRetryLimit(cfg: LoginConfig): (n: int)
    ensures n > 0
  {
    if cfg.authRetryLimit > 0 then cfg.authRetryLimit else DEFAULT_AUTH_RETRY_LIMIT
  }

  datatype Obs =
    | Opened(sid: Id, cfg: LoginConfig)      // a start or an approved retry installed a stream
    | Lost                                   // the transport failed
    | Stopped                                // the coordinator was stopped
    | SecretOpened(due: int)                 // also the new deadline of a running command
    | SecretEnded(authenticating: bool)      // the human's secret-done
    | PromptConfirmed(tail: Bytes)
    | BannerSeen(state: Session.State, scan: Bytes)
    | RebootPrompt(tail: Bytes)              // a login or password prompt after a boot banner
    | Rebooted                               // the reboot is acted upon
    | CommandLine(job: Command.Transaction, marker: Marker.Marker, line: Bytes, due: int) // written, perhaps in vain
    | Finished(tx: Id, status: Command.Status, at: int) // a terminal result was recorded
    | UsernameSent(tail: Bytes)
    | Nudged(state: Session.State, tail: Bytes) // a bare newline was written
    | Interrupted                            // Ctrl-C was written
    | HungUp                                 // the gateway closed its stream

  /** A command line as it was written, with the deadline set then. */
  datatype Line = Line(tx: Id, text: Bytes, due: int)

  /** The observer's summary. */
  datatype View = View(
    connected: bool,
    sids: set<Id>,
    sid: Id,
    cfg: LoginConfig,
    secret: bool,
    resync: bool,
    suspect: bool,
    confirmed: bool,
    nudges: nat,
    started: map<Id, Command.Transaction>,
    running: Option<Line>,
    due: int)

  function StartView(sid: Id): View {
    View(false, {sid}, sid, NO_LOGIN, false, false, false, false, 0, map[], None, 0)
  }

  predicate RebootResult(o: Obs) {
    o.Finished? && o.status == Command.TargetRebooted
  }

  /** A reboot prompt confirms the reboot for the results and the handling that follow it at once, and
      for nothing else. */
  function Next(v: View, o: Obs): View {
    Summed(v, o).(confirmed := o.RebootPrompt? || (v.confirmed && RebootResult(o)))
  }

  function Summed(v: View, o: Obs): View {
    match o
    case Opened(sid, cfg) =>
      v.(connected := true, sids := v.sids + {sid}, sid := sid, cfg := cfg, resync := false, suspect := false, nudges := 0)
    case Lost => v.(connected := false)
    case Stopped => v.(suspect := false, nudges := 0)
    case SecretOpened(due) => v.(secret := true, due := due)
    case SecretEnded(authenticating) => v.(secret := false, nudges := if authenticating then 0 else v.nudges)
    case PromptConfirmed(_) => v.(secret := false, resync := false, suspect := false)
    case BannerSeen(_, _) => v.(suspect := true)
    case RebootPrompt(_) => v
    case Rebooted => v.(secret := false, resync := false, suspect := false)
    case CommandLine(job, _, line, due) =>
      v.(started := v.started[job.id := job], running := Some(Line(job.id, line, due)), due := due)
    case Finished(_, status, _) =>
      v.(running := None, resync := v.resync || status == Command.Timeout, suspect := v.suspect && status != Command.Completed)
    case UsernameSent(_) => v
    case Nudged(_, _) => v.(nudges := v.nudges + 1)
    case Interrupted => v
    case HungUp => v
  }

  /** A managed text plus suffix and the one line feed that submits it. */
  predicate PhysicalLine(line: Bytes) {
    && |line| > 0
    && line[|line| - 1] == '\n'
    && ManagedCommand.Managed(line[..|line| - 1])
  }

  /** The text of `job` and its own marker's suffix, submitted by one line feed. */
  predicate LineOf(line: Bytes, job: Command.Transaction, marker: Marker.Marker) {
    && marker.transactionId == job.id && Marker.Good(marker)
    && line == job.text + Marker.ShellSuffix(marker) + "\n"
  }

  predicate Runs(v: View, tx: Id) {
    v.running.Some? && v.running.value.tx == tx
  }

  predicate Allowed(v: View, o: Obs) {
    match o
    case Opened(sid, _) => !v.connected && sid !in v.sids
    case Lost => v.connected
    case BannerSeen(state, scan) =>
      v.connected && Matches(v.cfg.bootBanner, scan) && (state == Session.Ready || state == Session.RunningCommand)
    case RebootPrompt(tail) =>
      v.connected && v.suspect && (Matches(v.cfg.loginPrompt, tail) || Matches(v.cfg.passwordPrompt, tail))
    case Rebooted => v.confirmed
    case PromptConfirmed(tail) => Matches(v.cfg.shellPrompt, tail)
    case CommandLine(job, marker, line, due) =>
      && v.connected && !v.secret && !v.resync && v.running == None && job.id !in v.started
      && PhysicalLine(line) && LineOf(line, job, marker) && due == job.approvedAt + job.timeout
    case Finished(tx, status, at) =>
      Runs(v, tx) && (status == Command.TargetRebooted ==> v.confirmed) && (status == Command.Timeout ==> v.due <= at)
    case UsernameSent(tail) => !v.secret && Matches(v.cfg.loginPrompt, tail)
    case Nudged(state, tail) =>
      && v.connected && !v.secret && state == Session.Authenticating
      && !Matches(v.cfg.shellPrompt, tail) && v.nudges < AuthRetryLimit(v.cfg)
    case Interrupted => v.running.Some?
    case HungUp => v.connected
    case _ => true
  }

  // ---- Traces ----

  /** A trace with the observer's running summary of it and the verdict on it. */
  datatype Trail = Trail(first: Id, trace: seq<Obs>, view: View, lawful: bool)

  function NewTrail(first: Id): Trail {
    Trail(first, [], StartView(first), true)
  }

  function See(t: Trail, o: Obs): Trail {
    Trail(t.first, t.trace + [o], Next(t.view, o), t.lawful && Allowed(t.view, o))
  }

  /** The observer started afresh on a given trace. */
  ghost function Replay(first: Id, t: seq<Obs>): Trail {
    if t == [] then NewTrail(first) else See(Replay(first, t[..|t| - 1]), t[|t| - 1])
  }

  /** A trail's summary and verdict are those of its own trace. */
  ghost predicate Faithful(t: Trail) {
    t == Replay(t.first, t.trace)
  }

  lemma SeeFaithful(t: Trail, o: Obs)
    requires Faithful(t)
    ensures Faithful(See(t, o))
  {
    assert (t.trace + [o])[..|t.trace|] == t.trace;
  }

  /** The summary of the first `i` observations. */
  ghost function ViewAt(first: Id, t: seq<Obs>, i: nat): View
    requires i <= |t|
  {
    Replay(first, t[..i]).view
  }

  ghost predicate Lawful(first: Id, t: seq<Obs>) {
    Replay(first, t).lawful
  }

  lemma AtStart(first: Id, t: seq<Obs>)
    ensures ViewAt(first, t, 0) == StartView(first)
  {
    assert t[..0] == [];
  }

  lemma ViewStep(first: Id, t: seq<Obs>, i: nat)
    requires i < |t|
    ensures ViewAt(first, t, i + 1) == Next(ViewAt(first, t, i), t[i])
  {
    assert t[..i + 1][..i] == t[..i];
  }

  lemma {:induction false} LawfulAt(first: Id, t: seq<Obs>, i: nat)
    requires Lawful(first, t) && i < |t|
    ensures Allowed(ViewAt(first, t, i), t[i])
    decreases |t|
  {
    if i < |t| - 1 {
      LawfulAt(first, t[..|t| - 1], i);
      assert t[..|t| - 1][..i] == t[..i];
    }
  }

  /** What one observation can and cannot change. */
  lemma NextChanges(v: View, o: Obs)
    ensures v.sids <= Next(v, o).sids
    ensures !o.Opened? ==> Next(v, o).sid == v.sid && Next(v, o).cfg == v.cfg
    ensures !o.Lost? && v.connected ==> Next(v, o).connected
    ensures v.resync && !Resyncs(o) ==> Next(v, o).resync
    ensures v.secret && !ClosesSecret(o) ==> Next(v, o).secret
  {
  }

  lemma ViewChanges(first: Id, t: seq<Obs>, k: nat)
    requires k < |t|
    ensures var v, w := ViewAt(first, t, k), ViewAt(first, t, k + 1);
      && v.sids <= w.sids
      && (!t[k].Opened? ==> w.sid == v.sid && w.cfg == v.cfg)
      && (!t[k].Lost? && v.connected ==> w.connected)
      && (v.resync && !Resyncs(t[k]) ==> w.resync)
      && (v.secret && !ClosesSecret(t[k]) ==> w.secret)
  {
    ViewStep(first, t, k);
    NextChanges(ViewAt(first, t, k), t[k]);
  }

  /** Some observation in `t[i..j]` satisfies `p`. */
  ghost predicate Between(t: seq<Obs>, i: nat, j: nat, p: Obs -> bool)
    requires j <= |t|
  {
    exists k :: i <= k < j && p(t[k])
  }

  lemma BetweenGrows(t: seq<Obs>, i: nat, j: nat, p: Obs -> bool)
    requires i <= j < |t|
    ensures Between(t, i, j + 1, p) <==> Between(t, i, j, p) || p(t[j])
  {
    if Between(t, i, j, p) {
      var k :| i <= k < j && p(t[k]);
      assert i <= k < j + 1 && p(t[k]);
    }
    if p(t[j]) {
      assert i <= j < j + 1;
    }
  }

  lemma NoneBetween(t: seq<Obs>, i: nat, j: nat, p: Obs -> bool, k: nat)
    requires i <= k < j <= |t| && !Between(t, i, j, p)
    ensures !p(t[k])
  {
  }

  // ---- Resynchronisation and serial execution ----

  const Resyncs: Obs -> bool := (o: Obs) => o.PromptConfirmed? || o.Rebooted? || o.Opened?

  lemma {:induction false} ResyncPersists(first: Id, t: seq<Obs>, i: nat, j: nat)
    requires i <= j <= |t| && ViewAt(first, t, i).resync && !Between(t, i, j, Resyncs)
    ensures ViewAt(first, t, j).resync
    decreases j
  {
    if i < j {
      BetweenGrows(t, i, j - 1, Resyncs);
      ResyncPersists(first, t, i, j - 1);
      ViewChanges(first, t, j - 1);
    }
  }

  /** After a timeout result no command line is written before a confirmed prompt, a confirmed
      reboot, or a new start or retry. */
  lemma TimeoutThenResync(first: Id, t: seq<Obs>, i: nat, j: nat)
    requires Lawful(first, t) && i < j < |t|
    requires t[i].Finished? && t[i].status == Command.Timeout && t[j].CommandLine?
    ensures Between(t, i + 1, j, Resyncs)
  {
    if !Between(t, i + 1, j, Resyncs) {
      ViewStep(first, t, i);
      ResyncPersists(first, t, i + 1, j);
      LawfulAt(first, t, j);
    }
  }

  function Finishes(tx: Id): Obs -> bool {
    (o: Obs) => o.Finished? && o.tx == tx
  }

  lemma StillRuns(v: View, o: Obs, tx: Id)
    requires Runs(v, tx) && Allowed(v, o) && !(o.Finished? && o.tx == tx)
    ensures Runs(Next(v, o), tx)
  {
  }

  lemma StillRunsAt(first: Id, t: seq<Obs>, k: nat, tx: Id)
    requires Lawful(first, t) && k < |t| && Runs(ViewAt(first, t, k), tx) && !(t[k].Finished? && t[k].tx == tx)
    ensures Runs(ViewAt(first, t, k + 1), tx)
  {
    ViewStep(first, t, k);
    LawfulAt(first, t, k);
    StillRuns(ViewAt(first, t, k), t[k], tx);
  }

  lemma {:induction false} RunningPersists(first: Id, t: seq<Obs>, i: nat, j: nat, tx: Id)
    requires Lawful(first, t) && i <= j <= |t| && Runs(ViewAt(first, t, i), tx)
    requires !Between(t, i, j, Finishes(tx))
    ensures Runs(ViewAt(first, t, j), tx)
    decreases j
  {
    if i < j {
      BetweenGrows(t, i, j - 1, Finishes(tx));
      RunningPersists(first, t, i, j - 1, tx);
      assert !Finishes(tx)(t[j - 1]);
      StillRunsAt(first, t, j - 1, tx);
    }
  }

  /** Between any two command lines the first one's result is recorded. */
  lemma CommandLinesSerial(first: Id, t: seq<Obs>, i: nat, j: nat)
    requires Lawful(first, t) && i < j < |t| && t[i].CommandLine? && t[j].CommandLine?
    ensures Between(t, i + 1, j, Finishes(t[i].job.id))
  {
    if !Between(t, i + 1, j, Finishes(t[i].job.id)) {
      ViewStep(first, t, i);
      RunningPersists(first, t, i + 1, j, t[i].job.id);
      LawfulAt(first, t, j);
    }
  }

  /** No transaction is forgotten or replaced. */
  ghost predicate Continued(m: map<Id, Command.Transaction>, n: map<Id, Command.Transaction>) {
    forall id :: id in m ==> id in n && n[id] == m[id]
  }

  lemma NextStarted(v: View, o: Obs)
    requires Allowed(v, o)
    ensures Continued(v.started, Next(v, o).started)
  {
  }

  lemma StartedKeptAt(first: Id, t: seq<Obs>, k: nat)
    requires Lawful(first, t) && k < |t|
    ensures Continued(ViewAt(first, t, k).started, ViewAt(first, t, k + 1).started)
  {
    ViewStep(first, t, k);
    LawfulAt(first, t, k);
    NextStarted(ViewAt(first, t, k), t[k]);
  }

  lemma {:induction false} StartedKept(first: Id, t: seq<Obs>, i: nat, j: nat)
    requires Lawful(first, t) && i <= j <= |t|
    ensures Continued(ViewAt(first, t, i).started, ViewAt(first, t, j).started)
    decreases j
  {
    if i < j {
      StartedKept(first, t, i, j - 1);
      StartedKeptAt(first, t, j - 1);
    }
  }

  /** A command line stays on record as it was written. */
  lemma LineStands(first: Id, t: seq<Obs>, i: nat, j: nat)
    requires Lawful(first, t) && i < j <= |t| && t[i].CommandLine?
    ensures var started := ViewAt(first, t, j).started; t[i].job.id in started && started[t[i].job.id] == t[i].job
  {
    ViewStep(first, t, i);
    StartedKept(first, t, i + 1, j);
  }

  /** No transaction's line is written twice. */
  lemma WrittenOnce(first: Id, t: seq<Obs>, i: nat, j: nat)
    requires Lawful(first, t) && i < j < |t| && t[i].CommandLine? && t[j].CommandLine?
    ensures t[i].job.id != t[j].job.id
  {
    LineStands(first, t, i, j);
    LawfulAt(first, t, j);
  }

  const IsLine: Obs -> bool := (o: Obs) => o.CommandLine?

  lemma RunningBefore(first: Id, t: seq<Obs>, k: nat)
    requires Lawful(first, t) && k < |t| && ViewAt(first, t, k + 1).running.Some?
    ensures !t[k].Finished?
    ensures ViewAt(first, t, k + 1).running
         == if t[k].CommandLine? then Some(Line(t[k].job.id, t[k].line, t[k].due)) else ViewAt(first, t, k).running
  {
    ViewStep(first, t, k);
    LawfulAt(first, t, k);
  }

  lemma {:induction false} RunningWasWritten(first: Id, t: seq<Obs>, j: nat) returns (i: nat)
    requires Lawful(first, t) && j <= |t| && ViewAt(first, t, j).running.Some?
    ensures i < j && t[i].CommandLine? && Some(Line(t[i].job.id, t[i].line, t[i].due)) == ViewAt(first, t, j).running
    ensures !Between(t, i + 1, j, Finishes(t[i].job.id)) && !Between(t, i + 1, j, IsLine)
    decreases j
  {
    AtStart(first, t);
    RunningBefore(first, t, j - 1);
    if t[j - 1].CommandLine? {
      i := j - 1;
    } else {
      i := RunningWasWritten(first, t, j - 1);
      BetweenGrows(t, i + 1, j - 1, Finishes(t[i].job.id));
      BetweenGrows(t, i + 1, j - 1, IsLine);
    }
  }

  /** Every result answers an earlier command line of the same transaction. */
  lemma FinishedWasWritten(first: Id, t: seq<Obs>, j: nat) returns (i: nat)
    requires Lawful(first, t) && j < |t| && t[j].Finished?
    ensures i < j && t[i].CommandLine? && t[i].job.id == t[j].tx
    ensures !Between(t, i + 1, j, Finishes(t[j].tx))
  {
    LawfulAt(first, t, j);
    i := RunningWasWritten(first, t, j);
  }

  /** No transaction gets two results. */
  lemma FinishedOnce(first: Id, t: seq<Obs>, k: nat, j: nat)
    requires Lawful(first, t) && k < j < |t| && t[k].Finished? && t[j].Finished?
    ensures t[k].tx != t[j].tx
  {
    var i := FinishedWasWritten(first, t, j);
    var i' := FinishedWasWritten(first, t, k);
    assert Finishes(t[j].tx)(t[k]) == (t[k].tx == t[j].tx);
    if i' < i {
      WrittenOnce(first, t, i', i);
    } else if i < i' {
      WrittenOnce(first, t, i, i');
    }
  }

  /** No command runs while resynchronisation is pending. */
  lemma {:induction false} RunningNotResync(first: Id, t: seq<Obs>, j: nat)
    requires Lawful(first, t) && j <= |t|
    ensures ViewAt(first, t, j).running.Some? ==> !ViewAt(first, t, j).resync
    decreases j
  {
    if j == 0 {
      AtStart(first, t);
    } else {
      RunningNotResync(first, t, j - 1);
      ViewStep(first, t, j - 1);
      LawfulAt(first, t, j - 1);
      NextRunningNotResync(ViewAt(first, t, j - 1), t[j - 1]);
    }
  }

  lemma NextRunningNotResync(v: View, o: Obs)
    requires Allowed(v, o) && (v.running.Some? ==> !v.resync)
    ensures Next(v, o).running.Some? ==> !Next(v, o).resync
  {
  }

  // ---- Deadlines ----

  const SetsDue: Obs -> bool := (o: Obs) => o.CommandLine? || o.SecretOpened?

  lemma DueBefore(first: Id, t: seq<Obs>, k: nat)
    requires k < |t|
    ensures ViewAt(first, t, k + 1).due
         == if t[k].CommandLine? || t[k].SecretOpened? then t[k].due else ViewAt(first, t, k).due
  {
    ViewStep(first, t, k);
    NextDue(ViewAt(first, t, k), t[k]);
  }

  lemma NextDue(v: View, o: Obs)
    ensures Next(v, o).due == if o.CommandLine? || o.SecretOpened? then o.due else v.due
  {
  }

  /** The standing deadline is the one set last, by a command line or by opening the window. */
  lemma {:induction false} DueWasSet(first: Id, t: seq<Obs>, n: nat, j: nat) returns (i: nat)
    requires n < j <= |t| && SetsDue(t[n])
    ensures n <= i < j && SetsDue(t[i]) && t[i].due == ViewAt(first, t, j).due && !Between(t, i + 1, j, SetsDue)
    decreases j
  {
    DueBefore(first, t, j - 1);
    if SetsDue(t[j - 1]) {
      i := j - 1;
    } else {
      i := DueWasSet(first, t, n, j - 1);
      BetweenGrows(t, i + 1, j - 1, SetsDue);
    }
  }

  /** A timeout is recorded no earlier than the deadline set last since its line was written: the
      one that came with the line or, if a window was opened meanwhile, the last one's. */
  lemma TimeoutNotEarly(first: Id, t: seq<Obs>, j: nat) returns (n: nat, i: nat)
    requires Lawful(first, t) && j < |t| && t[j].Finished? && t[j].status == Command.Timeout
    ensures n <= i < j && t[n].CommandLine? && t[n].job.id == t[j].tx
    ensures (i == n || t[i].SecretOpened?) && t[i].due <= t[j].at
    ensures !Between(t, i + 1, j, SetsDue)
  {
    LawfulAt(first, t, j);
    n := RunningWasWritten(first, t, j);
    i := DueWasSet(first, t, n, j);
    if n < i {
      NoneBetween(t, n + 1, j, IsLine, i);
    }
  }

  // ---- The secret window ----

  const ClosesSecret: Obs -> bool := (o: Obs) => o.PromptConfirmed? || o.SecretEnded? || o.Rebooted?

  /** An open window stays open until a confirmed shell prompt, the human's secret-done or a
      confirmed reboot; nothing else closes it. */
  lemma {:induction false} SecretPersists(first: Id, t: seq<Obs>, i: nat, j: nat)
    requires i <= j <= |t| && ViewAt(first, t, i).secret && !Between(t, i, j, ClosesSecret)
    ensures ViewAt(first, t, j).secret
    decreases j
  {
    if i < j {
      BetweenGrows(t, i, j - 1, ClosesSecret);
      SecretPersists(first, t, i, j - 1);
      ViewChanges(first, t, j - 1);
    }
  }

  /** A timeout stands until a resynchronising action, ... */
  lemma TimeoutStands(first: Id, t: seq<Obs>, i: nat)
    requires i < |t| && t[i].Finished? && t[i].status == Command.Timeout
    ensures ViewAt(first, t, |t|).resync || Between(t, i + 1, |t|, Resyncs)
  {
    ViewStep(first, t, i);
    if !Between(t, i + 1, |t|, Resyncs) {
      ResyncPersists(first, t, i + 1, |t|);
    }
  }

  /** ... and an opened window until an action that closes it. */
  lemma WindowStands(first: Id, t: seq<Obs>, i: nat)
    requires i < |t| && t[i].SecretOpened?
    ensures ViewAt(first, t, |t|).secret || Between(t, i + 1, |t|, ClosesSecret)
  {
    ViewStep(first, t, i);
    if !Between(t, i + 1, |t|, ClosesSecret) {
      SecretPersists(first, t, i + 1, |t|);
    }
  }

  /** While a window is open the gateway writes no command line, username or nudge. */
  lemma SilentWhileSecret(first: Id, t: seq<Obs>, i: nat, j: nat)
    requires Lawful(first, t) && i < j < |t| && t[i].SecretOpened?
    requires t[j].CommandLine? || t[j].UsernameSent? || t[j].Nudged?
    ensures Between(t, i + 1, j, ClosesSecret)
  {
    if !Between(t, i + 1, j, ClosesSecret) {
      ViewStep(first, t, i);
      SecretPersists(first, t, i + 1, j);
      LawfulAt(first, t, j);
    }
  }

  // ---- Nudging ----

  const ResetsNudges: Obs -> bool := (o: Obs) => o.Opened? || o.Stopped? || (o.SecretEnded? && o.authenticating)

  /** How many of the observations `t[i..j]` are nudges. */
  function CountNudges(t: seq<Obs>, i: nat, j: nat): nat
    requires j <= |t|
    decreases j
  {
    if i >= j then 0 else CountNudges(t, i, j - 1) + (if t[j - 1].Nudged? then 1 else 0)
  }

  lemma NudgeStep(v: View, o: Obs)
    requires !ResetsNudges(o)
    ensures Next(v, o).nudges == v.nudges + (if o.Nudged? then 1 else 0)
    ensures Next(v, o).cfg == v.cfg
  {
  }

  lemma {:induction false} NudgesWithinLimit(first: Id, t: seq<Obs>, i: nat)
    requires Lawful(first, t) && i <= |t|
    ensures ViewAt(first, t, i).nudges <= AuthRetryLimit(ViewAt(first, t, i).cfg)
    decreases i
  {
    if i > 0 {
      NudgesWithinLimit(first, t, i - 1);
      ViewStep(first, t, i - 1);
      LawfulAt(first, t, i - 1);
    } else {
      AtStart(first, t);
    }
  }

  lemma {:induction false} NudgesCounted(first: Id, t: seq<Obs>, i: nat, j: nat)
    requires i <= j <= |t| && !Between(t, i, j, ResetsNudges)
    ensures ViewAt(first, t, j).nudges == ViewAt(first, t, i).nudges + CountNudges(t, i, j)
    ensures ViewAt(first, t, j).cfg == ViewAt(first, t, i).cfg
    decreases j
  {
    if i < j {
      BetweenGrows(t, i, j - 1, ResetsNudges);
      NudgesCounted(first, t, i, j - 1);
      ViewStep(first, t, j - 1);
      NudgeStep(ViewAt(first, t, j - 1), t[j - 1]);
    }
  }

  /** Between two counter resets at most the configured number of newlines is written, each
      while authenticating with no shell prompt on the line. */
  lemma NudgesBounded(first: Id, t: seq<Obs>, i: nat, j: nat)
    requires Lawful(first, t) && i <= j <= |t| && !Between(t, i, j, ResetsNudges)
    ensures CountNudges(t, i, j) <= AuthRetryLimit(ViewAt(first, t, i).cfg)
    ensures forall k :: i <= k < j && t[k].Nudged? ==>
      t[k].state == Session.Authenticating && !Matches(ViewAt(first, t, i).cfg.shellPrompt, t[k].tail)
  {
    NudgesCounted(first, t, i, j);
    NudgesWithinLimit(first, t, j);
    forall k | i <= k < j && t[k].Nudged?
      ensures t[k].state == Session.Authenticating && !Matches(ViewAt(first, t, i).cfg.shellPrompt, t[k].tail)
    {
      LawfulAt(first, t, k);
      assert !Between(t, i, k, ResetsNudges);
      NudgesCounted(first, t, i, k);
    }
  }

  // ---- Reboot inference ----

  const RefutesReboot: Obs -> bool :=
    (o: Obs) => (o.Finished? && o.status == Command.Completed) || o.PromptConfirmed? || o.Opened? || o.Stopped? || o.Rebooted? || o.Lost?

  /** A boot banner in `t[i]`, seen while ready or running. */
  ghost predicate BannerAt(first: Id, t: seq<Obs>, i: nat)
    requires i < |t|
  {
    && t[i].BannerSeen? && Matches(ViewAt(first, t, i).cfg.bootBanner, t[i].scan)
    && (t[i].state == Session.Ready || t[i].state == Session.RunningCommand)
  }

  /** A suspicion standing after `t[k]` is due to it or stood before it, unrefuted. */
  lemma SuspectBefore(first: Id, t: seq<Obs>, k: nat)
    requires Lawful(first, t) && k < |t| && ViewAt(first, t, k + 1).suspect && ViewAt(first, t, k + 1).connected
    ensures t[k].BannerSeen? ==> BannerAt(first, t, k)
    ensures !t[k].BannerSeen? ==>
      ViewAt(first, t, k).suspect && ViewAt(first, t, k).connected && !RefutesReboot(t[k])
  {
    ViewStep(first, t, k);
    LawfulAt(first, t, k);
  }

  lemma {:induction false} SuspicionHasBanner(first: Id, t: seq<Obs>, j: nat) returns (i: nat)
    requires Lawful(first, t) && j <= |t| && ViewAt(first, t, j).suspect && ViewAt(first, t, j).connected
    ensures i < j && BannerAt(first, t, i) && !Between(t, i + 1, j, RefutesReboot)
    decreases j
  {
    AtStart(first, t);
    SuspectBefore(first, t, j - 1);
    if t[j - 1].BannerSeen? {
      i := j - 1;
    } else {
      i := SuspicionHasBanner(first, t, j - 1);
      BetweenGrows(t, i + 1, j - 1, RefutesReboot);
    }
  }

  /** A login or password prompt in `t[k]`. */
  ghost predicate PromptAt(first: Id, t: seq<Obs>, k: nat)
    requires k < |t|
  {
    var cfg := ViewAt(first, t, k).cfg;
    t[k].RebootPrompt? && (Matches(cfg.loginPrompt, t[k].tail) || Matches(cfg.passwordPrompt, t[k].tail))
  }

  const IsOther: Obs -> bool := (o: Obs) => !RebootResult(o)

  lemma ConfirmedBefore(first: Id, t: seq<Obs>, k: nat)
    requires Lawful(first, t) && k < |t| && ViewAt(first, t, k + 1).confirmed
    ensures t[k].RebootPrompt? ==> PromptAt(first, t, k)
    ensures !t[k].RebootPrompt? ==> ViewAt(first, t, k).confirmed && !IsOther(t[k])
  {
    ViewStep(first, t, k);
    LawfulAt(first, t, k);
  }

  /** Since the prompt that confirmed the reboot there have been target-rebooted results only. */
  lemma {:induction false} ConfirmationHasPrompt(first: Id, t: seq<Obs>, j: nat) returns (k: nat)
    requires Lawful(first, t) && j <= |t| && ViewAt(first, t, j).confirmed
    ensures k < j && PromptAt(first, t, k) && !Between(t, k + 1, j, IsOther)
    decreases j
  {
    AtStart(first, t);
    ConfirmedBefore(first, t, j - 1);
    if t[j - 1].RebootPrompt? {
      k := j - 1;
    } else {
      k := ConfirmationHasPrompt(first, t, j - 1);
      BetweenGrows(t, k + 1, j - 1, IsOther);
    }
  }

  /** One result never follows another at once. */
  lemma ResultsApart(first: Id, t: seq<Obs>, n: nat)
    requires Lawful(first, t) && n + 1 < |t| && t[n].Finished?
    ensures !t[n + 1].Finished?
  {
    ViewStep(first, t, n);
    LawfulAt(first, t, n + 1);
  }

  /** Every target-rebooted result directly follows a login or password prompt, seen on a stream that
      showed a boot banner while ready or running, with no completed marker, confirmed shell prompt
      or transport reset between banner and prompt. Every reboot acted upon directly follows such a
      prompt too, or such a prompt and the result. */
  lemma RebootHasEvidence(first: Id, t: seq<Obs>, j: nat) returns (i: nat, k: nat)
    requires Lawful(first, t) && j < |t| && (t[j].Rebooted? || RebootResult(t[j]))
    ensures i < k < j && BannerAt(first, t, i) && PromptAt(first, t, k) && !Between(t, i + 1, k, RefutesReboot)
    ensures k + 1 == j || (t[j].Rebooted? && k + 2 == j && RebootResult(t[k + 1]))
  {
    LawfulAt(first, t, j);
    k := ConfirmationHasPrompt(first, t, j);
    LawfulAt(first, t, k);
    i := SuspicionHasBanner(first, t, k);
    forall n | k + 1 <= n < j
      ensures RebootResult(t[n])
    {
      NoneBetween(t, k + 1, j, IsOther, n);
    }
    if k + 1 < j {
      ResultsApart(first, t, k + 1);
    }
  }

  // ---- Sessions ----

  const IsLost: Obs -> bool := (o: Obs) => o.Lost?
  const IsOpened: Obs -> bool := (o: Obs) => o.Opened?

  lemma {:induction false} SidsGrow(first: Id, t: seq<Obs>, i: nat, j: nat)
    requires i <= j <= |t|
    ensures ViewAt(first, t, i).sids <= ViewAt(first, t, j).sids
    decreases j
  {
    if i < j {
      SidsGrow(first, t, i, j - 1);
      ViewChanges(first, t, j - 1);
    }
  }

  lemma {:induction false} ConnectedPersists(first: Id, t: seq<Obs>, i: nat, j: nat)
    requires i <= j <= |t| && ViewAt(first, t, i).connected && !Between(t, i, j, IsLost)
    ensures ViewAt(first, t, j).connected
    decreases j
  {
    if i < j {
      BetweenGrows(t, i, j - 1, IsLost);
      ConnectedPersists(first, t, i, j - 1);
      ViewChanges(first, t, j - 1);
    }
  }

  /** Session identifiers are pairwise distinct and differ from the initial one, and a stream
      is only replaced after it was lost. */
  lemma SessionsDistinct(first: Id, t: seq<Obs>, i: nat, j: nat)
    requires Lawful(first, t) && i < j < |t| && t[i].Opened? && t[j].Opened?
    ensures t[i].sid != t[j].sid && t[j].sid != first
    ensures Between(t, i + 1, j, IsLost)
  {
    ViewStep(first, t, i);
    SidsGrow(first, t, i + 1, j);
    SidsGrow(first, t, 0, j);
    AtStart(first, t);
    LawfulAt(first, t, j);
    if !Between(t, i + 1, j, IsLost) {
      ConnectedPersists(first, t, i + 1, j);
    }
  }

  const Restarts: Obs -> bool := (o: Obs) => o.Rebooted? || o.Opened?

  /** Without a shell prompt to recognise, only a confirmed reboot or a new stream lets a command line
      follow a timeout. */
  lemma PromptlessTimeout(first: Id, t: seq<Obs>, i: nat, j: nat)
    requires Lawful(first, t) && i < j < |t|
    requires t[i].Finished? && t[i].status == Command.Timeout && t[j].CommandLine?
    requires ViewAt(first, t, i).cfg.shellPrompt == None
    ensures Between(t, i + 1, j, Restarts)
  {
    TimeoutThenResync(first, t, i, j);
    var k :| i + 1 <= k < j && Resyncs(t[k]);
    if t[k].PromptConfirmed? {
      LawfulAt(first, t, k);
      PromptOfNewStream(first, t, i, k);
    } else {
      assert Restarts(t[k]);
    }
  }

  /** A confirmed prompt where none was configured belongs to a stream opened since. */
  lemma PromptOfNewStream(first: Id, t: seq<Obs>, i: nat, k: nat)
    requires i < k < |t| && ViewAt(first, t, i).cfg.shellPrompt == None && ViewAt(first, t, k).cfg.shellPrompt.Some?
    requires !t[i].Opened?
    ensures exists n :: i + 1 <= n < k && Restarts(t[n])
  {
    ViewChanges(first, t, i);
    if !Between(t, i + 1, k, IsOpened) {
      SidStable(first, t, i + 1, k);
    }
    var n :| i + 1 <= n < k && IsOpened(t[n]);
    assert Restarts(t[n]);
  }

  /** Nothing but a start or retry changes the session identifier or the configuration. */
  lemma {:induction false} SidStable(first: Id, t: seq<Obs>, i: nat, j: nat)
    requires i <= j <= |t| && !Between(t, i, j, IsOpened)
    ensures ViewAt(first, t, j).sid == ViewAt(first, t, i).sid && ViewAt(first, t, j).cfg == ViewAt(first, t, i).cfg
    decreases j
  {
    if i < j {
      BetweenGrows(t, i, j - 1, IsOpened);
      SidStable(first, t, i, j - 1);
      assert !IsOpened(t[j - 1]);
      ViewChanges(first, t, j - 1);
    }
  }
}
