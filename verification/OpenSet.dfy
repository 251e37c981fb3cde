/** The durable set of open transactions and its crash recovery (cmd/gatewayd/openset.go).

An operation of the set is a few effects on memory, on the set's file and on the audit log; the
daemon may die between any two of them, and each effect on a file may fail. The file is replaced
by renaming, so it changes whole or not at all. */
module OpenTransactions {
  import opened Basics

  type Id = Bytes

  /** A terminal audit record. */
  datatype Record = Record(session: Id, id: Id, status: Bytes)

  const DAEMON_RESTARTED: Bytes := "daemon-restarted"

  /** What the daemon is in the middle of: nothing, replacing the file, or removing the entry whose
      record it has just written. */
  datatype Phase = Down | Idle | Saving | Appended(id: Id)

  datatype World = World(
    open: map<Id, Id>,   // the file: transaction to session
    audit: seq<Record>,  // the log
    ids: map<Id, Id>,    // the set in memory
    phase: Phase,
    // history
    durable: set<Id>,    // every transaction that was ever in the file
    loaded: set<Id>,     // what this daemon found in the file
    adds: multiset<Id>,  // what this daemon added
    mark: nat)           // how long the log was when this daemon started

  function Blank(): World {
    World(map[], [], map[], Down, {}, {}, multiset{}, 0)
  }

  datatype Effect =
    | Boot
    | AddEntry(id: Id, session: Id)
    | Append(id: Id, status: Bytes)
    | AppendFails
    | RemoveEntry
    | Save
    | SaveFails
    | Crash

  predicate Enabled(w: World, e: Effect) {
    match e
    case Boot => w.phase.Down?
    case AddEntry(_, _) => w.phase.Idle?
    case Append(id, _) => w.phase.Idle? && id in w.ids
    case AppendFails => w.phase.Idle?
    case RemoveEntry => w.phase.Appended?
    case Save => w.phase.Saving?
    case SaveFails => w.phase.Saving?
    case Crash => true
  }

  function Step(w: World, e: Effect): World
    requires Enabled(w, e)
  {
    match e
    case Boot => w.(ids := w.open, phase := Idle, loaded := w.open.Keys, adds := multiset{}, mark := |w.audit|)
    case AddEntry(id, session) => w.(ids := w.ids[id := session], phase := Saving, adds := w.adds + multiset{id})
    case Append(id, status) => w.(audit := w.audit + [Record(w.ids[id], id, status)], phase := Appended(id))
    case AppendFails => w
    case RemoveEntry => w.(ids := w.ids - {w.phase.id}, phase := Saving)
    case Save => w.(open := w.ids, phase := Idle, durable := w.durable + w.ids.Keys)
    case SaveFails => w.(phase := Idle)
    case Crash => w.(ids := map[], phase := Down)
  }

  // ---- Records ----

  function Count(log: seq<Record>, id: Id): nat {
    if log == [] then 0
    else
      var n := Count(log[..|log| - 1], id);
      if log[|log| - 1].id == id then n + 1 else n
  }

  predicate Recorded(w: World, id: Id) {
    Count(w.audit, id) > 0
  }

  lemma {:induction false} CountPositive(log: seq<Record>, id: Id)
    ensures Count(log, id) > 0 <==> exists i :: 0 <= i < |log| && log[i].id == id
  {
    if log != [] {
      var n := |log| - 1;
      CountPositive(log[..n], id);
      assert forall i :: 0 <= i < n ==> log[..n][i] == log[i];
    }
  }

  lemma CountSnoc(log: seq<Record>, r: Record, id: Id)
    ensures Count(log + [r], id) == Count(log, id) + if r.id == id then 1 else 0
  {
    assert (log + [r])[..|log|] == log;
  }

  // ---- What every effect keeps ----

  /** No transaction that ever reached the file is forgotten without a record. */
  ghost predicate Safe(w: World) {
    && w.open.Keys <= w.durable
    && forall id :: id in w.durable ==> id in w.open || Recorded(w, id)
  }

  /** While the daemon runs, an entry that is in the file but no longer in memory has its record. */
  ghost predicate Backed(w: World) {
    !w.phase.Down? ==> forall id :: id in w.open ==> id in w.ids || Recorded(w, id)
  }

  ghost predicate Written(w: World) {
    w.phase.Appended? ==> w.phase.id in w.ids && Recorded(w, w.phase.id)
  }

  /** The records this daemon may still write for `id`: an entry is the claim to one. */
  function Claims(w: World, id: Id): nat {
    if id in w.ids && w.phase != Appended(id) then 1 else 0
  }

  function Granted(w: World, id: Id): nat {
    w.adds[id] + if id in w.loaded then 1 else 0
  }

  /** This daemon has written, or may still write, at most one record per entry it added or found. */
  ghost predicate Spends(w: World, id: Id)
    requires w.mark <= |w.audit|
  {
    Count(w.audit[w.mark..], id) + Claims(w, id) <= Granted(w, id)
  }

  ghost predicate Once(w: World) {
    && w.mark <= |w.audit|
    && (!w.phase.Down? ==> forall id :: Spends(w, id))
  }

  ghost predicate Inv(w: World) {
    Safe(w) && Backed(w) && Written(w) && Once(w)
  }

  lemma AppendRecords(w: World, id: Id, status: Bytes)
    requires Enabled(w, Append(id, status))
    ensures var w' := Step(w, Append(id, status));
      Recorded(w', id) && forall x :: Recorded(w, x) ==> Recorded(w', x)
  {
    var r := Record(w.ids[id], id, status);
    CountSnoc(w.audit, r, id);
    forall x | Recorded(w, x)
      ensures Recorded(Step(w, Append(id, status)), x)
    {
      CountSnoc(w.audit, r, x);
    }
  }

  lemma AppendSpends(w: World, id: Id, status: Bytes, x: Id)
    requires Enabled(w, Append(id, status)) && w.mark <= |w.audit| && Spends(w, x)
    ensures Spends(Step(w, Append(id, status)), x)
  {
    var r := Record(w.ids[id], id, status);
    assert (w.audit + [r])[w.mark..] == w.audit[w.mark..] + [r];
    CountSnoc(w.audit[w.mark..], r, x);
  }

  lemma AppendInv(w: World, id: Id, status: Bytes)
    requires Inv(w) && Enabled(w, Append(id, status))
    ensures Inv(Step(w, Append(id, status)))
  {
    AppendRecords(w, id, status);
    forall x
      ensures Spends(Step(w, Append(id, status)), x)
    {
      AppendSpends(w, id, status, x);
    }
  }

  lemma BootInv(w: World)
    requires Inv(w) && w.phase.Down?
    ensures Inv(Step(w, Boot))
  {
    assert w.audit[|w.audit|..] == [];
  }

  lemma EntryInv(w: World, e: Effect)
    requires Inv(w) && Enabled(w, e) && (e.AddEntry? || e.RemoveEntry?)
    ensures Inv(Step(w, e))
  {
    forall x
      ensures Spends(Step(w, e), x)
    {
      assert Spends(w, x);
    }
  }

  lemma SaveInv(w: World, e: Effect)
    requires Inv(w) && Enabled(w, e) && (e.Save? || e.SaveFails? || e.AppendFails? || e.Crash?)
    ensures Inv(Step(w, e))
  {
    if !w.phase.Down? && !e.Crash? {
      forall x
        ensures Spends(Step(w, e), x)
      {
        assert Spends(w, x);
      }
    }
  }

  lemma StepInv(w: World, e: Effect)
    requires Inv(w) && Enabled(w, e)
    ensures Inv(Step(w, e))
  {
    match e {
      case Boot => BootInv(w);
      case Append(id, status) => AppendInv(w, id, status);
      case AddEntry(_, _) => EntryInv(w, e);
      case RemoveEntry => EntryInv(w, e);
      case _ => SaveInv(w, e);
    }
  }

  // ---- Lives ----

  ghost predicate Possible(run: seq<Effect>)
    decreases |run|, 0
  {
    run == [] || (Possible(run[..|run| - 1]) && Enabled(After(run[..|run| - 1]), run[|run| - 1]))
  }

  /** The world after any number of daemon lifetimes, cut off anywhere. */
  ghost function After(run: seq<Effect>): World
    requires Possible(run)
    decreases |run|, 1
  {
    if run == [] then Blank() else Step(After(run[..|run| - 1]), run[|run| - 1])
  }

  lemma {:induction false} RunInv(run: seq<Effect>)
    requires Possible(run)
    ensures Inv(After(run))
  {
    if run != [] {
      RunInv(run[..|run| - 1]);
      StepInv(After(run[..|run| - 1]), run[|run| - 1]);
    }
  }

  /** Wherever the daemon dies, each transaction that was ever in the file is still in it or has a
      result record, so the next daemon loads it or need not. */
  lemma NothingLostAtCrash(run: seq<Effect>, id: Id)
    requires Possible(run + [Crash] + [Boot]) && Possible(run) && id in After(run).durable
    ensures var w := After(run + [Crash] + [Boot]); id in w.ids || Recorded(w, id)
  {
    var crashed := run + [Crash];
    assert crashed[..|run|] == run;
    assert (crashed + [Boot])[..|crashed|] == crashed;
    RunInv(run);
  }

  /** Once a daemon has emptied its set, no transaction that was ever in the file is without a
      record. */
  lemma EmptySetMeansAllRecorded(run: seq<Effect>, id: Id)
    requires Possible(run) && !After(run).phase.Down? && After(run).ids == map[] && id in After(run).durable
    ensures Recorded(After(run), id)
  {
    RunInv(run);
  }

  /** However dispatcher and reconciler race, one daemon writes at most one record for a
      transaction it added once and did not find in the file. */
  lemma AtMostOneRecord(run: seq<Effect>, id: Id)
    requires Possible(run) && !After(run).phase.Down?
    requires After(run).adds[id] <= 1 && id !in After(run).loaded
    ensures var w := After(run); w.mark <= |w.audit| && Count(w.audit[w.mark..], id) <= 1
  {
    RunInv(run);
    assert Spends(After(run), id);
  }

  // ---- Attribution ----

  /** Every entry and every record names the session `of` assigns to its transaction. */
  ghost predicate NamesSessions(w: World, of: Id -> Id) {
    && (forall id :: id in w.open ==> w.open[id] == of(id))
    && (forall id :: id in w.ids ==> w.ids[id] == of(id))
    && (forall i :: 0 <= i < |w.audit| ==> w.audit[i].session == of(w.audit[i].id))
  }

  predicate AddsFor(run: seq<Effect>, of: Id -> Id) {
    forall i :: 0 <= i < |run| && run[i].AddEntry? ==> run[i].session == of(run[i].id)
  }

  /** If transactions are added with the session they ran under, then every record, recovered ones
      included, is attributed to that session. */
  lemma {:induction false} RecordsAttributed(run: seq<Effect>, of: Id -> Id)
    requires Possible(run) && AddsFor(run, of)
    ensures NamesSessions(After(run), of)
  {
    if run != [] {
      var n := |run| - 1;
      assert forall i :: 0 <= i < n ==> run[..n][i] == run[i];
      RecordsAttributed(run[..n], of);
      StepNamesSessions(After(run[..n]), run[n], of);
    }
  }

  lemma StepNamesSessions(w: World, e: Effect, of: Id -> Id)
    requires NamesSessions(w, of) && Enabled(w, e) && (e.AddEntry? ==> e.session == of(e.id))
    ensures NamesSessions(Step(w, e), of)
  {
  }

  // ---- Across crashes ----

  /** How often the run adds `id`. */
  function Adds(run: seq<Effect>, id: Id): nat {
    if run == [] then 0
    else
      var e := run[|run| - 1];
      Adds(run[..|run| - 1], id) + if e.AddEntry? && e.id == id then 1 else 0
  }

  /** The entry is in the file though its record is written. */
  predicate Stale(w: World, id: Id) {
    id in w.open && Recorded(w, id)
  }

  /** No crash strikes while the entry of `id` is stale. */
  ghost predicate NeverStale(run: seq<Effect>, id: Id)
    requires Possible(run)
  {
    run == [] ||
      (NeverStale(run[..|run| - 1], id) && (run[|run| - 1].Crash? ==> !Stale(After(run[..|run| - 1]), id)))
  }

  /** What may still be recorded for `id`, by this daemon or by the next. */
  function Pending(w: World, id: Id): nat {
    if w.phase.Down? then (if id in w.open then 1 else 0) else Claims(w, id)
  }

  ghost predicate Frugal(w: World, adds: nat, id: Id) {
    && Count(w.audit, id) + Pending(w, id) <= adds
    && (id in w.open || id in w.ids ==> adds > 0)
  }

  lemma StepFrugal(w: World, e: Effect, adds: nat, id: Id)
    requires Frugal(w, adds, id) && Enabled(w, e) && (e.Crash? ==> !Stale(w, id))
    ensures Frugal(Step(w, e), adds + if e.AddEntry? && e.id == id then 1 else 0, id)
  {
    if e.Append? {
      CountSnoc(w.audit, Record(w.ids[e.id], e.id, e.status), id);
    }
  }

  lemma {:induction false} RunFrugal(run: seq<Effect>, id: Id)
    requires Possible(run) && NeverStale(run, id)
    ensures Frugal(After(run), Adds(run, id), id)
  {
    if run != [] {
      var n := |run| - 1;
      RunFrugal(run[..n], id);
      StepFrugal(After(run[..n]), run[n], Adds(run[..n], id), id);
    }
  }

  /** Over all lifetimes together there is at most one record per add, as long as no crash strikes
      between a record and the replacement of the file that follows it. */
  lemma AtMostOneRecordEver(run: seq<Effect>, id: Id)
    requires Possible(run) && NeverStale(run, id)
    ensures Count(After(run).audit, id) <= Adds(run, id)
  {
    RunFrugal(run, id);
  }

  /** A record exists and a further one is written or due. */
  ghost predicate Doubled(w: World, id: Id) {
    && Count(w.audit, id) >= 1
    && Count(w.audit, id) + Pending(w, id) >= 2
    && (Count(w.audit, id) == 1 ==> id in w.open)
    && (w.phase == Appended(id) ==> Count(w.audit, id) >= 2)
  }

  lemma StepDoubled(w: World, e: Effect, id: Id)
    requires Doubled(w, id) && Enabled(w, e)
    ensures Doubled(Step(w, e), id)
  {
    if e.Append? {
      CountSnoc(w.audit, Record(w.ids[e.id], e.id, e.status), id);
    }
  }

  /** Once a crash has struck a stale entry, a second record is written or due ever after. */
  lemma {:induction false} RunDoubled(run: seq<Effect>, id: Id)
    requires Possible(run) && !NeverStale(run, id)
    ensures Doubled(After(run), id)
  {
    var n := |run| - 1;
    if NeverStale(run[..n], id) {
      assert run[n].Crash? && Stale(After(run[..n]), id);
    } else {
      RunDoubled(run[..n], id);
      StepDoubled(After(run[..n]), run[n], id);
    }
  }

  /** For a transaction added at most once, the records written and still due over all lifetimes
      are at most one if and only if no crash struck while its entry was stale. */
  lemma AtMostOneRecordIff(run: seq<Effect>, id: Id)
    requires Possible(run) && Adds(run, id) <= 1
    ensures NeverStale(run, id) <==> Count(After(run).audit, id) + Pending(After(run), id) <= 1
  {
    if NeverStale(run, id) {
      RunFrugal(run, id);
    } else {
      RunDoubled(run, id);
    }
  }

  lemma OneMore(run: seq<Effect>, e: Effect)
    requires Possible(run) && Enabled(After(run), e)
    ensures Possible(run + [e]) && After(run + [e]) == Step(After(run), e)
    ensures forall id :: Adds(run + [e], id) == Adds(run, id) + if e.AddEntry? && e.id == id then 1 else 0
  {
    assert (run + [e])[..|run|] == run;
  }

  /** A crash on a stale entry does lead to a second record, without a second add: recovery cannot
      tell a stale entry from an open one. */
  lemma StaleCrashRecordsAgain(run: seq<Effect>, id: Id)
    requires Possible(run) && Stale(After(run), id)
    ensures var again := run + [Crash] + [Boot] + [Append(id, DAEMON_RESTARTED)];
      && Possible(again) && Adds(again, id) == Adds(run, id)
      && Count(After(again).audit, id) == Count(After(run).audit, id) + 1
  {
    var w := After(run);
    OneMore(run, Crash);
    OneMore(run + [Crash], Boot);
    OneMore(run + [Crash] + [Boot], Append(id, DAEMON_RESTARTED));
    CountSnoc(w.audit, Record(w.open[id], id, DAEMON_RESTARTED), id);
  }

  /** A transaction is added, ends and is recorded; the daemon dies before the file is replaced,
      and the next one recovers. */
  function Unlucky(): seq<Effect> {
    [Boot] + [AddEntry("t", "s")] + [Save] + [Append("t", "completed")]
  }

  lemma UnluckyIsStale()
    ensures Possible(Unlucky()) && Adds(Unlucky(), "t") == 1 && Stale(After(Unlucky()), "t")
    ensures Count(After(Unlucky()).audit, "t") == 1
  {
    var r: seq<Effect> := [];
    OneMore(r, Boot);
    assert r + [Boot] == [Boot];
    OneMore([Boot], AddEntry("t", "s"));
    OneMore([Boot] + [AddEntry("t", "s")], Save);
    OneMore([Boot] + [AddEntry("t", "s")] + [Save], Append("t", "completed"));
    CountSnoc([], Record("s", "t", "completed"), "t");
  }

  /** One add, two records. */
  lemma TwoRecordsForOneAdd()
    ensures var run := Unlucky() + [Crash] + [Boot] + [Append("t", DAEMON_RESTARTED)];
      Possible(run) && Adds(run, "t") == 1 && Count(After(run).audit, "t") == 2
  {
    UnluckyIsStale();
    StaleCrashRecordsAgain(Unlucky(), "t");
  }

  // ---- The set itself ----

  /** The two files. */
  class Files {
    var open: map<Id, Id>
    var audit: seq<Record>

    constructor ()
      ensures open == map[] && audit == []
    {
      open, audit := map[], [];
    }
  }

  /** What a pass that clears `cleared` out of the entries `all` does to the log: it appends one
      record for each, and nothing else. */
  ghost predicate Finalized(before: seq<Record>, after: seq<Record>, all: map<Id, Id>, cleared: set<Id>, statuses: map<Id, Bytes>) {
    && before <= after
    && (forall i :: |before| <= i < |after| ==> IsRecordOf(after[i], all, cleared, statuses))
    && (forall id :: Count(after, id) == Count(before, id) + if id in cleared then 1 else 0)
  }

  predicate IsRecordOf(r: Record, all: map<Id, Id>, cleared: set<Id>, statuses: map<Id, Bytes>) {
    r.id in cleared && r.id in all && r.id in statuses && r == Record(all[r.id], r.id, statuses[r.id])
  }

  lemma FinalizedMore(before: seq<Record>, after: seq<Record>, all: map<Id, Id>, cleared: set<Id>, statuses: map<Id, Bytes>, id: Id)
    requires Finalized(before, after, all, cleared, statuses)
    requires id !in cleared && id in all && id in statuses
    ensures Finalized(before, after + [Record(all[id], id, statuses[id])], all, cleared + {id}, statuses)
  {
    var r := Record(all[id], id, statuses[id]);
    forall x
      ensures Count(after + [r], x) == Count(before, x) + if x in cleared + {id} then 1 else 0
    {
      CountSnoc(after, r, x);
    }
    forall i | |before| <= i < |after + [r]|
      ensures IsRecordOf((after + [r])[i], all, cleared + {id}, statuses)
    {
      if i < |after| {
        assert IsRecordOf(after[i], all, cleared, statuses);
      }
    }
  }

  class OpenSet {
    const files: Files
    var ids: map<Id, Id>
    ghost var life: seq<Effect> // everything that happened so far, in all lifetimes

    /** The effects so far are a possible run, and memory and files are as it left them. */
    ghost predicate Tracks(phase: Phase)
      reads this, files
    {
      && Possible(life)
      && var w := After(life);
         w.open == files.open && w.audit == files.audit && w.ids == ids && w.phase == phase
    }

    ghost predicate Valid()
      reads this, files
    {
      Tracks(Idle)
    }

    /** Loads the file a former daemon may have left. */
    constructor (files: Files, ghost past: seq<Effect>)
      requires Possible(past) && After(past).phase.Down?
      requires After(past).open == files.open && After(past).audit == files.audit
      ensures this.files == files && Valid() && life == past + [Boot] && ids == files.open
    {
      this.files := files;
      ids := files.open;
      life := past + [Boot];
      OneMore(past, Boot);
    }

    method Save(saveOk: bool)
      requires Tracks(Saving)
      modifies this`life, files`open
      ensures Valid() && life == old(life) + [if saveOk then Effect.Save else SaveFails]
      ensures files.open == if saveOk then ids else old(files.open)
    {
      ghost var e := if saveOk then Effect.Save else SaveFails;
      OneMore(life, e);
      life := life + [e];
      if saveOk {
        files.open := ids;
      }
    }

    method Add(id: Id, session: Id, saveOk: bool) returns (ok: bool)
      requires Valid()
      modifies this, files`open
      ensures Valid() && ok == saveOk
      ensures life == old(life) + [AddEntry(id, session)] + [if saveOk then Effect.Save else SaveFails]
      ensures ids == old(ids)[id := session]
      ensures files.open == if saveOk then ids else old(files.open)
    {
      OneMore(life, AddEntry(id, session));
      ids := ids[id := session];
      life := life + [AddEntry(id, session)];
      Save(saveOk);
      return saveOk;
    }

    /** The entry is the claim: whoever finds it writes the record and removes it. */
    method Finalize(id: Id, status: Bytes, appendOk: bool, saveOk: bool) returns (claimed: bool, failed: bool)
      requires Valid()
      modifies this, files
      ensures Valid()
      ensures claimed <==> id in old(ids) && appendOk
      ensures failed <==> id in old(ids) && (!appendOk || !saveOk)
      ensures ids == if claimed then old(ids) - {id} else old(ids)
      ensures files.audit == if claimed then old(files.audit) + [Record(old(ids)[id], id, status)] else old(files.audit)
      ensures files.open == if claimed && saveOk then ids else old(files.open)
      ensures claimed ==>
        life == old(life) + [Append(id, status)] + [RemoveEntry] + [if saveOk then Effect.Save else SaveFails]
    {
      if id !in ids {
        return false, false;
      }
      if !appendOk {
        return false, true;
      }
      OneMore(life, Append(id, status));
      files.audit := files.audit + [Record(ids[id], id, status)];
      life := life + [Append(id, status)];
      OneMore(life, RemoveEntry);
      ids := ids - {id};
      life := life + [RemoveEntry];
      Save(saveOk);
      return true, !saveOk;
    }

    /** Flushes every open transaction that has a result, given by `results`; an entry whose record
        cannot be written, as for those in `unlogged`, stays open. */
    method Reconcile(results: map<Id, Bytes>, unlogged: set<Id>, unsaved: set<Id>)
      requires Valid()
      modifies this, files
      ensures Valid()
      ensures var cleared := set id | id in old(ids) && id in results && id !in unlogged;
        ids == old(ids) - cleared && Finalized(old(files.audit), files.audit, old(ids), cleared, results)
    {
      var todo := ids.Keys;
      ghost var cleared := {};
      while todo != {}
        invariant Valid() && todo <= old(ids).Keys
        invariant ids == old(ids) - cleared
        invariant forall id :: id in cleared <==> id in old(ids) && id in results && id !in unlogged && id !in todo
        invariant Finalized(old(files.audit), files.audit, old(ids), cleared, results)
        decreases |todo|
      {
        var id :| id in todo;
        todo := todo - {id};
        if id in results {
          var failed;
          failed, cleared := Flush(id, results, id !in unlogged, id !in unsaved, old(ids), old(files.audit), cleared);
        }
      }
      assert cleared == set id | id in old(ids) && id in results && id !in unlogged;
    }

    /** One step of a pass: `cleared` of the entries `all` are gone, and now perhaps `id`. */
    method Flush(id: Id, statuses: map<Id, Bytes>, appendOk: bool, saveOk: bool,
        ghost all: map<Id, Id>, ghost audit: seq<Record>, ghost cleared: set<Id>)
      returns (failed: bool, ghost now: set<Id>)
      requires Valid() && id in statuses && id in all && id !in cleared && ids == all - cleared
      requires Finalized(audit, files.audit, all, cleared, statuses)
      modifies this, files
      ensures Valid()
      ensures now == if appendOk then cleared + {id} else cleared
      ensures ids == all - now && Finalized(audit, files.audit, all, now, statuses)
      ensures failed <==> !appendOk || !saveOk
      ensures appendOk && saveOk ==> files.open == ids && ids.Keys == old(ids.Keys) - {id}
    {
      FinalizedMore(audit, files.audit, all, cleared, statuses, id);
      var claimed;
      claimed, failed := Finalize(id, statuses[id], appendOk, saveOk);
      now := if claimed then cleared + {id} else cleared;
    }

    /** Runs once at startup: every transaction found in the file is recorded as ended by the
        restart, or the first failure to write the log or the file is reported. */
    method Recover(unlogged: set<Id>, unsaved: set<Id>) returns (ok: bool, ghost cleared: set<Id>)
      requires Valid() && files.open == ids
      modifies this, files
      ensures Valid()
      ensures ok <==> old(ids).Keys !! unlogged + unsaved
      ensures ok ==> cleared == old(ids).Keys && ids == map[] && files.open == map[]
      ensures cleared <= old(ids).Keys && ids == old(ids) - cleared
      ensures Finalized(old(files.audit), files.audit, old(ids), cleared, Restarted(old(ids)))
    {
      ghost var all, audit := ids, files.audit;
      var todo := ids.Keys;
      var statuses := Restarted(ids);
      cleared := {};
      while todo != {}
        invariant Valid() && cleared <= all.Keys && ids == all - cleared
        invariant Finalized(audit, files.audit, all, cleared, statuses)
        invariant todo == ids.Keys && files.open == ids
        invariant cleared !! unlogged + unsaved
        decreases |todo|
      {
        var id :| id in todo;
        todo := todo - {id};
        var failed;
        failed, cleared := Flush(id, statuses, id !in unlogged, id !in unsaved, all, audit, cleared);
        if failed {
          assert id in all.Keys && id in unlogged + unsaved;
          return false, cleared;
        }
      }
      return true, cleared;
    }
  }

  function Restarted(ids: map<Id, Id>): map<Id, Bytes> {
    map id | id in ids :: DAEMON_RESTARTED
  }
}
