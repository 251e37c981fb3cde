/** When the coordinator completes a transaction, in terms of what the console printed. */
module GatewayStatus {
  import opened Basics
  import opened Gateway
  import opened GatewayJobs
  import opened GatewayLedger
  import Command
  import Marker
  import Protocol
  import Session
  import Transcript

  /** The chunk the reader holds, once noted. */
  function Noted(s: State): State
    requires s.reader.Holding?
  {
    NoteArrival(s.(reader := Reading), s.reader.raw)
  }

  /** The chunk reaches marker matching: a command is running, no window is open, and the line does not
      confirm a reboot or ask for a secret. */
  predicate Undisturbed(s: State) {
    && s.reader.Holding? && s.act.Some? && s.sess.state == Session.RunningCommand && !s.secret
    && !RebootConfirmed(Noted(s)) && !SecretPromptMatches(s.cfg, Noted(s).lineTail)
  }

  /** The bytes of the active transaction's output that marker matching looks at. */
  function Visible(s: State): Bytes
    requires s.act.Some?
  {
    Transcript.ReadLog(s.log, RING_CAPACITY, s.act.value.startSeq, MARKER_SCAN).data
  }

  // ---- Completing ----

  /** `t` follows from `s` by completing the active transaction with `code`. */
  ghost predicate CompletesWith(s: State, t: State, code: int)
    requires s.act.Some?
  {
    var id := s.act.value.tx.id;
    && t.act == None
    && id in t.records.results
    && t.records.results[id].status == Command.Completed && t.records.results[id].exitCode == Some(code)
  }

  lemma FinishCompletes(s: State, a: Active, code: int, now: int)
    requires s.act == Some(a) && ActiveOk(s.records, a)
    ensures CompletesWith(s, FinishActive(s, a, Command.Completed, Some(code), now), code)
  {
  }

  lemma MarkerCompletes(s: State, now: int)
    requires s.act.Some? && ActiveOk(s.records, s.act.value)
    ensures var found := Marker.Search(s.act.value.marker, Visible(s));
      if found.Some? then CompletesWith(s, HandleMarker(s, now), found.value) else HandleMarker(s, now) == s
  {
    var a := s.act.value;
    var found := Marker.Search(a.marker, Visible(s));
    if found.Some? {
      FinishCompletes(s.(rebootSuspect := false), a, found.value, now);
    } else {
      assert HandleMarker(s, now) == s;
    }
  }

  lemma UndisturbedProgress(s: State, now: int)
    requires Undisturbed(s)
    ensures OnData(s.(reader := Reading), s.reader.raw, now) == ArmPromptConfirm(HandleMarker(Noted(s), now))
  {
    assert Respond(Noted(s), now) == RespondToLine(Noted(s), now);
    assert Progress(Noted(s), now) == HandleMarker(Noted(s), now);
  }

  lemma NotedKeeps(s: State)
    requires s.reader.Holding?
    ensures Noted(s).act == s.act && Noted(s).records == s.records && Noted(s).log == s.log
  {
  }

  /** A chunk that reaches marker matching completes the transaction if and only if its marker is found
      in the visible output, and then with the status found. */
  lemma ChunkCompletesIff(s: State, now: int)
    requires Undisturbed(s) && Books(s)
    ensures var found := Marker.Search(s.act.value.marker, Visible(s));
      var t := OnData(s.(reader := Reading), s.reader.raw, now);
      if found.Some? then CompletesWith(s, t, found.value) else t.act == s.act && t.records == s.records
  {
    NotedKeeps(s);
    UndisturbedProgress(s, now);
    MarkerCompletes(Noted(s), now);
  }

  // ---- Runs ----

  lemma AfterChunk(sid: Id, run: seq<Event>, now: int)
    requires Possible(sid, run) && After(sid, run).reader.Holding?
    ensures var s := After(sid, run);
      && Possible(sid, run + [EvOnData(now)])
      && After(sid, run + [EvOnData(now)]) == OnData(s.(reader := Reading), s.reader.raw, now)
  {
    OneMore(sid, run, EvOnData(now));
  }

  /** The next chunk completes the active transaction with `status`, for certain. */
  ghost predicate CompletedNext(sid: Id, run: seq<Event>, now: int, status: int)
    requires Possible(sid, run) && After(sid, run).act.Some?
  {
    && Possible(sid, run + [EvOnData(now)])
    && CompletesWith(After(sid, run), After(sid, run + [EvOnData(now)]), status)
  }

  /** In every run: once the marker line is printed on a line of its own, with a non-digit after the
      status, and nothing before it is an own match, the chunk completes the transaction with exactly
      that status. */
  lemma RunPrintedStatusCompletes(sid: Id, run: seq<Event>, now: int, pre: Bytes, status: nat, rest: Bytes)
    requires Possible(sid, run) && Undisturbed(After(sid, run))
    requires var m := After(sid, run).act.value.marker;
      && Visible(After(sid, run)) == pre + "\n" + Marker.Header(m) + Decimal(status) + rest
      && Marker.Search(m, pre) == None && status <= Marker.MAX_INT && rest != [] && !IsDigit(rest[0])
    ensures CompletedNext(sid, run, now, status)
  {
    var s := After(sid, run);
    RunConserved(sid, run);
    Marker.PrintedStatusRecovered(s.act.value.marker, pre, status, rest);
    ChunkCompletesIff(s, now);
    AfterChunk(sid, run, now);
  }

  /** The same on a console that echoes: the written line itself stands in front of the output. */
  lemma RunEchoedStatusCompletes(sid: Id, run: seq<Event>, now: int, prompt: Bytes, output: Bytes, status: nat, rest: Bytes)
    requires Possible(sid, run) && Undisturbed(After(sid, run))
    requires var a := After(sid, run).act.value;
      && Visible(After(sid, run)) == prompt + a.tx.text + Marker.ShellSuffix(a.marker) + output
           + "\n" + Marker.Header(a.marker) + Decimal(status) + rest
      && !Occurs(prompt + a.tx.text, a.marker.nonce) && !Occurs(output, a.marker.nonce)
      && status <= Marker.MAX_INT && rest != [] && !IsDigit(rest[0])
    ensures CompletedNext(sid, run, now, status)
  {
    var a := After(sid, run).act.value;
    RunConserved(sid, run);
    Marker.EchoNeverCompletes(a.marker, prompt + a.tx.text, output);
    RunPrintedStatusCompletes(sid, run, now, prompt + a.tx.text + Marker.ShellSuffix(a.marker) + output, status, rest);
  }

  /** In every run: as long as the visible output is no more than the echo of the written line between
      texts without the nonce, no chunk completes the transaction, whatever else it does. */
  lemma RunEchoNeverCompletes(sid: Id, run: seq<Event>, now: int, prompt: Bytes, output: Bytes)
    requires Possible(sid, run) && After(sid, run).reader.Holding? && After(sid, run).act.Some?
    requires var a := After(sid, run).act.value;
      && Visible(After(sid, run)) == prompt + a.tx.text + Marker.ShellSuffix(a.marker) + output
      && !Occurs(prompt + a.tx.text, a.marker.nonce) && !Occurs(output, a.marker.nonce)
    ensures Possible(sid, run + [EvOnData(now)])
    ensures var id, results := After(sid, run).act.value.tx.id, After(sid, run + [EvOnData(now)]).records.results;
      id in results ==> results[id].status != Command.Completed
  {
    var s := After(sid, run);
    var a := s.act.value;
    RunConserved(sid, run);
    AfterChunk(sid, run, now);
    Marker.EchoNeverCompletes(a.marker, prompt + a.tx.text, output);
    var w := OnDataJob(s, now);
    UnmarkedUncompleted(s, OnData(s.(reader := Reading), s.reader.raw, now), w);
  }

  lemma UnmarkedUncompleted(s: State, t: State, w: Work)
    requires Books(s) && s.act.Some? && Did(s, t, w) && !w.BeginEnd?
    requires Marker.Search(s.act.value.marker, Visible(s)) == None
    ensures var id := s.act.value.tx.id; id in t.records.results ==> t.records.results[id].status != Command.Completed
  {
    assert s.act.value.tx.id !in s.records.results;
  }
}
