/** Proposals, approved transactions and results (internal/core/command/store.go, types.go). */
module Command {
  import opened Basics
  import ManagedCommand

  type Id = Bytes

  datatype ProposalState = Pending | Rejected | Expired | Replaced | Approved

  datatype Proposal = Proposal(
    id: Id,
    sessionId: Id,
    text: Bytes,
    timeout: int,
    createdAt: int,
    expiresAt: int,
    state: ProposalState,
    replacesId: Option<Id>)

  datatype Transaction = Transaction(
    id: Id,
    sourceProposalId: Id,
    sessionId: Id,
    text: Bytes,
    timeout: int,
    approvedAt: int)

  datatype Status =
    | Completed
    | Timeout
    | Disconnected
    | InterruptedByUser
    | ProtocolError
    | TargetRebooted
    | DaemonRestarted

  datatype Result = Result(
    transactionId: Id,
    sourceProposalId: Id,
    status: Status,
    exitCode: Option<int>,
    duration: int,
    output: Bytes,
    outputTruncatedStart: bool,
    completedAt: int)

  datatype Error =
    | NotFound
    | NotPending
    | ProposalExpired
    | AlreadyCompleted
    | Invalid(verdict: ManagedCommand.Verdict)

  /** Five minutes, in nanoseconds. */
  const PROPOSAL_TTL: int := 300_000_000_000

  /** The store's three maps. */
  datatype Records = Records(
    proposals: map<Id, Proposal>,
    transactions: map<Id, Transaction>,
    results: map<Id, Result>)

  predicate IsPending(r: Records, pid: Id) {
    pid in r.proposals && r.proposals[pid].state == Pending
  }

  function WithState(r: Records, pid: Id, s: ProposalState): Records
    requires pid in r.proposals
  {
    r.(proposals := r.proposals[pid := r.proposals[pid].(state := s)])
  }

  function Proposed(r: Records, pid: Id, session: Id, text: Bytes, timeout: int, now: int): Records {
    if !ManagedCommand.Managed(text) then r
    else r.(proposals := r.proposals[pid := Proposal(pid, session, text, timeout, now, now + PROPOSAL_TTL, Pending, None)])
  }

  function Edited(r: Records, pid: Id, text: Bytes, now: int, next: Id): Records {
    if !ManagedCommand.Managed(text) || !IsPending(r, pid) then r
    else
      var old_ := r.proposals[pid];
      var r' := WithState(r, pid, Replaced);
      r'.(proposals := r'.proposals[next := Proposal(next, old_.sessionId, text, old_.timeout, now, now + PROPOSAL_TTL, Pending, Some(pid))])
  }

  function RejectedIn(r: Records, pid: Id): Records {
    if IsPending(r, pid) then WithState(r, pid, Rejected) else r
  }

  predicate Approvable(r: Records, pid: Id, now: int) {
    IsPending(r, pid) && now <= r.proposals[pid].expiresAt
  }

  function TransactionOf(p: Proposal, id: Id, now: int): Transaction {
    Transaction(id, p.id, p.sessionId, p.text, p.timeout, now)
  }

  function ApprovedIn(r: Records, pid: Id, now: int, txId: Id): Records {
    if !IsPending(r, pid) then r
    else if !Approvable(r, pid, now) then WithState(r, pid, Expired)
    else
      var r' := WithState(r, pid, Approved);
      r'.(transactions := r.transactions[txId := TransactionOf(r.proposals[pid], txId, now)])
  }

  function Lapse(p: Proposal, session: Id): Proposal {
    if p.sessionId == session && p.state == Pending then p.(state := Expired) else p
  }

  function Invalidated(r: Records, session: Id): Records {
    r.(proposals := map pid | pid in r.proposals :: Lapse(r.proposals[pid], session))
  }

  function CompletedIn(r: Records, res: Result): Records {
    if res.transactionId !in r.transactions || res.transactionId in r.results then r
    else r.(results := r.results[res.transactionId :=
      res.(sourceProposalId := r.transactions[res.transactionId].sourceProposalId)])
  }

  class Store {
    var proposals: map<Id, Proposal>
    var transactions: map<Id, Transaction>
    var results: map<Id, Result>

    ghost function View(): Records
      reads this
    {
      Records(proposals, transactions, results)
    }

    constructor ()
      ensures View() == Records(map[], map[], map[])
    {
      proposals, transactions, results := map[], map[], map[];
    }

    method Propose(pid: Id, session: Id, text: Bytes, timeout: int, now: int) returns (err: Option<Error>)
      modifies this
      ensures View() == Proposed(old(View()), pid, session, text, timeout, now)
      ensures err == None <==> ManagedCommand.Managed(text)
    {
      var v := ManagedCommand.ValidateManaged(text);
      if v != ManagedCommand.Accepted {
        return Some(Invalid(v));
      }
      proposals := proposals[pid := Proposal(pid, session, text, timeout, now, now + PROPOSAL_TTL, Pending, None)];
      return None;
    }

    method Edit(pid: Id, text: Bytes, now: int, next: Id) returns (err: Option<Error>)
      modifies this
      ensures View() == Edited(old(View()), pid, text, now, next)
      ensures err == None <==> ManagedCommand.Managed(text) && old(IsPending(View(), pid))
    {
      var v := ManagedCommand.ValidateManaged(text);
      if v != ManagedCommand.Accepted {
        return Some(Invalid(v));
      }
      if pid !in proposals {
        return Some(NotFound);
      }
      var p := proposals[pid];
      if p.state != Pending {
        return Some(NotPending);
      }
      proposals := proposals[pid := p.(state := Replaced)];
      proposals := proposals[next := Proposal(next, p.sessionId, text, p.timeout, now, now + PROPOSAL_TTL, Pending, Some(pid))];
      return None;
    }

    method Reject(pid: Id) returns (err: Option<Error>)
      modifies this
      ensures View() == RejectedIn(old(View()), pid)
      ensures err == None <==> old(IsPending(View(), pid))
    {
      if pid !in proposals {
        return Some(NotFound);
      }
      if proposals[pid].state != Pending {
        return Some(NotPending);
      }
      proposals := proposals[pid := proposals[pid].(state := Rejected)];
      return None;
    }

    method Approve(pid: Id, now: int, txId: Id) returns (err: Option<Error>)
      modifies this
      ensures View() == ApprovedIn(old(View()), pid, now, txId)
      ensures err == None <==> old(Approvable(View(), pid, now))
      ensures err == None ==> txId in transactions && transactions[txId] == TransactionOf(old(proposals)[pid], txId, now)
    {
      if pid !in proposals {
        return Some(NotFound);
      }
      var p := proposals[pid];
      if p.state != Pending {
        return Some(NotPending);
      }
      if now > p.expiresAt {
        proposals := proposals[pid := p.(state := Expired)];
        return Some(ProposalExpired);
      }
      proposals := proposals[pid := p.(state := Approved)];
      transactions := transactions[txId := Transaction(txId, p.id, p.sessionId, p.text, p.timeout, now)];
      return None;
    }

    method InvalidateSession(session: Id)
      modifies this
      ensures View() == Invalidated(old(View()), session)
    {
      var todo := proposals.Keys;
      while todo != {}
        invariant todo <= proposals.Keys == old(proposals).Keys
        invariant transactions == old(transactions) && results == old(results)
        invariant forall pid :: pid in proposals ==>
          proposals[pid] == if pid in todo then old(proposals)[pid] else Lapse(old(proposals)[pid], session)
        decreases |todo|
      {
        var pid :| pid in todo;
        var p := proposals[pid];
        if p.sessionId == session && p.state == Pending {
          proposals := proposals[pid := p.(state := Expired)];
        }
        todo := todo - {pid};
      }
    }

    method CompleteTransaction(res: Result) returns (err: Option<Error>)
      modifies this
      ensures View() == CompletedIn(old(View()), res)
      ensures err == None <==> res.transactionId in old(transactions) && res.transactionId !in old(results)
    {
      if res.transactionId !in transactions {
        return Some(NotFound);
      }
      var tx := transactions[res.transactionId];
      if res.transactionId in results {
        return Some(AlreadyCompleted);
      }
      results := results[res.transactionId := res.(sourceProposalId := tx.sourceProposalId)];
      return None;
    }
  }

  // ---- What the store's operations do ----

  /** All proposals but those of `but` are the same in both, and so is everything else. */
  ghost predicate OnlyProposals(r: Records, r': Records, but: set<Id>) {
    && r'.transactions == r.transactions && r'.results == r.results
    && r'.proposals.Keys == r.proposals.Keys + but
    && forall q :: q in r.proposals && q !in but ==> r'.proposals[q] == r.proposals[q]
  }

  /** A managed text becomes a pending proposal that expires in five minutes; any other, nothing. */
  lemma ProposedMeans(r: Records, pid: Id, session: Id, text: Bytes, timeout: int, now: int)
    requires pid !in r.proposals
    ensures var r' := Proposed(r, pid, session, text, timeout, now);
      if !ManagedCommand.Managed(text) then r' == r
      else
        && OnlyProposals(r, r', {pid})
        && var p := r'.proposals[pid];
           p.id == pid && p.state == Pending && p.sessionId == session && p.text == text && p.timeout == timeout
           && p.createdAt == now && p.expiresAt == now + 300_000_000_000 && p.replacesId == None
  {
  }

  /** An edit gives a pending proposal's place to a new one with the new text, its own five minutes and
      otherwise the old one's terms; it needs a managed text and changes nothing otherwise. */
  lemma EditedMeans(r: Records, pid: Id, text: Bytes, now: int, next: Id)
    requires next !in r.proposals
    ensures var r' := Edited(r, pid, text, now, next);
      if !(ManagedCommand.Managed(text) && pid in r.proposals && r.proposals[pid].state == Pending) then r' == r
      else
        && OnlyProposals(r, r', {pid, next})
        && r'.proposals[pid] == r.proposals[pid].(state := Replaced)
        && var p := r'.proposals[next];
           p.id == next && p.state == Pending && p.sessionId == r.proposals[pid].sessionId && p.text == text
           && p.timeout == r.proposals[pid].timeout && p.createdAt == now && p.expiresAt == now + 300_000_000_000
           && p.replacesId == Some(pid)
  {
  }

  /** A rejection retires a pending proposal and changes nothing otherwise. */
  lemma RejectedMeans(r: Records, pid: Id)
    ensures var r' := RejectedIn(r, pid);
      if !(pid in r.proposals && r.proposals[pid].state == Pending) then r' == r
      else OnlyProposals(r, r', {pid}) && r'.proposals[pid] == r.proposals[pid].(state := Rejected)
  {
  }

  /** An approval in time makes one transaction with the proposal's own terms; one that comes too late
      expires the proposal and makes none; any other proposal is left alone. */
  lemma ApprovedMeans(r: Records, pid: Id, now: int, txId: Id)
    requires txId !in r.transactions
    ensures var r' := ApprovedIn(r, pid, now, txId);
      if !(pid in r.proposals && r.proposals[pid].state == Pending) then r' == r
      else if now > r.proposals[pid].expiresAt then
        OnlyProposals(r, r', {pid}) && r'.proposals[pid] == r.proposals[pid].(state := Expired)
      else
        && OnlyProposals(r, r'.(transactions := r.transactions), {pid})
        && r'.proposals[pid] == r.proposals[pid].(state := Approved)
        && r'.transactions.Keys == r.transactions.Keys + {txId}
        && (forall t :: t in r.transactions ==> r'.transactions[t] == r.transactions[t])
        && var tx, p := r'.transactions[txId], r.proposals[pid];
           tx.id == txId && tx.sourceProposalId == p.id && tx.sessionId == p.sessionId && tx.text == p.text
           && tx.timeout == p.timeout && tx.approvedAt == now
  {
  }

  /** Losing a session expires its pending proposals and no other. */
  lemma InvalidatedMeans(r: Records, session: Id)
    ensures var r' := Invalidated(r, session);
      && r'.transactions == r.transactions && r'.results == r.results && r'.proposals.Keys == r.proposals.Keys
      && (forall q :: q in r.proposals && r.proposals[q].sessionId == session && r.proposals[q].state == Pending ==>
            r'.proposals[q] == r.proposals[q].(state := Expired))
      && (forall q :: q in r.proposals && !(r.proposals[q].sessionId == session && r.proposals[q].state == Pending) ==>
            r'.proposals[q] == r.proposals[q])
  {
  }

  // ---- What the store keeps ----

  /** The transaction `t` is the verbatim snapshot of the approved proposal it names. */
  ghost predicate Snapshot(r: Records, t: Id)
    requires t in r.transactions
  {
    var tx := r.transactions[t];
    && tx.id == t
    && tx.sourceProposalId in r.proposals
    && var p := r.proposals[tx.sourceProposalId];
       && p.state == Approved && p.text == tx.text && p.sessionId == tx.sessionId && p.timeout == tx.timeout
       && tx.approvedAt <= p.expiresAt
  }

  ghost predicate HasTransaction(r: Records, pid: Id) {
    exists t :: t in r.transactions && r.transactions[t].sourceProposalId == pid
  }

  ghost predicate Injective(txs: map<Id, Transaction>) {
    forall t, u | t in txs && u in txs && txs[t].sourceProposalId == txs[u].sourceProposalId :: t == u
  }

  predicate Reports(res: Result, tx: Transaction) {
    res.transactionId == tx.id && res.sourceProposalId == tx.sourceProposalId
  }

  /** A proposal under its own identifier, with a managed text and five minutes to be approved in. */
  predicate Stamped(p: Proposal, pid: Id) {
    p.id == pid && ManagedCommand.Managed(p.text) && p.expiresAt == p.createdAt + PROPOSAL_TTL
  }

  /** Approved proposals and transactions are in bijection with equal text, each approved before it
      expired, and every stored result belongs to a transaction. */
  ghost predicate Ledger(r: Records) {
    && (forall pid :: pid in r.proposals ==> Stamped(r.proposals[pid], pid))
    && (forall t :: t in r.transactions ==> Snapshot(r, t))
    && Injective(r.transactions)
    && (forall pid :: pid in r.proposals && r.proposals[pid].state == Approved ==> HasTransaction(r, pid))
    && (forall t :: t in r.results ==> t in r.transactions && Reports(r.results[t], r.transactions[t]))
  }

  /** Moving a proposal from pending to any state but approved leaves the ledger in order. */
  lemma LedgerRetire(r: Records, pid: Id, s: ProposalState)
    requires Ledger(r) && IsPending(r, pid) && s != Approved
    ensures Ledger(WithState(r, pid, s))
  {
    var r' := WithState(r, pid, s);
    forall q | q in r'.proposals && r'.proposals[q].state == Approved
      ensures HasTransaction(r', q)
    {
      assert HasTransaction(r, q);
    }
    assert forall t :: t in r'.transactions ==> Snapshot(r, t) && Snapshot(r', t);
  }

  lemma LedgerInsert(r: Records, p: Proposal)
    requires Ledger(r) && p.id !in r.proposals && p.state == Pending && Stamped(p, p.id)
    ensures Ledger(r.(proposals := r.proposals[p.id := p]))
  {
    var r' := r.(proposals := r.proposals[p.id := p]);
    forall q | q in r'.proposals && r'.proposals[q].state == Approved
      ensures HasTransaction(r', q)
    {
      assert HasTransaction(r, q);
    }
    assert forall t :: t in r'.transactions ==> Snapshot(r, t) && Snapshot(r', t);
  }

  lemma LedgerPropose(r: Records, pid: Id, session: Id, text: Bytes, timeout: int, now: int)
    requires Ledger(r) && pid !in r.proposals
    ensures Ledger(Proposed(r, pid, session, text, timeout, now))
  {
    if ManagedCommand.Managed(text) {
      LedgerInsert(r, Proposal(pid, session, text, timeout, now, now + PROPOSAL_TTL, Pending, None));
    }
  }

  lemma LedgerEdit(r: Records, pid: Id, text: Bytes, now: int, next: Id)
    requires Ledger(r) && next !in r.proposals
    ensures Ledger(Edited(r, pid, text, now, next))
  {
    if ManagedCommand.Managed(text) && IsPending(r, pid) {
      var p := r.proposals[pid];
      LedgerRetire(r, pid, Replaced);
      LedgerInsert(WithState(r, pid, Replaced),
        Proposal(next, p.sessionId, text, p.timeout, now, now + PROPOSAL_TTL, Pending, Some(pid)));
    }
  }

  lemma LedgerReject(r: Records, pid: Id)
    requires Ledger(r)
    ensures Ledger(RejectedIn(r, pid))
  {
    if IsPending(r, pid) {
      LedgerRetire(r, pid, Rejected);
    }
  }

  lemma ApprovedSnapshot(r: Records, pid: Id, now: int, txId: Id, t: Id)
    requires Ledger(r) && Approvable(r, pid, now) && txId !in r.transactions
    requires t in ApprovedIn(r, pid, now, txId).transactions
    ensures Snapshot(ApprovedIn(r, pid, now, txId), t)
  {
    if t != txId {
      assert Snapshot(r, t);
    }
  }

  lemma ApprovedHas(r: Records, pid: Id, now: int, txId: Id, q: Id)
    requires Ledger(r) && Approvable(r, pid, now) && txId !in r.transactions && q in r.proposals
    requires ApprovedIn(r, pid, now, txId).proposals[q].state == Approved
    ensures HasTransaction(ApprovedIn(r, pid, now, txId), q)
  {
    var r' := ApprovedIn(r, pid, now, txId);
    if q == pid {
      assert r'.transactions[txId].sourceProposalId == pid;
    } else {
      assert HasTransaction(r, q);
      var t :| t in r.transactions && r.transactions[t].sourceProposalId == q;
      assert r'.transactions[t].sourceProposalId == q;
    }
  }

  /** A pending proposal has no transaction yet, so approving it makes no second one. */
  lemma ApprovedInjective(r: Records, pid: Id, now: int, txId: Id)
    requires Ledger(r) && Approvable(r, pid, now) && txId !in r.transactions
    ensures Injective(ApprovedIn(r, pid, now, txId).transactions)
  {
    assert forall t :: t in r.transactions ==> Snapshot(r, t);
  }

  lemma LedgerApprove(r: Records, pid: Id, now: int, txId: Id)
    requires Ledger(r) && txId !in r.transactions
    ensures Ledger(ApprovedIn(r, pid, now, txId))
  {
    var r' := ApprovedIn(r, pid, now, txId);
    if Approvable(r, pid, now) {
      ApprovedInjective(r, pid, now, txId);
      forall t | t in r'.transactions
        ensures Snapshot(r', t)
      {
        ApprovedSnapshot(r, pid, now, txId, t);
      }
      forall q | q in r'.proposals && r'.proposals[q].state == Approved
        ensures HasTransaction(r', q)
      {
        ApprovedHas(r, pid, now, txId, q);
      }
    } else if IsPending(r, pid) {
      LedgerRetire(r, pid, Expired);
    }
  }

  lemma LedgerInvalidate(r: Records, session: Id)
    requires Ledger(r)
    ensures Ledger(Invalidated(r, session))
  {
    var r' := Invalidated(r, session);
    forall q | q in r'.proposals && r'.proposals[q].state == Approved
      ensures HasTransaction(r', q)
    {
      assert HasTransaction(r, q);
    }
    forall t | t in r'.transactions
      ensures Snapshot(r', t)
    {
      assert Snapshot(r, t);
    }
  }

  /** Results apart, nothing changes. */
  lemma LedgerResults(r: Records, results: map<Id, Result>)
    requires Ledger(r)
    requires forall t :: t in results ==> t in r.transactions && Reports(results[t], r.transactions[t])
    ensures Ledger(r.(results := results))
  {
    var r' := r.(results := results);
    forall q | q in r'.proposals && r'.proposals[q].state == Approved
      ensures HasTransaction(r', q)
    {
      assert HasTransaction(r, q);
    }
    assert forall t :: t in r'.transactions ==> Snapshot(r, t) && Snapshot(r', t);
  }

  lemma LedgerComplete(r: Records, res: Result)
    requires Ledger(r)
    ensures Ledger(CompletedIn(r, res))
  {
    var t := res.transactionId;
    if t in r.transactions && t !in r.results {
      assert Snapshot(r, t);
      LedgerResults(r, CompletedIn(r, res).results);
    }
  }
}
