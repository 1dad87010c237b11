/** What every run of the redemption desk keeps. */
module RedemptionLaws {
  import opened Types
  import opened Redemption
  import opened Sums

  function AmountIn(status: Status): RedemptionRequest -> nat {
    (r: RedemptionRequest) => if r.status == status then r.amount else 0
  }

  function AmountLogged(action: Action): LogEntry -> nat {
    (e: LogEntry) => if e.action == action then e.amount else 0
  }

  // Log entries that settle this request.
  function Settles(id: U64): LogEntry -> nat {
    (e: LogEntry) =>
      if (e.action.CompleteRedemption? || e.action.RejectRedemption?) && e.target == RequestAccount(id) then 1 else 0
  }

  function TotalIn(v: Vault, status: Status): U64 {
    match status
    case Pending => v.outstanding
    case Cancelled => v.cancelled
    case Completed => v.completed
    case Rejected => v.rejected
  }

  ghost predicate TotalsHold(d: Desk) {
    && (forall status :: TotalIn(d.vault, status) == SumMap(AmountIn(status), d.requests))
    && d.vault.requested == d.vault.outstanding + d.vault.completed + d.vault.cancelled + d.vault.rejected
  }

  ghost predicate LogSumsHold(d: Desk) {
    && d.vault.completed == SumMap(AmountLogged(CompleteRedemption), d.log)
    && d.vault.rejected == SumMap(AmountLogged(RejectRedemption), d.log)
  }

  // Numbers are handed out without gaps.
  ghost predicate Gapless(d: Desk) {
    && (forall id: U64 :: id in d.requests <==> id < d.nextRequest)
    && (forall id: U64 :: id in d.log <==> id < d.nextAction)
  }

  // The log names a request once when an admin has settled it, and not at all before.
  ghost predicate SettledOnce(d: Desk, id: U64) {
    SumMap(Settles(id), d.log)
      == if id in d.requests && (d.requests[id].status.Completed? || d.requests[id].status.Rejected?) then 1 else 0
  }

  lemma ReleaseMoves(d: Desk, id: U64, to: Status, status: Status)
    requires id in d.requests && d.requests[id].status.Pending? && !to.Pending?
    requires TotalIn(d.vault, status) == SumMap(AmountIn(status), d.requests)
    requires WithStatus(d, id, to).Ok?
    ensures var d' := WithStatus(d, id, to).value;
            TotalIn(d'.vault, status) == SumMap(AmountIn(status), d'.requests)
  {
    SumMapUpdate(AmountIn(status), d.requests, id, d.requests[id].(status := to));
  }

  lemma WithStatusKeepsTotals(d: Desk, id: U64, to: Status)
    requires TotalsHold(d) && id in d.requests && d.requests[id].status.Pending? && !to.Pending?
    requires WithStatus(d, id, to).Ok?
    ensures TotalsHold(WithStatus(d, id, to).value)
  {
    forall status ensures TotalIn(WithStatus(d, id, to).value.vault, status)
                          == SumMap(AmountIn(status), WithStatus(d, id, to).value.requests) {
      ReleaseMoves(d, id, to, status);
    }
  }

  lemma NewRequestKeepsTotals(d: Desk, owner: Pubkey, amount: U64)
    requires TotalsHold(d) && NewRequest(d, owner, amount).Ok?
    ensures TotalsHold(NewRequest(d, owner, amount).value)
  {
    var d' := NewRequest(d, owner, amount).value;
    forall status ensures TotalIn(d'.vault, status) == SumMap(AmountIn(status), d'.requests) {
      SumMapUpdate(AmountIn(status), d.requests, d.nextRequest, RedemptionRequest(owner, amount, Pending));
    }
  }

  lemma StepKeepsTotals(d: Desk, op: DeskOp)
    requires TotalsHold(d) && Step(d, op).Ok?
    ensures TotalsHold(Step(d, op).value)
  {
    match op
    case RequestRedemption(owner, amount) => NewRequestKeepsTotals(d, owner, amount);
    case CancelRedemption(_, id) => WithStatusKeepsTotals(d, id, Cancelled);
    case Settle(_, id, complete) => WithStatusKeepsTotals(d, id, if complete then Completed else Rejected);
    case _ =>
      var d' := Step(d, op).value;
      assert d'.vault == d.vault && d'.requests == d.requests;
  }

  // Every instruction writes at most one log entry, and only a settlement's points at a request.
  lemma LogEntryOf(d: Desk, op: DeskOp)
    requires Step(d, op).Ok?
    ensures var d' := Step(d, op).value;
            if op.RequestRedemption? || op.CancelRedemption? then d'.log == d.log && d'.nextAction == d.nextAction
            else d.nextAction !in d.log && d'.nextAction == d.nextAction + 1
                 && d.nextAction in d'.log && d'.log == d.log[d.nextAction := d'.log[d.nextAction]]
  {
  }

  lemma StepKeepsLogSums(d: Desk, op: DeskOp)
    requires LogSumsHold(d) && Step(d, op).Ok?
    ensures LogSumsHold(Step(d, op).value)
  {
    LogEntryOf(d, op);
    if !(op.RequestRedemption? || op.CancelRedemption?) {
      var entry := Step(d, op).value.log[d.nextAction];
      SumMapUpdate(AmountLogged(CompleteRedemption), d.log, d.nextAction, entry);
      SumMapUpdate(AmountLogged(RejectRedemption), d.log, d.nextAction, entry);
    }
  }

  lemma StepKeepsGapless(d: Desk, op: DeskOp)
    requires Gapless(d) && Step(d, op).Ok?
    ensures Gapless(Step(d, op).value)
  {
    LogEntryOf(d, op);
  }

  lemma StepKeepsSettledOnce(d: Desk, op: DeskOp, id: U64)
    requires SettledOnce(d, id) && Step(d, op).Ok?
    ensures SettledOnce(Step(d, op).value, id)
  {
    LogEntryOf(d, op);
    if !(op.RequestRedemption? || op.CancelRedemption?) {
      SumMapUpdate(Settles(id), d.log, d.nextAction, Step(d, op).value.log[d.nextAction]);
    }
  }

  // Who may do what, and whether requests are open.
  datatype Control = Control(admin: Pubkey, pendingAdmin: Pubkey, paused: bool)

  function Apply(c: Control, e: LogEntry): Control {
    match e.action
    case SetRedemptionsPaused => c.(paused := e.amount == 1)
    case BeginAdminTransfer => if e.target.Key? then c.(pendingAdmin := e.target.key) else c
    case AcceptAdminTransfer => Control(e.admin, DEFAULT_KEY, c.paused)
    case _ => c
  }

  // The control state read off the first n log entries.
  function ControlAfter(admin: Pubkey, log: map<U64, LogEntry>, n: U64): Control {
    if n == 0 then Control(admin, DEFAULT_KEY, false)
    else
      var before := ControlAfter(admin, log, n - 1);
      if n - 1 in log then Apply(before, log[n - 1]) else before
  }

  // An entry was written by the admin of its time; only the handover is written by the admin to be.
  predicate Authorized(c: Control, e: LogEntry) {
    if e.action.AcceptAdminTransfer? then
      e.admin == c.pendingAdmin != DEFAULT_KEY && e.target == Key(c.admin)
    else e.admin == c.admin
  }

  ghost predicate LogTellsControl(admin: Pubkey, d: Desk) {
    && ControlAfter(admin, d.log, d.nextAction) == Control(d.admin, d.pendingAdmin, d.paused)
    && forall k: U64 | k < d.nextAction && k in d.log :: Authorized(ControlAfter(admin, d.log, k), d.log[k])
  }

  lemma {:induction false} SamePrefix(admin: Pubkey, log: map<U64, LogEntry>, log': map<U64, LogEntry>, n: U64)
    requires forall k: U64 | k < n :: k in log <==> k in log'
    requires forall k: U64 | k < n && k in log :: log[k] == log'[k]
    ensures ControlAfter(admin, log, n) == ControlAfter(admin, log', n)
  {
    if n > 0 {
      SamePrefix(admin, log, log', n - 1);
    }
  }

  lemma StepIsAuthorized(d: Desk, op: DeskOp)
    requires Step(d, op).Ok? && !op.RequestRedemption? && !op.CancelRedemption?
    ensures var d' := Step(d, op).value;
            && d.nextAction in d'.log
            && Authorized(Control(d.admin, d.pendingAdmin, d.paused), d'.log[d.nextAction])
            && Apply(Control(d.admin, d.pendingAdmin, d.paused), d'.log[d.nextAction])
               == Control(d'.admin, d'.pendingAdmin, d'.paused)
  {
  }

  lemma StepKeepsControl(admin: Pubkey, d: Desk, op: DeskOp)
    requires LogTellsControl(admin, d) && Step(d, op).Ok?
    ensures LogTellsControl(admin, Step(d, op).value)
  {
    LogEntryOf(d, op);
    var d' := Step(d, op).value;
    if !(op.RequestRedemption? || op.CancelRedemption?) {
      StepIsAuthorized(d, op);
      forall k: U64 | k <= d.nextAction
        ensures ControlAfter(admin, d'.log, k) == ControlAfter(admin, d.log, k)
      {
        SamePrefix(admin, d.log, d'.log, k);
      }
    }
  }

  ghost predicate DeskSound(admin: Pubkey, d: Desk) {
    && TotalsHold(d)
    && LogSumsHold(d)
    && Gapless(d)
    && (forall id :: SettledOnce(d, id))
    && LogTellsControl(admin, d)
  }

  /** Every reachable desk: the vault is its requests by status and its log, numbers are gapless, each settlement is
      logged once, and the log alone tells who is admin, who may become it and whether requests are open. */
  lemma {:induction false} DeskIsSound(admin: Pubkey, ops: seq<DeskOp>)
    ensures DeskSound(admin, RunDesk(admin, ops))
  {
    if ops != [] {
      var d, op := RunDesk(admin, ops[..|ops| - 1]), ops[|ops| - 1];
      DeskIsSound(admin, ops[..|ops| - 1]);
      if Step(d, op).Ok? {
        StepKeepsTotals(d, op);
        StepKeepsLogSums(d, op);
        StepKeepsGapless(d, op);
        forall id ensures SettledOnce(Step(d, op).value, id) {
          StepKeepsSettledOnce(d, op, id);
        }
        StepKeepsControl(admin, d, op);
      }
    }
  }

  lemma PendingCanLeave(d: Desk, id: U64, to: Status)
    requires TotalsHold(d) && id in d.requests && d.requests[id].status.Pending? && !to.Pending?
    ensures WithStatus(d, id, to).Ok?
  {
    SumMapAtLeastOne(AmountIn(Pending), d.requests, id);
    assert TotalIn(d.vault, Pending) == SumMap(AmountIn(Pending), d.requests);
  }

  // What an instruction demands of its caller and of the desk; nothing here is about vault totals going wrong.
  predicate Allowed(d: Desk, op: DeskOp) {
    match op
    case RequestRedemption(_, amount) =>
      0 < amount < TWO_64 - d.vault.requested && !d.paused && d.nextRequest < TWO_64 - 1
    case CancelRedemption(owner, id) =>
      id in d.requests && d.requests[id].status.Pending? && d.requests[id].owner == owner
    case Settle(caller, id, _) =>
      caller == d.admin && id in d.requests && d.requests[id].status.Pending? && d.nextAction < TWO_64 - 1
    case SetPaused(caller, _) => caller == d.admin && d.nextAction < TWO_64 - 1
    case BeginTransfer(caller, newAdmin) =>
      caller == d.admin != newAdmin && newAdmin != DEFAULT_KEY && d.nextAction < TWO_64 - 1
    case AcceptTransfer(caller) => caller == d.pendingAdmin != DEFAULT_KEY && d.nextAction < TWO_64 - 1
  }

  /** On every reachable desk an instruction succeeds exactly when its caller may ask for it: settling or cancelling a
      pending request never fails on vault arithmetic, and only a used-up number stops an admin. */
  lemma {:induction false} AcceptedExactly(admin: Pubkey, ops: seq<DeskOp>, op: DeskOp)
    ensures Step(RunDesk(admin, ops), op).Ok? <==> Allowed(RunDesk(admin, ops), op)
  {
    DeskIsSound(admin, ops);
    var d := RunDesk(admin, ops);
    assert d.nextRequest !in d.requests && d.nextAction !in d.log;
    if op.CancelRedemption? && op.id in d.requests && d.requests[op.id].status.Pending? {
      PendingCanLeave(d, op.id, Cancelled);
    }
    if op.Settle? && op.id in d.requests && d.requests[op.id].status.Pending? {
      PendingCanLeave(d, op.id, if op.complete then Completed else Rejected);
    }
  }

  /** What has left the pending state never changes again. */
  lemma SettledIsFinal(d: Desk, op: DeskOp, id: U64)
    requires Gapless(d) && Step(d, op).Ok?
    requires id in d.requests && !d.requests[id].status.Pending?
    ensures id in Step(d, op).value.requests && Step(d, op).value.requests[id] == d.requests[id]
  {
    assert d.nextRequest !in d.requests;
  }

  /** Over every run: a request that has left the pending state is the same whatever comes after. */
  lemma {:induction false} SettledForever(admin: Pubkey, before: seq<DeskOp>, after: seq<DeskOp>, id: U64)
    requires var requests := RunDesk(admin, before).requests; id in requests && !requests[id].status.Pending?
    ensures var requests := RunDesk(admin, before + after).requests;
            id in requests && requests[id] == RunDesk(admin, before).requests[id]
  {
    if after == [] {
      assert before + after == before;
    } else {
      var init, op := after[..|after| - 1], after[|after| - 1];
      assert (before + after)[..|before + after| - 1] == before + init && (before + after)[|before + after| - 1] == op;
      SettledForever(admin, before, init, id);
      DeskIsSound(admin, before + init);
      var d := RunDesk(admin, before + init);
      if Step(d, op).Ok? {
        SettledIsFinal(d, op, id);
      }
    }
  }
}
