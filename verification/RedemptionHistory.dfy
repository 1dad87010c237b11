/** The desk told from outside: what the successful instructions of a run were determines all of it. */
module RedemptionHistory {
  import opened Types
  import opened Redemption
  import opened RedemptionLaws
  import opened Sums

  // The instructions of a run that went through.
  function Succeeded(admin: Pubkey, ops: seq<DeskOp>): seq<DeskOp> {
    if ops == [] then []
    else
      var init, op := ops[..|ops| - 1], ops[|ops| - 1];
      if Step(RunDesk(admin, init), op).Ok? then Succeeded(admin, init) + [op] else Succeeded(admin, init)
  }

  datatype Wish = Wish(owner: Pubkey, amount: U64)

  // What was asked for, in order.
  function Asked(done: seq<DeskOp>): seq<Wish> {
    if done == [] then []
    else
      var before, op := Asked(done[..|done| - 1]), done[|done| - 1];
      if op.RequestRedemption? then before + [Wish(op.owner, op.amount)] else before
  }

  function AmountAsked(): Wish -> nat {
    (w: Wish) => w.amount
  }

  // How a request can end.
  predicate Ends(op: DeskOp, id: U64, status: Status) {
    match status
    case Pending => false
    case Cancelled => op.CancelRedemption? && op.id == id
    case Completed => op.Settle? && op.id == id && op.complete
    case Rejected => op.Settle? && op.id == id && !op.complete
  }

  predicate Ended(done: seq<DeskOp>, id: U64, status: Status) {
    exists i | 0 <= i < |done| :: Ends(done[i], id, status)
  }

  // A request is what was asked for under its number, and its status is how it ended.
  ghost predicate RequestTold(d: Desk, done: seq<DeskOp>, id: U64)
    requires id < |Asked(done)|
  {
    && id in d.requests
    && Asked(done)[id] == Wish(d.requests[id].owner, d.requests[id].amount)
    && StatusTold(d.requests[id].status, done, id)
  }

  ghost predicate StatusTold(now: Status, done: seq<DeskOp>, id: U64) {
    forall status | status != Pending :: now == status <==> Ended(done, id, status)
  }

  ghost predicate RequestsTold(d: Desk, done: seq<DeskOp>) {
    && |Asked(done)| == d.nextRequest
    && d.vault.requested == SumOf(AmountAsked(), Asked(done))
    && (forall id: U64 | id < |Asked(done)| :: RequestTold(d, done, id))
    && (forall id: U64, status | id >= |Asked(done)| :: !Ended(done, id, status))
  }

  lemma {:induction false} AskedPush(done: seq<DeskOp>, op: DeskOp)
    ensures Asked(done + [op])
            == if op.RequestRedemption? then Asked(done) + [Wish(op.owner, op.amount)] else Asked(done)
  {
    assert (done + [op])[..|done|] == done;
  }

  lemma EndedPush(done: seq<DeskOp>, op: DeskOp, id: U64, status: Status)
    ensures Ended(done + [op], id, status) <==> Ended(done, id, status) || Ends(op, id, status)
  {
    var all := done + [op];
    if Ended(done, id, status) {
      var i :| 0 <= i < |done| && Ends(done[i], id, status);
      assert all[i] == done[i];
    }
    if Ends(op, id, status) {
      assert all[|done|] == op;
    }
  }

  // What one instruction does to one request.
  lemma StepOnRequest(d: Desk, op: DeskOp, id: U64)
    requires Gapless(d) && Step(d, op).Ok? && id in d.requests
    ensures var d' := Step(d, op).value;
            && id in d'.requests
            && d'.requests[id].owner == d.requests[id].owner && d'.requests[id].amount == d.requests[id].amount
            && (forall status | status != Pending ::
                  d'.requests[id].status == status <==> d.requests[id].status == status || Ends(op, id, status))
  {
    assert d.nextRequest !in d.requests;
  }

  lemma {:induction false} StepKeepsRequestTold(d: Desk, done: seq<DeskOp>, op: DeskOp, id: U64)
    requires Gapless(d) && Step(d, op).Ok? && id < |Asked(done)| && RequestTold(d, done, id)
    ensures id < |Asked(done + [op])| && RequestTold(Step(d, op).value, done + [op], id)
  {
    AskedPush(done, op);
    StepOnRequest(d, op, id);
    StatusFollows(d.requests[id].status, Step(d, op).value.requests[id].status, done, op, id);
  }

  lemma StatusFollows(was: Status, now: Status, done: seq<DeskOp>, op: DeskOp, id: U64)
    requires StatusTold(was, done, id)
    requires forall status | status != Pending :: now == status <==> was == status || Ends(op, id, status)
    ensures StatusTold(now, done + [op], id)
  {
    forall status | status != Pending ensures now == status <==> Ended(done + [op], id, status) {
      EndedPush(done, op, id, status);
    }
  }

  // Nothing has ended a request that does not exist yet, and asking for it does not.
  lemma NewStatusTold(done: seq<DeskOp>, op: DeskOp, id: U64)
    requires op.RequestRedemption? && forall status :: !Ended(done, id, status)
    ensures StatusTold(Pending, done + [op], id)
  {
    forall status | status != Pending ensures !Ended(done + [op], id, status) {
      EndedPush(done, op, id, status);
    }
  }

  lemma {:induction false} NewRequestTold(d: Desk, done: seq<DeskOp>, op: DeskOp)
    requires op.RequestRedemption? && Step(d, op).Ok? && |Asked(done)| == d.nextRequest
    requires forall status :: !Ended(done, d.nextRequest, status)
    ensures d.nextRequest < |Asked(done + [op])| && RequestTold(Step(d, op).value, done + [op], d.nextRequest)
  {
    AskedPush(done, op);
    NewStatusTold(done, op, d.nextRequest);
  }

  lemma {:induction false} StepKeepsRequestsTold(d: Desk, done: seq<DeskOp>, op: DeskOp)
    requires Gapless(d) && Step(d, op).Ok? && RequestsTold(d, done)
    ensures RequestsTold(Step(d, op).value, done + [op])
  {
    AskedPush(done, op);
    if op.RequestRedemption? {
      SumPush(AmountAsked(), Asked(done), Wish(op.owner, op.amount));
    }
    var d' := Step(d, op).value;
    forall id: U64 | id < |Asked(done + [op])| ensures RequestTold(d', done + [op], id) {
      if id < |Asked(done)| {
        StepKeepsRequestTold(d, done, op, id);
      } else {
        NewRequestTold(d, done, op);
      }
    }
    forall id: U64, status | id >= |Asked(done + [op])| ensures !Ended(done + [op], id, status) {
      EndedPush(done, op, id, status);
      assert id !in d.requests;
    }
  }

  /** Over every run: the n-th successful request is the request numbered n, with the owner and the amount that were
      asked for; it is cancelled, completed or rejected exactly if an instruction that went through did so; and the
      vault's total is what was asked for. */
  lemma {:induction false} RequestsAreTold(admin: Pubkey, ops: seq<DeskOp>)
    ensures RequestsTold(RunDesk(admin, ops), Succeeded(admin, ops))
  {
    if ops != [] {
      var init, op := ops[..|ops| - 1], ops[|ops| - 1];
      RequestsAreTold(admin, init);
      DeskIsSound(admin, init);
      if Step(RunDesk(admin, init), op).Ok? {
        StepKeepsRequestsTold(RunDesk(admin, init), Succeeded(admin, init), op);
      }
    }
  }

  /** So a request can be cancelled exactly by the key that asked for it, and only until it has ended. */
  lemma {:induction false} CancelledByWhoAsked(admin: Pubkey, ops: seq<DeskOp>, key: Pubkey, id: U64)
    ensures var done := Succeeded(admin, ops);
            Step(RunDesk(admin, ops), CancelRedemption(key, id)).Ok? <==>
              && id < |Asked(done)| && Asked(done)[id].owner == key
              && forall status :: !Ended(done, id, status)
  {
    var d, done := RunDesk(admin, ops), Succeeded(admin, ops);
    RequestsAreTold(admin, ops);
    AcceptedExactly(admin, ops, CancelRedemption(key, id));
    DeskIsSound(admin, ops);
    assert !Ended(done, id, Pending);
    if id < |Asked(done)| {
      assert RequestTold(d, done, id);
      assert d.requests[id].status != Pending ==> Ended(done, id, d.requests[id].status);
    }
  }

  // Who is in charge and whether requests are open, read off the instructions.
  function ControlTold(admin: Pubkey, done: seq<DeskOp>): Control {
    if done == [] then Control(admin, DEFAULT_KEY, false)
    else
      var c := ControlTold(admin, done[..|done| - 1]);
      match done[|done| - 1]
      case SetPaused(_, paused) => c.(paused := paused)
      case BeginTransfer(_, key) => c.(pendingAdmin := key)
      case AcceptTransfer(key) => Control(key, DEFAULT_KEY, c.paused)
      case _ => c
  }

  // The log entry an instruction of an admin leaves.
  function EntryTold(c: Control, asked: seq<Wish>, op: DeskOp): Option<LogEntry> {
    match op
    case Settle(key, id, complete) =>
      if id < |asked| then
        Some(LogEntry(key, if complete then CompleteRedemption else RejectRedemption, RequestAccount(id),
                      asked[id].amount))
      else None
    case SetPaused(key, paused) =>
      Some(LogEntry(key, SetRedemptionsPaused, Key(DEFAULT_KEY), if paused then 1 else 0))
    case BeginTransfer(key, successor) => Some(LogEntry(key, BeginAdminTransfer, Key(successor), 0))
    case AcceptTransfer(key) => Some(LogEntry(key, AcceptAdminTransfer, Key(c.admin), 0))
    case _ => None
  }

  function LogTold(admin: Pubkey, done: seq<DeskOp>): seq<LogEntry> {
    if done == [] then []
    else
      var init, op := done[..|done| - 1], done[|done| - 1];
      match EntryTold(ControlTold(admin, init), Asked(init), op)
      case Some(entry) => LogTold(admin, init) + [entry]
      case None => LogTold(admin, init)
  }

  // The admin's side of the desk is what the instructions say.
  ghost predicate AdminTold(admin: Pubkey, d: Desk, done: seq<DeskOp>) {
    && Control(d.admin, d.pendingAdmin, d.paused) == ControlTold(admin, done)
    && d.nextAction == |LogTold(admin, done)| && LogIs(d.log, LogTold(admin, done))
  }

  ghost predicate LogIs(log: map<U64, LogEntry>, told: seq<LogEntry>) {
    forall k: U64 | k < |told| :: k in log && log[k] == told[k]
  }

  lemma LogGrows(log: map<U64, LogEntry>, told: seq<LogEntry>, entry: LogEntry)
    requires LogIs(log, told) && |told| < TWO_64
    ensures LogIs(log[|told| := entry], told + [entry])
  {
  }

  lemma {:induction false} TellsPush(admin: Pubkey, done: seq<DeskOp>, op: DeskOp)
    ensures var c, entry := ControlTold(admin, done), EntryTold(ControlTold(admin, done), Asked(done), op);
            && ControlTold(admin, done + [op]) == (
                 match op
                 case SetPaused(_, paused) => c.(paused := paused)
                 case BeginTransfer(_, key) => c.(pendingAdmin := key)
                 case AcceptTransfer(key) => Control(key, DEFAULT_KEY, c.paused)
                 case _ => c)
            && LogTold(admin, done + [op])
               == if entry.Some? then LogTold(admin, done) + [entry.value] else LogTold(admin, done)
  {
    assert (done + [op])[..|done|] == done;
  }

  // The entry one instruction leaves in the log, if it leaves one.
  ghost predicate EntryFits(d: Desk, asked: seq<Wish>, op: DeskOp)
    requires Step(d, op).Ok?
  {
    var d', entry := Step(d, op).value, EntryTold(Control(d.admin, d.pendingAdmin, d.paused), asked, op);
    && (entry.None? <==> op.RequestRedemption? || op.CancelRedemption?)
    && (entry.Some? ==> d.nextAction in d'.log && d'.log[d.nextAction] == entry.value)
  }

  lemma {:induction false} SettleIsTold(d: Desk, done: seq<DeskOp>, op: DeskOp)
    requires op.Settle? && Gapless(d) && RequestsTold(d, done) && Step(d, op).Ok?
    ensures EntryFits(d, Asked(done), op)
  {
    assert RequestTold(d, done, op.id);
  }

  lemma OtherIsTold(d: Desk, asked: seq<Wish>, op: DeskOp)
    requires !op.Settle? && Step(d, op).Ok?
    ensures EntryFits(d, asked, op)
  {
  }

  // The control state one instruction leaves.
  lemma {:induction false} ControlFits(admin: Pubkey, d: Desk, done: seq<DeskOp>, op: DeskOp)
    requires Step(d, op).Ok? && Control(d.admin, d.pendingAdmin, d.paused) == ControlTold(admin, done)
    ensures var d' := Step(d, op).value;
            Control(d'.admin, d'.pendingAdmin, d'.paused) == ControlTold(admin, done + [op])
  {
    TellsPush(admin, done, op);
  }

  lemma {:induction false} StepKeepsAdminTold(admin: Pubkey, d: Desk, done: seq<DeskOp>, op: DeskOp)
    requires Gapless(d) && RequestsTold(d, done) && AdminTold(admin, d, done) && Step(d, op).Ok?
    ensures AdminTold(admin, Step(d, op).value, done + [op])
  {
    TellsPush(admin, done, op);
    ControlFits(admin, d, done, op);
    LogEntryOf(d, op);
    if op.Settle? {
      SettleIsTold(d, done, op);
    } else {
      OtherIsTold(d, Asked(done), op);
    }
    if !op.RequestRedemption? && !op.CancelRedemption? {
      LogGrows(d.log, LogTold(admin, done), Step(d, op).value.log[d.nextAction]);
    }
  }

  /** Over every run: admin, successor, switch and the whole log are what the successful instructions say, entry by
      entry and in their order. */
  lemma {:induction false} AdminIsTold(admin: Pubkey, ops: seq<DeskOp>)
    ensures AdminTold(admin, RunDesk(admin, ops), Succeeded(admin, ops))
  {
    if ops != [] {
      var init, op := ops[..|ops| - 1], ops[|ops| - 1];
      AdminIsTold(admin, init);
      RequestsAreTold(admin, init);
      DeskIsSound(admin, init);
      if Step(RunDesk(admin, init), op).Ok? {
        StepKeepsAdminTold(admin, RunDesk(admin, init), Succeeded(admin, init), op);
      }
    }
  }

  // What an error says about the instruction that got it.
  predicate Explains(d: Desk, op: DeskOp, e: RedemptionError) {
    match e
    case InvalidRedemptionAmount => op.RequestRedemption? && (op.amount == 0 || d.nextRequest == TWO_64 - 1)
    case RedemptionsPaused => op.RequestRedemption? && d.paused
    case RequestNotPending =>
      (op.CancelRedemption? || op.Settle?) && op.id in d.requests && !d.requests[op.id].status.Pending?
    case UnauthorizedRequestOwner =>
      op.CancelRedemption? && op.id in d.requests && d.requests[op.id].owner != op.owner
    case UnauthorizedAdmin => (op.Settle? || op.SetPaused? || op.BeginTransfer?) && op.caller != d.admin
    case UnauthorizedPendingAdmin => op.AcceptTransfer? && op.caller != d.pendingAdmin
    case MissingPendingAdmin => op.AcceptTransfer? && d.pendingAdmin == DEFAULT_KEY
    case InvalidPendingAdmin =>
      || (op.BeginTransfer? && (op.newAdmin == DEFAULT_KEY || op.newAdmin == d.admin))
      || (!op.RequestRedemption? && !op.CancelRedemption? && d.nextAction == TWO_64 - 1)
    case VaultOutstandingTooLow => op.RequestRedemption? && d.vault.requested + op.amount >= TWO_64
    case AccountNotInitialized => (op.CancelRedemption? || op.Settle?) && op.id !in d.requests
    case AccountAlreadyInUse => false
  }

  /** No error lies: what it complains about is really wrong with the instruction; vault arithmetic is never to blame
      except for a request that would take the total out of 64 bits. */
  lemma {:induction false} ErrorsAreTrue(admin: Pubkey, ops: seq<DeskOp>, op: DeskOp)
    requires Step(RunDesk(admin, ops), op).Err?
    ensures Explains(RunDesk(admin, ops), op, Step(RunDesk(admin, ops), op).error)
  {
    DeskIsSound(admin, ops);
    var d := RunDesk(admin, ops);
    assert d.nextRequest !in d.requests && d.nextAction !in d.log;
    if (op.CancelRedemption? || op.Settle?) && op.id in d.requests && d.requests[op.id].status.Pending? {
      PendingCanLeave(d, op.id, if op.CancelRedemption? then Cancelled else Completed);
      PendingCanLeave(d, op.id, Rejected);
    }
  }
}
