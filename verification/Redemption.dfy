/** The redemption vault and its admin log, as a function of the program's accounts. */
module Redemption {
  import opened Types

  datatype RedemptionError =
    | InvalidRedemptionAmount
    | RedemptionsPaused
    | RequestNotPending
    | UnauthorizedRequestOwner
    | UnauthorizedAdmin
    | UnauthorizedPendingAdmin
    | MissingPendingAdmin
    | InvalidPendingAdmin
    | VaultOutstandingTooLow
    | AccountNotInitialized
    | AccountAlreadyInUse

  datatype Status = Pending | Cancelled | Completed | Rejected

  datatype RedemptionRequest = RedemptionRequest(owner: Pubkey, amount: U64, status: Status)

  datatype Vault = Vault(outstanding: U64, requested: U64, completed: U64, cancelled: U64, rejected: U64)

  datatype Action =
    | CompleteRedemption
    | RejectRedemption
    | SetRedemptionsPaused
    | BeginAdminTransfer
    | AcceptAdminTransfer

  // A log entry points at a request account, at a key, or (the default key) at nothing.
  datatype Target = RequestAccount(id: U64) | Key(key: Pubkey)

  datatype LogEntry = LogEntry(admin: Pubkey, action: Action, target: Target, amount: U64)

  // Requests and log entries live in accounts derived from their numbers.
  datatype Desk = Desk(
    admin: Pubkey,
    pendingAdmin: Pubkey,
    paused: bool,
    nextRequest: U64,
    nextAction: U64,
    vault: Vault,
    requests: map<U64, RedemptionRequest>,
    log: map<U64, LogEntry>)

  function NewDesk(admin: Pubkey): Desk {
    Desk(admin, DEFAULT_KEY, false, 0, 0, Vault(0, 0, 0, 0, 0), map[], map[])
  }

  datatype DeskOp =
    | RequestRedemption(owner: Pubkey, amount: U64)
    | CancelRedemption(owner: Pubkey, id: U64)
    | Settle(caller: Pubkey, id: U64, complete: bool)
    | SetPaused(caller: Pubkey, paused: bool)
    | BeginTransfer(caller: Pubkey, newAdmin: Pubkey)
    | AcceptTransfer(caller: Pubkey)

  function WriteLog(d: Desk, entry: LogEntry): Result<Desk, RedemptionError> {
    if d.nextAction + 1 >= TWO_64 then Err(InvalidPendingAdmin)
    else Ok(d.(log := d.log[d.nextAction := entry], nextAction := d.nextAction + 1))
  }

  function NewRequest(d: Desk, owner: Pubkey, amount: U64): Result<Desk, RedemptionError> {
    if d.nextRequest in d.requests then Err(AccountAlreadyInUse)
    else if amount == 0 then Err(InvalidRedemptionAmount)
    else if d.paused then Err(RedemptionsPaused)
    else if d.vault.outstanding + amount >= TWO_64 then Err(VaultOutstandingTooLow)
    else if d.vault.requested + amount >= TWO_64 then Err(VaultOutstandingTooLow)
    else if d.nextRequest + 1 >= TWO_64 then Err(InvalidRedemptionAmount)
    else Ok(d.(vault := d.vault.(outstanding := d.vault.outstanding + amount, requested := d.vault.requested + amount),
               requests := d.requests[d.nextRequest := RedemptionRequest(owner, amount, Pending)],
               nextRequest := d.nextRequest + 1))
  }

  // The vault after a pending request of this amount leaves it with this status.
  function Release(v: Vault, amount: U64, status: Status): Result<Vault, RedemptionError>
    requires !status.Pending?
  {
    if amount > v.outstanding then Err(VaultOutstandingTooLow)
    else
      var total := match status case Cancelled => v.cancelled case Completed => v.completed case Rejected => v.rejected;
      if total + amount >= TWO_64 then Err(VaultOutstandingTooLow)
      else
        var v' := v.(outstanding := v.outstanding - amount);
        Ok(match status
           case Cancelled => v'.(cancelled := total + amount)
           case Completed => v'.(completed := total + amount)
           case Rejected => v'.(rejected := total + amount))
  }

  function WithStatus(d: Desk, id: U64, status: Status): Result<Desk, RedemptionError>
    requires id in d.requests && !status.Pending?
  {
    var vault :- Release(d.vault, d.requests[id].amount, status);
    Ok(d.(vault := vault, requests := d.requests[id := d.requests[id].(status := status)]))
  }

  function SettleRequest(d: Desk, caller: Pubkey, id: U64, complete: bool): Result<Desk, RedemptionError>
    requires id in d.requests
  {
    if !d.requests[id].status.Pending? then Err(RequestNotPending)
    else
      var settled :- WithStatus(d, id, if complete then Completed else Rejected);
      WriteLog(settled, LogEntry(caller, if complete then CompleteRedemption else RejectRedemption,
                                 RequestAccount(id), d.requests[id].amount))
  }

  function Step(d: Desk, op: DeskOp): Result<Desk, RedemptionError> {
    match op
    case RequestRedemption(owner, amount) => NewRequest(d, owner, amount)
    case CancelRedemption(owner, id) =>
      if id !in d.requests then Err(AccountNotInitialized)
      else if !d.requests[id].status.Pending? then Err(RequestNotPending)
      else if d.requests[id].owner != owner then Err(UnauthorizedRequestOwner)
      else WithStatus(d, id, Cancelled)
    case Settle(caller, id, complete) =>
      if caller != d.admin then Err(UnauthorizedAdmin)
      else if id !in d.requests then Err(AccountNotInitialized)
      else if d.nextAction in d.log then Err(AccountAlreadyInUse)
      else SettleRequest(d, caller, id, complete)
    case SetPaused(caller, paused) =>
      if caller != d.admin then Err(UnauthorizedAdmin)
      else if d.nextAction in d.log then Err(AccountAlreadyInUse)
      else WriteLog(d.(paused := paused),
                    LogEntry(caller, SetRedemptionsPaused, Key(DEFAULT_KEY), if paused then 1 else 0))
    case BeginTransfer(caller, newAdmin) =>
      if caller != d.admin then Err(UnauthorizedAdmin)
      else if d.nextAction in d.log then Err(AccountAlreadyInUse)
      else if newAdmin == DEFAULT_KEY || newAdmin == d.admin then Err(InvalidPendingAdmin)
      else WriteLog(d.(pendingAdmin := newAdmin), LogEntry(caller, BeginAdminTransfer, Key(newAdmin), 0))
    case AcceptTransfer(caller) =>
      if d.nextAction in d.log then Err(AccountAlreadyInUse)
      else if d.pendingAdmin == DEFAULT_KEY then Err(MissingPendingAdmin)
      else if d.pendingAdmin != caller then Err(UnauthorizedPendingAdmin)
      else WriteLog(d.(admin := caller, pendingAdmin := DEFAULT_KEY),
                    LogEntry(caller, AcceptAdminTransfer, Key(d.admin), 0))
  }

  // A failed instruction is rolled back.
  function RunDesk(admin: Pubkey, ops: seq<DeskOp>): Desk {
    if ops == [] then NewDesk(admin)
    else
      var d := RunDesk(admin, ops[..|ops| - 1]);
      match Step(d, ops[|ops| - 1])
      case Ok(d') => d'
      case Err(_) => d
  }

  /** The program's accounts, updated in place; an instruction that fails is rolled back. */
  class RedemptionDesk {
    var admin: Pubkey
    var pendingAdmin: Pubkey
    var paused: bool
    var nextRequest: U64
    var nextAction: U64
    var vault: Vault
    var requests: map<U64, RedemptionRequest>
    var log: map<U64, LogEntry>

    function View(): Desk
      reads this
    {
      Desk(admin, pendingAdmin, paused, nextRequest, nextAction, vault, requests, log)
    }

    // The model's new state, or the model's error and no change.
    ghost predicate Did(was: Desk, r: Result<(), RedemptionError>, model: Result<Desk, RedemptionError>)
      reads this
    {
      match model
      case Ok(d) => r == Ok(()) && View() == d
      case Err(e) => r == Err(e) && View() == was
    }

    constructor (admin: Pubkey)
      ensures View() == NewDesk(admin)
    {
      this.admin, pendingAdmin, paused := admin, DEFAULT_KEY, false;
      nextRequest, nextAction, vault, requests, log := 0, 0, Vault(0, 0, 0, 0, 0), map[], map[];
    }

    method Request(owner: Pubkey, amount: U64) returns (r: Result<(), RedemptionError>)
      modifies this
      ensures Did(old(View()), r, Step(old(View()), RequestRedemption(owner, amount)))
    {
      if nextRequest in requests {
        return Err(AccountAlreadyInUse);
      }
      if amount == 0 {
        return Err(InvalidRedemptionAmount);
      }
      if paused {
        return Err(RedemptionsPaused);
      }
      if vault.outstanding + amount >= TWO_64 || vault.requested + amount >= TWO_64 {
        return Err(VaultOutstandingTooLow);
      }
      if nextRequest + 1 >= TWO_64 {
        return Err(InvalidRedemptionAmount);
      }
      requests := requests[nextRequest := RedemptionRequest(owner, amount, Pending)];
      vault := vault.(outstanding := vault.outstanding + amount, requested := vault.requested + amount);
      nextRequest := nextRequest + 1;
      r := Ok(());
    }

    method Cancel(owner: Pubkey, id: U64) returns (r: Result<(), RedemptionError>)
      modifies this
      ensures Did(old(View()), r, Step(old(View()), CancelRedemption(owner, id)))
    {
      if id !in requests {
        return Err(AccountNotInitialized);
      }
      var request := requests[id];
      if !request.status.Pending? {
        return Err(RequestNotPending);
      }
      if request.owner != owner {
        return Err(UnauthorizedRequestOwner);
      }
      if request.amount > vault.outstanding || vault.cancelled + request.amount >= TWO_64 {
        return Err(VaultOutstandingTooLow);
      }
      vault := vault.(outstanding := vault.outstanding - request.amount, cancelled := vault.cancelled + request.amount);
      requests := requests[id := request.(status := Cancelled)];
      r := Ok(());
    }

    method Settle(caller: Pubkey, id: U64, complete: bool) returns (r: Result<(), RedemptionError>)
      modifies this
      ensures Did(old(View()), r, Step(old(View()), DeskOp.Settle(caller, id, complete)))
    {
      if caller != admin {
        return Err(UnauthorizedAdmin);
      }
      if id !in requests {
        return Err(AccountNotInitialized);
      }
      if nextAction in log {
        return Err(AccountAlreadyInUse);
      }
      var request := requests[id];
      if !request.status.Pending? {
        return Err(RequestNotPending);
      }
      var amount := request.amount;
      var total := if complete then vault.completed else vault.rejected;
      if amount > vault.outstanding || total + amount >= TWO_64 {
        return Err(VaultOutstandingTooLow);
      }
      var action := if complete then CompleteRedemption else RejectRedemption;
      var _ :- WriteAdminLog(LogEntry(caller, action, RequestAccount(id), amount));
      vault := vault.(outstanding := vault.outstanding - amount);
      if complete {
        vault := vault.(completed := total + amount);
      } else {
        vault := vault.(rejected := total + amount);
      }
      requests := requests[id := request.(status := if complete then Completed else Rejected)];
      r := Ok(());
    }

    method SetRedemptionsPaused(caller: Pubkey, paused: bool) returns (r: Result<(), RedemptionError>)
      modifies this
      ensures Did(old(View()), r, Step(old(View()), SetPaused(caller, paused)))
    {
      if caller != admin {
        return Err(UnauthorizedAdmin);
      }
      if nextAction in log {
        return Err(AccountAlreadyInUse);
      }
      var amount := if paused then 1 else 0;
      var _ :- WriteAdminLog(LogEntry(caller, Action.SetRedemptionsPaused, Key(DEFAULT_KEY), amount));
      this.paused := paused;
      r := Ok(());
    }

    method BeginAdminTransfer(caller: Pubkey, newAdmin: Pubkey) returns (r: Result<(), RedemptionError>)
      modifies this
      ensures Did(old(View()), r, Step(old(View()), BeginTransfer(caller, newAdmin)))
    {
      if caller != admin {
        return Err(UnauthorizedAdmin);
      }
      if nextAction in log {
        return Err(AccountAlreadyInUse);
      }
      if newAdmin == DEFAULT_KEY || newAdmin == admin {
        return Err(InvalidPendingAdmin);
      }
      var _ :- WriteAdminLog(LogEntry(caller, Action.BeginAdminTransfer, Key(newAdmin), 0));
      pendingAdmin := newAdmin;
      r := Ok(());
    }

    method AcceptAdminTransfer(caller: Pubkey) returns (r: Result<(), RedemptionError>)
      modifies this
      ensures Did(old(View()), r, Step(old(View()), AcceptTransfer(caller)))
    {
      if nextAction in log {
        return Err(AccountAlreadyInUse);
      }
      if pendingAdmin == DEFAULT_KEY {
        return Err(MissingPendingAdmin);
      }
      if pendingAdmin != caller {
        return Err(UnauthorizedPendingAdmin);
      }
      var _ :- WriteAdminLog(LogEntry(caller, Action.AcceptAdminTransfer, Key(admin), 0));
      admin, pendingAdmin := caller, DEFAULT_KEY;
      r := Ok(());
    }

    method WriteAdminLog(entry: LogEntry) returns (r: Result<(), RedemptionError>)
      modifies this`log, this`nextAction
      ensures Did(old(View()), r, WriteLog(old(View()), entry))
    {
      if nextAction + 1 >= TWO_64 {
        return Err(InvalidPendingAdmin);
      }
      log := log[nextAction := entry];
      nextAction := nextAction + 1;
      r := Ok(());
    }
  }
}
