/** The transfer hook told from outside: days by the clock, and settings by what the admin did. */
module ComplianceHistory {
  import opened Types
  import opened Compliance
  import opened Sums

  // The n-th stretch of 86400 seconds; counted from zero in both directions, so the stretch of day 0 is a double one.
  predicate InStretch(n: int, t: int) {
    if t >= 0 then 86400 * n <= t < 86400 * (n + 1) else 86400 * (n - 1) < t <= 86400 * n
  }

  ghost predicate SameStretch(s: int, t: int) {
    exists n :: InStretch(n, s) && InStretch(n, t)
  }

  lemma StretchIsOne(n: int, m: int, t: int)
    requires InStretch(n, t) && InStretch(m, t)
    ensures n == m
  {
  }

  /** A day is 86400 seconds: the day of a timestamp is the one stretch it lies in. */
  lemma DayIsStretch(t: I64, n: int)
    ensures Day(t) == n <==> InStretch(n, t)
  {
    if InStretch(n, t) {
      StretchIsOne(n, Day(t), t);
    }
  }

  lemma SameDaySameStretch(s: I64, t: I64)
    ensures Day(s) == Day(t) <==> SameStretch(s, t)
  {
    DayIsStretch(s, Day(s));
    DayIsStretch(t, Day(t));
    if SameStretch(s, t) {
      var n :| InStretch(n, s) && InStretch(n, t);
      DayIsStretch(s, n);
      DayIsStretch(t, n);
    }
  }

  // What an account sent in the same stretch of the clock as `now`.
  ghost function SentAround(source: Pubkey, now: I64): Accepted -> nat {
    (a: Accepted) => if a.source == source && SameStretch(a.now, now) then a.amount else 0
  }

  lemma {:induction false} SentOnIsAround(source: Pubkey, now: I64, accepted: seq<Accepted>)
    ensures SumOf(SentOn(source, Day(now)), accepted) == SumOf(SentAround(source, now), accepted)
  {
    forall a | a in accepted ensures SentOn(source, Day(now))(a) == SentAround(source, now)(a) {
      SameDaySameStretch(a.now, now);
    }
    SumSame(SentOn(source, Day(now)), SentAround(source, now), accepted);
  }

  // With the k-th acceptance, all its account had sent in that stretch was within the limit then in force.
  ghost predicate CapKept(accepted: seq<Accepted>, k: nat)
    requires k < |accepted|
  {
    SumOf(SentAround(accepted[k].source, accepted[k].now), accepted[..k + 1]) <= accepted[k].limit
  }

  /** The daily cap by the clock alone: when the clock never goes back, what an account sends in one stretch of 86400
      seconds stays, with every acceptance, within the limit then in force. */
  lemma {:induction false} CapByTheClock(start: Hook, ops: seq<HookOp>)
    requires start.profiles == map[] && ClockRuns(ops)
    ensures forall k: nat | k < |RunHook(start, ops).accepted| :: CapKept(RunHook(start, ops).accepted, k)
  {
    DailyCapHolds(start, ops);
    var accepted := RunHook(start, ops).accepted;
    forall k: nat | k < |accepted| ensures CapKept(accepted, k) {
      assert WithinLimit(accepted, k);
      SentOnIsAround(accepted[k].source, accepted[k].now, accepted[..k + 1]);
    }
  }

  // The steps of a run that went through.
  function Done(start: Hook, ops: seq<HookOp>): seq<HookOp> {
    if ops == [] then []
    else
      var init, op := ops[..|ops| - 1], ops[|ops| - 1];
      if Step(RunHook(start, init).hook, op).Ok? then Done(start, init) + [op] else Done(start, init)
  }

  datatype Flags = Flags(allowlisted: bool, blocked: bool, issuerActive: bool)

  function FlagsOf(p: Profile): Flags {
    Flags(p.allowlisted, p.blocked, p.issuerActive)
  }

  datatype Settings = Settings(maxTransfer: U64, dailyLimit: U64, paused: bool)

  function SettingsOf(h: Hook): Settings {
    Settings(h.maxTransfer, h.dailyLimit, h.paused)
  }

  // The settings read off the steps: the latest of each kind counts.
  function SettingsTold(first: Settings, done: seq<HookOp>): Settings {
    if done == [] then first
    else
      var before, op := SettingsTold(first, done[..|done| - 1]), done[|done| - 1];
      match op
      case SetLimits(_, maxTransfer, dailyLimit) => before.(maxTransfer := maxTransfer, dailyLimit := dailyLimit)
      case SetPaused(_, paused) => before.(paused := paused)
      case _ => before
  }

  // The latest flags an account was given, if it was given any.
  function FlagsTold(done: seq<HookOp>, user: Pubkey): Option<Flags> {
    if done == [] then None
    else
      var op := done[|done| - 1];
      if op.SetProfile? && op.user == user then Some(Flags(op.allowlisted, op.blocked, op.issuerActive))
      else FlagsTold(done[..|done| - 1], user)
  }

  ghost predicate ProfileTold(h: Hook, done: seq<HookOp>, user: Pubkey) {
    FlagsTold(done, user) == if user in h.profiles then Some(FlagsOf(h.profiles[user])) else None
  }

  // Settings and flags are what the admin, and nobody else, made them.
  ghost predicate HookTold(start: Hook, h: Hook, done: seq<HookOp>) {
    && h.admin == start.admin
    && SettingsOf(h) == SettingsTold(SettingsOf(start), done)
    && (forall user :: ProfileTold(h, done, user))
    && (forall i | 0 <= i < |done| && !done[i].Transfer? :: done[i].caller == start.admin)
  }

  lemma {:induction false} FlagsPush(done: seq<HookOp>, op: HookOp, user: Pubkey)
    ensures FlagsTold(done + [op], user)
            == if op.SetProfile? && op.user == user then Some(Flags(op.allowlisted, op.blocked, op.issuerActive))
               else FlagsTold(done, user)
  {
    assert (done + [op])[..|done|] == done;
  }

  lemma StepOnProfile(h: Hook, op: HookOp, user: Pubkey)
    requires Step(h, op).Ok?
    ensures var h' := Step(h, op).value;
            if op.SetProfile? && op.user == user then
              user in h'.profiles && FlagsOf(h'.profiles[user]) == Flags(op.allowlisted, op.blocked, op.issuerActive)
            else
              && (user in h'.profiles <==> user in h.profiles)
              && (user in h.profiles ==> FlagsOf(h'.profiles[user]) == FlagsOf(h.profiles[user]))
  {
  }

  lemma {:induction false} StepKeepsTold(start: Hook, h: Hook, done: seq<HookOp>, op: HookOp)
    requires HookTold(start, h, done) && Step(h, op).Ok?
    ensures HookTold(start, Step(h, op).value, done + [op])
  {
    assert (done + [op])[..|done|] == done;
    forall user ensures ProfileTold(Step(h, op).value, done + [op], user) {
      assert ProfileTold(h, done, user);
      FlagsPush(done, op, user);
      StepOnProfile(h, op, user);
    }
  }

  /** Over every run: limits, switch and the flags of every account are the latest that went through, each set by the
      admin; transfers change none of them, and an account has a profile exactly if it was ever given flags. */
  lemma {:induction false} SettingsAreTold(start: Hook, ops: seq<HookOp>)
    requires start.profiles == map[]
    ensures HookTold(start, RunHook(start, ops).hook, Done(start, ops))
  {
    if ops != [] {
      var init, op := ops[..|ops| - 1], ops[|ops| - 1];
      SettingsAreTold(start, init);
      if Step(RunHook(start, init).hook, op).Ok? {
        StepKeepsTold(start, RunHook(start, init).hook, Done(start, init), op);
      }
    }
  }

  /** Setting a profile leaves the counter alone, and a new profile starts at zero. */
  lemma ProfileKeepsCounter(h: Hook, op: HookOp)
    requires op.SetProfile? && Step(h, op).Ok?
    ensures var p' := Step(h, op).value.profiles;
            && op.user in p'
            && (op.user in h.profiles ==>
                  && p'[op.user].transferredToday == h.profiles[op.user].transferredToday
                  && p'[op.user].currentDay == h.profiles[op.user].currentDay)
            && (op.user !in h.profiles ==> p'[op.user].transferredToday == 0 && p'[op.user].currentDay == 0)
  {
  }

  // What the hook asks of a transfer, besides the daily limit.
  predicate MayTransfer(h: Hook, op: HookOp)
    requires op.Transfer?
  {
    && !h.paused && op.amount <= h.maxTransfer
    && op.source in h.profiles && op.destination in h.profiles
    && FlagsOf(h.profiles[op.source]) == Flags(true, false, true)
    && h.profiles[op.destination].allowlisted && !h.profiles[op.destination].blocked
  }

  // What the counter shows for the day of the clock.
  function Counted(h: Hook, op: HookOp): nat
    requires op.Transfer? && op.source in h.profiles
  {
    var p := h.profiles[op.source];
    if InStretch(p.currentDay, op.now) then p.transferredToday else 0
  }

  /** When a step goes through: the admin's own steps with positive limits, and transfers that switches, profiles and
      counter allow. */
  lemma StepExactly(h: Hook, op: HookOp)
    ensures Step(h, op).Ok? <==>
              match op
              case Transfer(_, _, amount, _) => MayTransfer(h, op) && Counted(h, op) + amount <= h.dailyLimit
              case SetLimits(caller, maxTransfer, dailyLimit) => caller == h.admin && maxTransfer > 0 && dailyLimit > 0
              case SetProfile(caller, _, _, _, _) => caller == h.admin
              case SetPaused(caller, _) => caller == h.admin
  {
    if op.Transfer? && op.source in h.profiles {
      DayIsStretch(op.now, h.profiles[op.source].currentDay);
    }
  }

  // What an error says about the step that got it.
  predicate Explains(h: Hook, op: HookOp, e: HookError) {
    match e
    case UnauthorizedAdmin => !op.Transfer? && op.caller != h.admin
    case InvalidTransferLimit => op.SetLimits? && (op.maxTransfer == 0 || op.dailyLimit == 0)
    case ProtocolPaused => op.Transfer? && h.paused
    case TransferLimitExceeded => op.Transfer? && op.amount > h.maxTransfer
    case InvalidTransferHookAccounts =>
      op.Transfer? && (op.source !in h.profiles || op.destination !in h.profiles)
    case SourceNotAllowlisted => op.Transfer? && op.source in h.profiles && !h.profiles[op.source].allowlisted
    case DestinationNotAllowlisted =>
      op.Transfer? && op.destination in h.profiles && !h.profiles[op.destination].allowlisted
    case SourceBlocked => op.Transfer? && op.source in h.profiles && h.profiles[op.source].blocked
    case DestinationBlocked => op.Transfer? && op.destination in h.profiles && h.profiles[op.destination].blocked
    case IssuerInactive => op.Transfer? && op.source in h.profiles && !h.profiles[op.source].issuerActive
    case DailyLimitExceeded =>
      op.Transfer? && op.source in h.profiles && Counted(h, op) + op.amount > h.dailyLimit
  }

  /** No error lies: what it complains about is really wrong with the step. */
  lemma ErrorsAreTrue(h: Hook, op: HookOp)
    requires Step(h, op).Err?
    ensures Explains(h, op, Step(h, op).error)
  {
    if op.Transfer? && op.source in h.profiles {
      DayIsStretch(op.now, h.profiles[op.source].currentDay);
    }
  }
}
