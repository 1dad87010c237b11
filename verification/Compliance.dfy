/** The transfer hook: profile checks, per-transfer and daily limits, and what they mean over time. */
module Compliance {
  import opened Types
  import opened Sums

  datatype HookError =
    | UnauthorizedAdmin
    | ProtocolPaused
    | SourceNotAllowlisted
    | DestinationNotAllowlisted
    | SourceBlocked
    | DestinationBlocked
    | IssuerInactive
    | TransferLimitExceeded
    | DailyLimitExceeded
    | InvalidTransferLimit
    | InvalidTransferHookAccounts

  type I64 = x: int | -0x8000_0000_0000_0000 <= x < 0x8000_0000_0000_0000

  // One profile per token account.
  datatype Profile = Profile(
    allowlisted: bool, blocked: bool, issuerActive: bool, transferredToday: U64, currentDay: I64)

  datatype Hook = Hook(
    admin: Pubkey,
    maxTransfer: U64,
    dailyLimit: U64,
    paused: bool,
    profiles: map<Pubkey, Profile>)

  // Signed division truncates toward zero.
  function Day(timestamp: I64): I64 {
    var t: int := timestamp;
    if t >= 0 then t / 86400 else -((-t) / 86400)
  }

  // The counter is reset when the day differs from the recorded one, earlier or later.
  function OnDay(p: Profile, day: I64): Profile {
    if p.currentDay != day then p.(currentDay := day, transferredToday := 0) else p
  }

  function CheckProfiles(source: Profile, destination: Profile): Result<(), HookError> {
    if !source.allowlisted then Err(SourceNotAllowlisted)
    else if !destination.allowlisted then Err(DestinationNotAllowlisted)
    else if source.blocked then Err(SourceBlocked)
    else if destination.blocked then Err(DestinationBlocked)
    else if !source.issuerActive then Err(IssuerInactive)
    else Ok(())
  }

  function CountToday(p: Profile, day: I64, amount: U64, limit: U64): Result<Profile, HookError> {
    var today := OnDay(p, day);
    if today.transferredToday + amount >= TWO_64 || today.transferredToday + amount > limit then Err(DailyLimitExceeded)
    else Ok(today.(transferredToday := today.transferredToday + amount))
  }

  datatype HookOp =
    | Transfer(source: Pubkey, destination: Pubkey, amount: U64, now: I64)
    | SetProfile(caller: Pubkey, user: Pubkey, allowlisted: bool, blocked: bool, issuerActive: bool)
    | SetLimits(caller: Pubkey, maxTransfer: U64, dailyLimit: U64)
    | SetPaused(caller: Pubkey, paused: bool)

  function ExecuteTransfer(h: Hook, source: Pubkey, destination: Pubkey, amount: U64, now: I64)
    : Result<Hook, HookError>
  {
    if h.paused then Err(ProtocolPaused)
    else if amount > h.maxTransfer then Err(TransferLimitExceeded)
    else if source !in h.profiles || destination !in h.profiles then Err(InvalidTransferHookAccounts)
    else
      var _ :- CheckProfiles(h.profiles[source], h.profiles[destination]);
      var counted :- CountToday(h.profiles[source], Day(now), amount, h.dailyLimit);
      Ok(h.(profiles := h.profiles[source := counted]))
  }

  // A new profile starts zeroed; an existing one keeps its counter.
  function ProfileOr(h: Hook, user: Pubkey): Profile {
    if user in h.profiles then h.profiles[user] else Profile(false, false, false, 0, 0)
  }

  function Step(h: Hook, op: HookOp): Result<Hook, HookError> {
    match op
    case Transfer(source, destination, amount, now) => ExecuteTransfer(h, source, destination, amount, now)
    case SetProfile(caller, user, allowlisted, blocked, issuerActive) =>
      if caller != h.admin then Err(UnauthorizedAdmin)
      else
        var p := ProfileOr(h, user);
        var p' := p.(allowlisted := allowlisted, blocked := blocked, issuerActive := issuerActive);
        Ok(h.(profiles := h.profiles[user := p']))
    case SetLimits(caller, maxTransfer, dailyLimit) =>
      if caller != h.admin then Err(UnauthorizedAdmin)
      else if maxTransfer == 0 || dailyLimit == 0 then Err(InvalidTransferLimit)
      else Ok(h.(maxTransfer := maxTransfer, dailyLimit := dailyLimit))
    case SetPaused(caller, paused) =>
      if caller != h.admin then Err(UnauthorizedAdmin) else Ok(h.(paused := paused))
  }

  // A transfer the hook let through, with the limit in force at that moment.
  datatype Accepted = Accepted(source: Pubkey, amount: U64, now: I64, limit: U64)

  datatype HookHistory = HookHistory(hook: Hook, accepted: seq<Accepted>)

  // A failed instruction is rolled back.
  function Next(t: HookHistory, op: HookOp): HookHistory {
    match Step(t.hook, op)
    case Err(_) => t
    case Ok(hook) =>
      if op.Transfer? then
        HookHistory(hook, t.accepted + [Accepted(op.source, op.amount, op.now, t.hook.dailyLimit)])
      else HookHistory(hook, t.accepted)
  }

  function RunHook(start: Hook, ops: seq<HookOp>): HookHistory {
    if ops == [] then HookHistory(start, []) else Next(RunHook(start, ops[..|ops| - 1]), ops[|ops| - 1])
  }

  lemma {:induction false} RunHookPush(start: Hook, ops: seq<HookOp>, op: HookOp)
    ensures RunHook(start, ops + [op]) == Next(RunHook(start, ops), op)
  {
    assert (ops + [op])[..|ops|] == ops;
  }

  function SentOn(source: Pubkey, day: I64): Accepted -> nat {
    (a: Accepted) => if a.source == source && Day(a.now) == day then a.amount else 0
  }

  // What an account has sent on a day, according to the history.
  function SentThen(t: HookHistory, source: Pubkey, day: I64): nat {
    SumOf(SentOn(source, day), t.accepted)
  }

  // A counter is what its account has sent on the day the profile records.
  ghost predicate CounterTrue(t: HookHistory, source: Pubkey)
    requires source in t.hook.profiles
  {
    var p := t.hook.profiles[source];
    p.transferredToday == SentThen(t, source, p.currentDay)
  }

  ghost predicate CountersTrue(t: HookHistory) {
    && (forall s | s in t.hook.profiles :: CounterTrue(t, s))
    && (forall a | a in t.accepted :: a.source in t.hook.profiles)
  }

  // A transfer on another day than the recorded one, on which its account has already sent something.
  predicate Reopens(t: HookHistory, op: HookOp) {
    && op.Transfer? && op.source in t.hook.profiles
    && t.hook.profiles[op.source].currentDay != Day(op.now)
    && SentThen(t, op.source, Day(op.now)) > 0
  }

  lemma TransferMoves(t: HookHistory, op: HookOp)
    requires op.Transfer? && Step(t.hook, op).Ok?
    ensures op.source in t.hook.profiles
    ensures var t' := Next(t, op);
            && t'.accepted == t.accepted + [Accepted(op.source, op.amount, op.now, t.hook.dailyLimit)]
            && t'.hook.profiles.Keys == t.hook.profiles.Keys
            && (forall s | s in t.hook.profiles && s != op.source :: t'.hook.profiles[s] == t.hook.profiles[s])
            && t'.hook.profiles[op.source].currentDay == Day(op.now)
            && t'.hook.profiles[op.source].transferredToday
               == OnDay(t.hook.profiles[op.source], Day(op.now)).transferredToday + op.amount <= t.hook.dailyLimit
  {
  }

  lemma OtherCounterKept(t: HookHistory, op: HookOp, s: Pubkey)
    requires op.Transfer? && Step(t.hook, op).Ok? && s != op.source && s in t.hook.profiles
    ensures s in Next(t, op).hook.profiles && (CounterTrue(Next(t, op), s) <==> CounterTrue(t, s))
  {
    TransferMoves(t, op);
    SumPush(SentOn(s, t.hook.profiles[s].currentDay), t.accepted,
            Accepted(op.source, op.amount, op.now, t.hook.dailyLimit));
  }

  lemma OwnCounterExactly(t: HookHistory, op: HookOp)
    requires op.Transfer? && Step(t.hook, op).Ok? && op.source in t.hook.profiles && CounterTrue(t, op.source)
    ensures op.source in Next(t, op).hook.profiles
    ensures CounterTrue(Next(t, op), op.source) <==> !Reopens(t, op)
    ensures SentThen(Next(t, op), op.source, Day(op.now)) == SentThen(t, op.source, Day(op.now)) + op.amount
  {
    TransferMoves(t, op);
    SumPush(SentOn(op.source, Day(op.now)), t.accepted,
            Accepted(op.source, op.amount, op.now, t.hook.dailyLimit));
  }

  /** Changing profiles, limits or the pause switch never makes a counter wrong. */
  lemma AdminKeepsCounters(t: HookHistory, op: HookOp)
    requires !op.Transfer? && Step(t.hook, op).Ok? && CountersTrue(t)
    ensures CountersTrue(Next(t, op))
  {
    var t' := Next(t, op);
    forall s | s in t'.hook.profiles ensures CounterTrue(t', s) {
      if s in t.hook.profiles {
        assert CounterTrue(t, s);
      } else {
        SumZero(SentOn(s, 0), t.accepted);
      }
    }
  }

  /** One step: all counters stay true exactly when the step does not reopen a day its account has sent on. */
  lemma StepKeepsCounters(t: HookHistory, op: HookOp)
    requires CountersTrue(t) && Step(t.hook, op).Ok?
    ensures CountersTrue(Next(t, op)) <==> !Reopens(t, op)
  {
    if op.Transfer? {
      TransferMoves(t, op);
      OwnCounterExactly(t, op);
      forall s | s in t.hook.profiles && s != op.source ensures CounterTrue(Next(t, op), s) {
        OtherCounterKept(t, op, s);
      }
    } else {
      AdminKeepsCounters(t, op);
    }
  }

  // The state after every step of the run, the start included, has true counters.
  ghost predicate AlwaysCounted(start: Hook, ops: seq<HookOp>) {
    && (ops != [] ==> AlwaysCounted(start, ops[..|ops| - 1]))
    && CountersTrue(RunHook(start, ops))
  }

  // No successful step of the run reopens a day.
  predicate NeverReopens(start: Hook, ops: seq<HookOp>) {
    ops != [] ==>
      && NeverReopens(start, ops[..|ops| - 1])
      && var t, op := RunHook(start, ops[..|ops| - 1]), ops[|ops| - 1];
         !(Step(t.hook, op).Ok? && Reopens(t, op))
  }

  /** Over whole runs: every counter is right at every moment exactly when no successful transfer reopens a day. */
  lemma {:induction false} CountersTrueUntilReopened(start: Hook, ops: seq<HookOp>)
    requires start.profiles == map[]
    ensures AlwaysCounted(start, ops) <==> NeverReopens(start, ops)
  {
    if ops != [] {
      var init, op := ops[..|ops| - 1], ops[|ops| - 1];
      CountersTrueUntilReopened(start, init);
      var t := RunHook(start, init);
      if AlwaysCounted(start, init) && Step(t.hook, op).Ok? {
        assert CountersTrue(t);
        StepKeepsCounters(t, op);
      }
    }
  }

  // The k-th acceptance kept its day's total within the limit then in force.
  ghost predicate WithinLimit(accepted: seq<Accepted>, k: nat)
    requires k < |accepted|
  {
    SumOf(SentOn(accepted[k].source, Day(accepted[k].now)), accepted[..k + 1]) <= accepted[k].limit
  }

  ghost predicate WithinLimits(accepted: seq<Accepted>) {
    forall k: nat | k < |accepted| :: WithinLimit(accepted, k)
  }

  lemma SameBefore(accepted: seq<Accepted>, entry: Accepted, k: nat)
    requires k < |accepted|
    ensures WithinLimit(accepted + [entry], k) <==> WithinLimit(accepted, k)
  {
    assert (accepted + [entry])[..k + 1] == accepted[..k + 1];
  }

  lemma {:induction false} LastWithin(accepted: seq<Accepted>, entry: Accepted)
    ensures WithinLimit(accepted + [entry], |accepted|)
            <==> SumOf(SentOn(entry.source, Day(entry.now)), accepted) + entry.amount <= entry.limit
  {
    SumPush(SentOn(entry.source, Day(entry.now)), accepted, entry);
    assert (accepted + [entry])[..|accepted| + 1] == accepted + [entry];
  }

  lemma {:induction false} WithinLimitsPush(accepted: seq<Accepted>, entry: Accepted)
    requires WithinLimits(accepted)
    ensures WithinLimits(accepted + [entry])
            <==> SumOf(SentOn(entry.source, Day(entry.now)), accepted) + entry.amount <= entry.limit
  {
    LastWithin(accepted, entry);
    forall k: nat | k < |accepted| ensures WithinLimit(accepted + [entry], k) {
      SameBefore(accepted, entry, k);
    }
  }

  /** One step with true counters: the cap is exceeded exactly by reopening a day with more than its rest. */
  lemma StepKeepsCap(t: HookHistory, op: HookOp)
    requires CountersTrue(t) && WithinLimits(t.accepted) && Step(t.hook, op).Ok?
    ensures WithinLimits(Next(t, op).accepted)
            <==> !(Reopens(t, op) && SentThen(t, op.source, Day(op.now)) + op.amount > t.hook.dailyLimit)
  {
    if op.Transfer? {
      TransferMoves(t, op);
      assert CounterTrue(t, op.source);
      WithinLimitsPush(t.accepted, Accepted(op.source, op.amount, op.now, t.hook.dailyLimit));
    }
  }

  /** One transfer after any history, reopened days included: it keeps the cap if and only if the whole of what the
      account has then sent that day is within the limit, whatever its counter says. */
  lemma TransferKeepsCap(t: HookHistory, op: HookOp)
    requires op.Transfer? && Step(t.hook, op).Ok? && WithinLimits(t.accepted)
    ensures WithinLimits(Next(t, op).accepted)
            <==> SentThen(t, op.source, Day(op.now)) + op.amount <= t.hook.dailyLimit
  {
    TransferMoves(t, op);
    WithinLimitsPush(t.accepted, Accepted(op.source, op.amount, op.now, t.hook.dailyLimit));
  }

  // No counter exceeds what its account has sent on the day the profile records.
  ghost predicate NoneOverstates(t: HookHistory) {
    forall s | s in t.hook.profiles :: Understates(t, s)
  }

  ghost predicate Understates(t: HookHistory, source: Pubkey)
    requires source in t.hook.profiles
  {
    t.hook.profiles[source].transferredToday <= SentThen(t, source, t.hook.profiles[source].currentDay)
  }

  lemma StepNeverOverstates(t: HookHistory, op: HookOp)
    requires NoneOverstates(t) && Step(t.hook, op).Ok?
    ensures NoneOverstates(Next(t, op))
  {
    var t' := Next(t, op);
    forall s | s in t'.hook.profiles ensures Understates(t', s) {
      if op.Transfer? {
        TransferMoves(t, op);
        assert Understates(t, s);
        SumPush(SentOn(s, t'.hook.profiles[s].currentDay), t.accepted,
                Accepted(op.source, op.amount, op.now, t.hook.dailyLimit));
      } else if s in t.hook.profiles {
        assert Understates(t, s);
      }
    }
  }

  /** Over every run, whatever the clock does, a counter never shows more than its account has sent that day. */
  lemma {:induction false} NeverOverstates(start: Hook, ops: seq<HookOp>)
    requires start.profiles == map[]
    ensures NoneOverstates(RunHook(start, ops))
  {
    if ops != [] {
      var init, op := ops[..|ops| - 1], ops[|ops| - 1];
      NeverOverstates(start, init);
      if Step(RunHook(start, init).hook, op).Ok? {
        StepNeverOverstates(RunHook(start, init), op);
      }
    }
  }

  /** So over every run a daily-limit refusal is always justified by what the account has really sent that day. */
  lemma {:induction false} DailyRefusalIsJustified(start: Hook, ops: seq<HookOp>, op: HookOp)
    requires start.profiles == map[] && op.Transfer?
    requires Step(RunHook(start, ops).hook, op) == Err(DailyLimitExceeded)
    ensures var t := RunHook(start, ops);
            SentThen(t, op.source, Day(op.now)) + op.amount > t.hook.dailyLimit
  {
    NeverOverstates(start, ops);
    assert Understates(RunHook(start, ops), op.source);
  }

  /** Any run that reopens no day keeps every day's total within the limit in force at each acceptance. */
  lemma {:induction false} CapHolds(start: Hook, ops: seq<HookOp>)
    requires start.profiles == map[] && NeverReopens(start, ops)
    ensures WithinLimits(RunHook(start, ops).accepted)
  {
    if ops != [] {
      var init, op := ops[..|ops| - 1], ops[|ops| - 1];
      CapHolds(start, init);
      CountersTrueUntilReopened(start, init);
      var t := RunHook(start, init);
      assert CountersTrue(t);
      if Step(t.hook, op).Ok? {
        StepKeepsCap(t, op);
      }
    }
  }

  /** When a transfer goes through, in terms of the whole history: the switches and profiles allow it, and the amount
      together with everything the account has already sent that day is within the limit in force. */
  lemma {:induction false} AcceptedExactly(start: Hook, ops: seq<HookOp>, op: HookOp)
    requires start.profiles == map[] && NeverReopens(start, ops)
    requires op.Transfer? && !Reopens(RunHook(start, ops), op)
    ensures var t := RunHook(start, ops);
            var h := t.hook;
            Step(h, op).Ok? <==>
              && !h.paused && op.amount <= h.maxTransfer
              && op.source in h.profiles && op.destination in h.profiles
              && h.profiles[op.source].allowlisted && !h.profiles[op.source].blocked
              && h.profiles[op.source].issuerActive
              && h.profiles[op.destination].allowlisted && !h.profiles[op.destination].blocked
              && SentThen(t, op.source, Day(op.now)) + op.amount <= h.dailyLimit
  {
    CountersTrueUntilReopened(start, ops);
    var t := RunHook(start, ops);
    assert CountersTrue(t);
    if op.source in t.hook.profiles {
      assert CounterTrue(t, op.source);
    }
  }

  // Transfers come with a clock that never goes back.
  predicate ClockRuns(ops: seq<HookOp>) {
    forall i, j | 0 <= i < j < |ops| && ops[i].Transfer? && ops[j].Transfer? :: ops[i].now <= ops[j].now
  }

  ghost predicate LastDay(ops: seq<HookOp>, day: I64) {
    forall i | 0 <= i < |ops| && ops[i].Transfer? :: Day(ops[i].now) <= day
  }

  lemma DayIsMonotone(s: I64, t: I64)
    requires s <= t
    ensures Day(s) <= Day(t)
  {
  }

  lemma ClockBefore(ops: seq<HookOp>, op: HookOp)
    requires op.Transfer? && ClockRuns(ops + [op])
    ensures ClockRuns(ops) && LastDay(ops, Day(op.now))
  {
    var all := ops + [op];
    assert forall i | 0 <= i < |ops| :: ops[i] == all[i];
    forall i | 0 <= i < |ops| && ops[i].Transfer? ensures Day(ops[i].now) <= Day(op.now) {
      assert all[i].now <= all[|ops|].now;
      DayIsMonotone(ops[i].now, op.now);
    }
  }

  // No account has sent anything later than the day its profile records, nor is that day still to come.
  ghost predicate DaysOrdered(t: HookHistory, day: I64) {
    forall a | a in t.accepted ::
      a.source in t.hook.profiles && Day(a.now) <= t.hook.profiles[a.source].currentDay <= day
  }

  lemma OrderedDaysStayClosed(t: HookHistory, op: HookOp)
    requires op.Transfer? && DaysOrdered(t, Day(op.now))
    ensures !Reopens(t, op)
  {
    if Reopens(t, op) {
      SumZero(SentOn(op.source, Day(op.now)), t.accepted);
    }
  }

  lemma StepKeepsDays(t: HookHistory, op: HookOp, day: I64)
    requires DaysOrdered(t, day) && Step(t.hook, op).Ok? && (op.Transfer? ==> Day(op.now) == day)
    ensures DaysOrdered(Next(t, op), day)
  {
    if op.Transfer? {
      TransferMoves(t, op);
    }
  }

  lemma {:induction false} ClockKeepsDays(start: Hook, ops: seq<HookOp>, day: I64)
    requires start.profiles == map[] && ClockRuns(ops) && LastDay(ops, day)
    ensures DaysOrdered(RunHook(start, ops), day)
  {
    if ops != [] {
      var init, op := ops[..|ops| - 1], ops[|ops| - 1];
      assert ops == init + [op];
      var today := if op.Transfer? then Day(op.now) else day;
      if op.Transfer? {
        ClockBefore(init, op);
      }
      ClockKeepsDays(start, init, today);
      if Step(RunHook(start, init).hook, op).Ok? {
        StepKeepsDays(RunHook(start, init), op, today);
      }
    }
  }

  lemma {:induction false} ClockNeverReopens(start: Hook, ops: seq<HookOp>)
    requires start.profiles == map[] && ClockRuns(ops)
    ensures NeverReopens(start, ops)
  {
    if ops != [] {
      var init, op := ops[..|ops| - 1], ops[|ops| - 1];
      assert ops == init + [op];
      ClockNeverReopens(start, init);
      if op.Transfer? {
        ClockBefore(init, op);
        ClockKeepsDays(start, init, Day(op.now));
        OrderedDaysStayClosed(RunHook(start, init), op);
      }
    }
  }

  /** Over every run with a clock that never goes back: a counter is exactly what its account sent on its current day,
      and every acceptance kept that day's total within the limit then in force, however limits and profiles changed. */
  lemma {:induction false} DailyCapHolds(start: Hook, ops: seq<HookOp>)
    requires start.profiles == map[] && ClockRuns(ops)
    ensures AlwaysCounted(start, ops)
    ensures WithinLimits(RunHook(start, ops).accepted)
  {
    ClockNeverReopens(start, ops);
    CountersTrueUntilReopened(start, ops);
    CapHolds(start, ops);
  }

  // Two profiles are set up, and one account sends on day 1, on day 2, and on day 1 again.
  function SetUp(admin: Pubkey, a: Pubkey, b: Pubkey): seq<HookOp> {
    [SetProfile(admin, a, true, false, true)] + [SetProfile(admin, b, true, false, true)]
  }

  function BackInTime(admin: Pubkey, a: Pubkey, b: Pubkey): seq<HookOp> {
    SetUp(admin, a, b) + [Transfer(a, b, 60, 86400)] + [Transfer(a, b, 10, 172800)] + [Transfer(a, b, 60, 86400)]
  }

  predicate MaySend(h: Hook, a: Pubkey, b: Pubkey) {
    && !h.paused && h.maxTransfer >= 60 && h.dailyLimit == 100
    && a in h.profiles && b in h.profiles
    && h.profiles[a] == Profile(true, false, true, 0, 0)
    && CheckProfiles(h.profiles[a], h.profiles[b]).Ok?
  }

  lemma {:induction false} SetUpAllows(admin: Pubkey, a: Pubkey, b: Pubkey)
    requires a != b
    ensures var t := RunHook(Hook(admin, 100, 100, false, map[]), SetUp(admin, a, b));
            t.accepted == [] && MaySend(t.hook, a, b)
  {
    var start, ops := Hook(admin, 100, 100, false, map[]), SetUp(admin, a, b);
    RunHookPush(start, [], ops[0]);
    RunHookPush(start, [ops[0]], ops[1]);
    assert [] + [ops[0]] == [ops[0]];
  }

  lemma SendsThreeTimes(h: Hook, a: Pubkey, b: Pubkey)
    requires MaySend(h, a, b)
    ensures var t1 := Next(HookHistory(h, []), Transfer(a, b, 60, 86400));
            var t2 := Next(t1, Transfer(a, b, 10, 172800));
            var t3 := Next(t2, Transfer(a, b, 60, 86400));
            t3.accepted
            == [Accepted(a, 60, 86400, 100)] + [Accepted(a, 10, 172800, 100)] + [Accepted(a, 60, 86400, 100)]
  {
    var t1 := Next(HookHistory(h, []), Transfer(a, b, 60, 86400));
    assert t1.accepted == [Accepted(a, 60, 86400, 100)] && t1.hook.profiles[a] == Profile(true, false, true, 60, 1);
    var t2 := Next(t1, Transfer(a, b, 10, 172800));
    assert t2.accepted == t1.accepted + [Accepted(a, 10, 172800, 100)];
    assert t2.hook.profiles[a] == Profile(true, false, true, 10, 2);
  }

  lemma {:induction false} TwiceOnOneDay(a: Pubkey)
    ensures var all := [Accepted(a, 60, 86400, 100)] + [Accepted(a, 10, 172800, 100)] + [Accepted(a, 60, 86400, 100)];
            SumOf(SentOn(a, 1), all) == 120 && !WithinLimits(all)
  {
    var first, second := Accepted(a, 60, 86400, 100), Accepted(a, 10, 172800, 100);
    var all := [first] + [second] + [first];
    SumPush(SentOn(a, 1), [first], second);
    SumPush(SentOn(a, 1), [first] + [second], first);
    assert all[..3] == all && all[2] == first;
    assert !WithinLimit(all, 2);
  }

  /** A run that reopens a day, from a newly initialised hook: a clock that goes back opens day 1 again, and the account
      sends 120 that day under a limit of 100. */
  lemma {:induction false} ReopenedDayBreaksCap(admin: Pubkey, a: Pubkey, b: Pubkey)
    requires a != b
    ensures var start, ops := Hook(admin, 100, 100, false, map[]), BackInTime(admin, a, b);
            && !WithinLimits(RunHook(start, ops).accepted)
            && SentThen(RunHook(start, ops), a, 1) == 120
            && !NeverReopens(start, ops)
  {
    var start, s := Hook(admin, 100, 100, false, map[]), SetUp(admin, a, b);
    var x, y := Transfer(a, b, 60, 86400), Transfer(a, b, 10, 172800);
    SetUpAllows(admin, a, b);
    RunHookPush(start, s, x);
    RunHookPush(start, s + [x], y);
    RunHookPush(start, s + [x] + [y], x);
    SendsThreeTimes(RunHook(start, s).hook, a, b);
    TwiceOnOneDay(a);
    if NeverReopens(start, BackInTime(admin, a, b)) {
      CapHolds(start, BackInTime(admin, a, b));
    }
  }

  /** The program's accounts, updated in place. */
  class ComplianceHook {
    const admin: Pubkey
    var maxTransfer: U64
    var dailyLimit: U64
    var paused: bool
    var profiles: map<Pubkey, Profile>

    function View(): Hook
      reads this
    {
      Hook(admin, maxTransfer, dailyLimit, paused, profiles)
    }

    // The model's new state, or the model's error and no change.
    ghost predicate Did(was: Hook, op: HookOp, r: Result<(), HookError>)
      reads this
    {
      match Step(was, op)
      case Ok(h) => r == Ok(()) && View() == h
      case Err(e) => r == Err(e) && View() == was
    }

    constructor (admin: Pubkey, maxTransfer: U64, dailyLimit: U64)
      ensures View() == Hook(admin, maxTransfer, dailyLimit, false, map[])
    {
      this.admin, this.maxTransfer, this.dailyLimit, paused, profiles := admin, maxTransfer, dailyLimit, false, map[];
    }

    static method Initialize(admin: Pubkey, maxTransfer: U64, dailyLimit: U64)
      returns (r: Result<ComplianceHook, HookError>)
      ensures maxTransfer == 0 || dailyLimit == 0 ==> r == Err(InvalidTransferLimit)
      ensures maxTransfer > 0 && dailyLimit > 0 ==>
                r.Ok? && fresh(r.value) && r.value.View() == Hook(admin, maxTransfer, dailyLimit, false, map[])
    {
      if maxTransfer == 0 || dailyLimit == 0 {
        return Err(InvalidTransferLimit);
      }
      var hook := new ComplianceHook(admin, maxTransfer, dailyLimit);
      r := Ok(hook);
    }

    method Execute(source: Pubkey, destination: Pubkey, amount: U64, now: I64) returns (r: Result<(), HookError>)
      modifies this
      ensures Did(old(View()), Transfer(source, destination, amount, now), r)
    {
      if paused {
        return Err(ProtocolPaused);
      }
      if amount > maxTransfer {
        return Err(TransferLimitExceeded);
      }
      if source !in profiles || destination !in profiles {
        return Err(InvalidTransferHookAccounts);
      }
      var profile := profiles[source];
      var _ :- CheckProfiles(profile, profiles[destination]);
      var day := Day(now);
      if profile.currentDay != day {
        profile := profile.(currentDay := day, transferredToday := 0);
      }
      var total := profile.transferredToday + amount;
      if total >= TWO_64 || total > dailyLimit {
        return Err(DailyLimitExceeded);
      }
      profile := profile.(transferredToday := total);
      profiles := profiles[source := profile];
      r := Ok(());
    }

    method SetUserCompliance(caller: Pubkey, user: Pubkey, allowlisted: bool, blocked: bool, issuerActive: bool)
      returns (r: Result<(), HookError>)
      modifies this
      ensures Did(old(View()), SetProfile(caller, user, allowlisted, blocked, issuerActive), r)
    {
      if caller != admin {
        return Err(UnauthorizedAdmin);
      }
      var profile := if user in profiles then profiles[user] else Profile(false, false, false, 0, 0);
      profile := profile.(allowlisted := allowlisted, blocked := blocked, issuerActive := issuerActive);
      profiles := profiles[user := profile];
      r := Ok(());
    }

    method SetTransferLimits(caller: Pubkey, maxTransfer: U64, dailyLimit: U64) returns (r: Result<(), HookError>)
      modifies this
      ensures Did(old(View()), SetLimits(caller, maxTransfer, dailyLimit), r)
    {
      if caller != admin {
        return Err(UnauthorizedAdmin);
      }
      if maxTransfer == 0 || dailyLimit == 0 {
        return Err(InvalidTransferLimit);
      }
      this.maxTransfer := maxTransfer;
      this.dailyLimit := dailyLimit;
      r := Ok(());
    }

    method SetProtocolPaused(caller: Pubkey, paused: bool) returns (r: Result<(), HookError>)
      modifies this
      ensures Did(old(View()), SetPaused(caller, paused), r)
    {
      if caller != admin {
        return Err(UnauthorizedAdmin);
      }
      this.paused := paused;
      r := Ok(());
    }
  }
}
