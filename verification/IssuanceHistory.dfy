/** The supply ledger told from outside: every position is what the successful instructions made of it. */
module IssuanceHistory {
  import opened Types
  import opened Issuance
  import opened Sums

  // The instructions of a run that went through.
  function Done(start: Protocol, ops: seq<IssuanceOp>): seq<IssuanceOp> {
    if ops == [] then []
    else
      var init, op := ops[..|ops| - 1], ops[|ops| - 1];
      if Step(RunIssuance(start, init), op).Ok? then Done(start, init) + [op] else Done(start, init)
  }

  function AmountMinted(): IssuanceOp -> nat {
    (op: IssuanceOp) => if op.Mint? then op.amount else 0
  }

  function AmountBurned(): IssuanceOp -> nat {
    (op: IssuanceOp) => if op.Burn? then op.amount else 0
  }

  datatype Position = Position(limit: nat, paused: bool, minted: nat, burned: nat)

  // What became of one key: registered, switched, rotated away or made a successor, minting and burning.
  function PositionTold(done: seq<IssuanceOp>, key: Pubkey): Option<Position> {
    if done == [] then None
    else
      var before, op := done[..|done| - 1], done[|done| - 1];
      if op.Rotate? && op.successor == key then PositionTold(before, op.current)
      else if op.Register? && op.issuer == key then Some(Position(op.limit, false, 0, 0))
      else
        match PositionTold(before, key)
        case None => None
        case Some(x) => Some(Moved(x, key, op))
  }

  function Moved(x: Position, key: Pubkey, op: IssuanceOp): Position {
    match op
    case SetPaused(_, k, paused) => if k == key then x.(paused := paused) else x
    case Rotate(_, k, _) => if k == key then x.(limit := 0, paused := true) else x
    case Mint(k, amount, _) => if k == key then x.(minted := x.minted + amount) else x
    case Burn(k, amount, _) => if k == key then x.(burned := x.burned + amount) else x
    case Register(_, _, _) => x
  }

  function PositionOf(i: Issuer): Position {
    Position(i.limit, i.paused, i.minted, i.burned)
  }

  ghost predicate IssuerTold(p: Protocol, done: seq<IssuanceOp>, key: Pubkey) {
    && PositionTold(done, key) == (if key in p.issuers then Some(PositionOf(p.issuers[key])) else None)
    && (key in p.issuers ==> p.issuers[key].minted == p.issuers[key].outstanding + p.issuers[key].burned)
  }

  // Cap and totals are what the instructions say.
  ghost predicate TotalsTold(start: Protocol, p: Protocol, done: seq<IssuanceOp>) {
    && p.admin == start.admin && p.cap == start.cap && p.paused == start.paused
    && p.minted == start.minted + SumOf(AmountMinted(), done)
    && p.burned == start.burned + SumOf(AmountBurned(), done)
    && p.supply == start.supply + SumOf(AmountMinted(), done) - SumOf(AmountBurned(), done)
  }

  // So are all positions, and only the admin registers, switches and rotates.
  ghost predicate ProtocolTold(start: Protocol, p: Protocol, done: seq<IssuanceOp>) {
    && TotalsTold(start, p, done)
    && (forall key :: IssuerTold(p, done, key))
    && (forall i | 0 <= i < |done| && (done[i].Register? || done[i].SetPaused? || done[i].Rotate?) ::
          done[i].caller == start.admin)
  }

  lemma {:induction false} PositionPush(done: seq<IssuanceOp>, op: IssuanceOp, key: Pubkey)
    ensures PositionTold(done + [op], key) ==
            if op.Rotate? && op.successor == key then PositionTold(done, op.current)
            else if op.Register? && op.issuer == key then Some(Position(op.limit, false, 0, 0))
            else match PositionTold(done, key) case None => None case Some(x) => Some(Moved(x, key, op))
  {
    assert (done + [op])[..|done|] == done;
  }

  lemma StepKeepsIssuerTold(p: Protocol, done: seq<IssuanceOp>, op: IssuanceOp, key: Pubkey)
    requires Step(p, op).Ok? && IssuerTold(p, done, key)
    requires op.Rotate? ==> IssuerTold(p, done, op.current)
    ensures IssuerTold(Step(p, op).value, done + [op], key)
  {
    PositionPush(done, op, key);
  }

  lemma {:induction false} StepKeepsTotals(start: Protocol, p: Protocol, done: seq<IssuanceOp>, op: IssuanceOp)
    requires TotalsTold(start, p, done) && Step(p, op).Ok?
    ensures TotalsTold(start, Step(p, op).value, done + [op])
  {
    SumPush(AmountMinted(), done, op);
    SumPush(AmountBurned(), done, op);
  }

  lemma {:induction false} StepKeepsTold(start: Protocol, p: Protocol, done: seq<IssuanceOp>, op: IssuanceOp)
    requires ProtocolTold(start, p, done) && Step(p, op).Ok?
    ensures ProtocolTold(start, Step(p, op).value, done + [op])
  {
    StepKeepsTotals(start, p, done, op);
    forall key ensures IssuerTold(Step(p, op).value, done + [op], key) {
      assert IssuerTold(p, done, key);
      if op.Rotate? {
        assert IssuerTold(p, done, op.current);
      }
      StepKeepsIssuerTold(p, done, op, key);
    }
  }

  /** Over every run, with any rotations and retired authorities in it: minted, burned and supply are what the
      successful mints and burns add up to; each key's limit, switch and statistics are its own history, begun where its
      predecessor left off; and only the admin ever registered, switched or rotated. */
  lemma {:induction false} HistoryIsTold(admin: Pubkey, cap: U64, ops: seq<IssuanceOp>)
    ensures ProtocolTold(NewProtocol(admin, cap), RunIssuance(NewProtocol(admin, cap), ops),
                         Done(NewProtocol(admin, cap), ops))
  {
    var start := NewProtocol(admin, cap);
    if ops != [] {
      var init, op := ops[..|ops| - 1], ops[|ops| - 1];
      HistoryIsTold(admin, cap, init);
      if Step(RunIssuance(start, init), op).Ok? {
        StepKeepsTold(start, RunIssuance(start, init), Done(start, init), op);
      }
    }
  }

  // When an instruction goes through.
  predicate Allowed(p: Protocol, op: IssuanceOp) {
    match op
    case Register(caller, key, limit) => caller == p.admin && key !in p.issuers && limit > 0
    case SetPaused(caller, key, _) => caller == p.admin && key in p.issuers
    case Rotate(caller, current, successor) =>
      caller == p.admin && current in p.issuers && successor !in p.issuers
    case Mint(key, amount, tokenOk) =>
      && tokenOk && !p.paused && key in p.issuers && !p.issuers[key].paused
      && p.issuers[key].outstanding + amount <= p.issuers[key].limit
      && p.supply + amount <= p.cap && p.minted + amount < TWO_64
    case Burn(key, amount, tokenOk) =>
      && tokenOk && !p.paused && key in p.issuers && !p.issuers[key].paused
      && amount <= p.issuers[key].outstanding && amount <= p.supply
  }

  /** On a balanced ledger an instruction goes through exactly when its caller may ask for it: no statistics counter
      ever stands in the way of a mint within limit, cap and range, or of a burn of what is outstanding. */
  lemma StepExactly(p: Protocol, op: IssuanceOp)
    requires Balanced(p)
    ensures Step(p, op).Ok? <==> Allowed(p, op)
  {
    if op.Mint? && op.issuer in p.issuers && p.issuers[op.issuer].limit > 0 {
      SumMapAtLeastOne(ActiveMinted(), p.issuers, op.issuer);
    }
  }

  // What an error says about the instruction that got it.
  predicate Explains(p: Protocol, op: IssuanceOp, e: IssuanceError) {
    match e
    case UnauthorizedAdmin => (op.Register? || op.SetPaused? || op.Rotate?) && op.caller != p.admin
    case AccountNotInitialized =>
      if op.Rotate? then op.current !in p.issuers else !op.Register? && op.issuer !in p.issuers
    case AccountAlreadyInUse =>
      if op.Rotate? then op.successor in p.issuers else op.Register? && op.issuer in p.issuers
    case InvalidIssuerMintLimit => op.Register? && op.limit == 0
    case ProtocolPaused => (op.Mint? || op.Burn?) && p.paused
    case IssuerPaused => (op.Mint? || op.Burn?) && op.issuer in p.issuers && p.issuers[op.issuer].paused
    case IssuerLimitExceeded =>
      && op.Mint? && op.issuer in p.issuers
      && (|| p.issuers[op.issuer].outstanding + op.amount > p.issuers[op.issuer].limit
          || p.issuers[op.issuer].minted + op.amount >= TWO_64)
    case GlobalSupplyCapExceeded => op.Mint? && (p.supply + op.amount > p.cap || p.minted + op.amount >= TWO_64)
    case BurnAmountExceedsOutstanding =>
      && op.Burn? && op.issuer in p.issuers
      && (op.amount > p.issuers[op.issuer].outstanding || op.amount > p.supply)
    case TokenProgramFailed => (op.Mint? || op.Burn?) && !op.tokenOk
    case InvalidGlobalSupplyCap => false
  }

  /** No error lies: what it complains about is really wrong with the instruction. */
  lemma ErrorsAreTrue(p: Protocol, op: IssuanceOp)
    requires Balanced(p) && Step(p, op).Err?
    ensures Explains(p, op, Step(p, op).error)
  {
    if op.Mint? && op.issuer in p.issuers && p.issuers[op.issuer].limit > 0 {
      SumMapAtLeastOne(ActiveMinted(), p.issuers, op.issuer);
    }
  }
}
