/** The multi-issuer supply ledger: limits, pause switches and rotation of issuer authorities. */
module Issuance {
  import opened Types
  import opened Sums

  datatype IssuanceError =
    | UnauthorizedAdmin
    | AccountNotInitialized
    | AccountAlreadyInUse
    | ProtocolPaused
    | IssuerPaused
    | IssuerLimitExceeded
    | GlobalSupplyCapExceeded
    | InvalidGlobalSupplyCap
    | InvalidIssuerMintLimit
    | BurnAmountExceedsOutstanding
    | TokenProgramFailed

  // The configuration and the statistics of one authority.
  datatype Issuer = Issuer(limit: U64, paused: bool, outstanding: U64, minted: U64, burned: U64)

  datatype Protocol = Protocol(
    admin: Pubkey,
    cap: U64,
    paused: bool,
    supply: U64,
    minted: U64,
    burned: U64,
    issuers: map<Pubkey, Issuer>)

  function NewProtocol(admin: Pubkey, cap: U64): Protocol {
    Protocol(admin, cap, false, 0, 0, 0, map[])
  }

  // `tokenOk` says whether the token program carries out its part.
  datatype IssuanceOp =
    | Register(caller: Pubkey, issuer: Pubkey, limit: U64)
    | SetPaused(caller: Pubkey, issuer: Pubkey, paused: bool)
    | Rotate(caller: Pubkey, current: Pubkey, successor: Pubkey)
    | Mint(issuer: Pubkey, amount: U64, tokenOk: bool)
    | Burn(issuer: Pubkey, amount: U64, tokenOk: bool)

  function WithIssuer(p: Protocol, key: Pubkey, i: Issuer): Protocol {
    p.(issuers := p.issuers[key := i])
  }

  // The successor takes over limit, switch and statistics; the old authority keeps its statistics but no limit.
  function Rotated(p: Protocol, current: Pubkey, successor: Pubkey): Protocol
    requires current in p.issuers
  {
    var i := p.issuers[current];
    p.(issuers := p.issuers[successor := i][current := i.(limit := 0, paused := true)])
  }

  function MintBy(p: Protocol, key: Pubkey, amount: U64, tokenOk: bool): Result<Protocol, IssuanceError>
    requires key in p.issuers
  {
    var i := p.issuers[key];
    if p.paused then Err(ProtocolPaused)
    else if i.paused then Err(IssuerPaused)
    else if i.outstanding + amount >= TWO_64 || i.outstanding + amount > i.limit then Err(IssuerLimitExceeded)
    else if p.supply + amount >= TWO_64 || p.supply + amount > p.cap then Err(GlobalSupplyCapExceeded)
    else if !tokenOk then Err(TokenProgramFailed)
    else if i.minted + amount >= TWO_64 then Err(IssuerLimitExceeded)
    else if p.minted + amount >= TWO_64 then Err(GlobalSupplyCapExceeded)
    else Ok(WithIssuer(p, key, i.(outstanding := i.outstanding + amount, minted := i.minted + amount))
              .(supply := p.supply + amount, minted := p.minted + amount))
  }

  function BurnBy(p: Protocol, key: Pubkey, amount: U64, tokenOk: bool): Result<Protocol, IssuanceError>
    requires key in p.issuers
  {
    var i := p.issuers[key];
    if p.paused then Err(ProtocolPaused)
    else if i.paused then Err(IssuerPaused)
    else if amount > i.outstanding || amount > p.supply then Err(BurnAmountExceedsOutstanding)
    else if !tokenOk then Err(TokenProgramFailed)
    else if i.burned + amount >= TWO_64 || p.burned + amount >= TWO_64 then Err(BurnAmountExceedsOutstanding)
    else Ok(WithIssuer(p, key, i.(outstanding := i.outstanding - amount, burned := i.burned + amount))
              .(supply := p.supply - amount, burned := p.burned + amount))
  }

  function Step(p: Protocol, op: IssuanceOp): Result<Protocol, IssuanceError> {
    match op
    case Register(caller, key, limit) =>
      if caller != p.admin then Err(UnauthorizedAdmin)
      else if key in p.issuers then Err(AccountAlreadyInUse)
      else if limit == 0 then Err(InvalidIssuerMintLimit)
      else Ok(WithIssuer(p, key, Issuer(limit, false, 0, 0, 0)))
    case SetPaused(caller, key, paused) =>
      if caller != p.admin then Err(UnauthorizedAdmin)
      else if key !in p.issuers then Err(AccountNotInitialized)
      else Ok(WithIssuer(p, key, p.issuers[key].(paused := paused)))
    case Rotate(caller, current, successor) =>
      if caller != p.admin then Err(UnauthorizedAdmin)
      else if current !in p.issuers then Err(AccountNotInitialized)
      else if successor in p.issuers then Err(AccountAlreadyInUse)
      else Ok(Rotated(p, current, successor))
    case Mint(key, amount, tokenOk) =>
      if key !in p.issuers then Err(AccountNotInitialized) else MintBy(p, key, amount, tokenOk)
    case Burn(key, amount, tokenOk) =>
      if key !in p.issuers then Err(AccountNotInitialized) else BurnBy(p, key, amount, tokenOk)
  }

  // A failed instruction is rolled back.
  function After(p: Protocol, op: IssuanceOp): Protocol {
    match Step(p, op)
    case Ok(p') => p'
    case Err(_) => p
  }

  function RunIssuance(start: Protocol, ops: seq<IssuanceOp>): Protocol {
    if ops == [] then start else After(RunIssuance(start, ops[..|ops| - 1]), ops[|ops| - 1])
  }

  // An authority with a zero limit has been rotated away; its statistics live on with its successor.
  function ActiveOutstanding(): Issuer -> nat {
    (i: Issuer) => if i.limit > 0 then i.outstanding else 0
  }

  function ActiveMinted(): Issuer -> nat {
    (i: Issuer) => if i.limit > 0 then i.minted else 0
  }

  function ActiveBurned(): Issuer -> nat {
    (i: Issuer) => if i.limit > 0 then i.burned else 0
  }

  // Every issuer accounts for its own tokens, and active ones stay within their limit.
  ghost predicate IssuersFit(p: Protocol) {
    && (forall k | k in p.issuers && p.issuers[k].limit > 0 :: p.issuers[k].outstanding <= p.issuers[k].limit)
    && (forall k | k in p.issuers :: p.issuers[k].minted == p.issuers[k].outstanding + p.issuers[k].burned)
  }

  // The global counters agree with each other, with the cap and with the active issuers.
  ghost predicate Balanced(p: Protocol) {
    && p.minted == p.supply + p.burned
    && p.supply <= p.cap
    && p.supply == SumMap(ActiveOutstanding(), p.issuers)
    && p.minted == SumMap(ActiveMinted(), p.issuers)
    && p.burned == SumMap(ActiveBurned(), p.issuers)
    && IssuersFit(p)
  }

  ghost predicate RetiredArePaused(p: Protocol) {
    forall k | k in p.issuers && p.issuers[k].limit == 0 :: p.issuers[k].paused
  }

  predicate UnpausesRetired(p: Protocol, op: IssuanceOp) {
    op.SetPaused? && !op.paused && op.issuer in p.issuers && p.issuers[op.issuer].limit == 0
  }

  predicate BurnsRetired(p: Protocol, op: IssuanceOp) {
    op.Burn? && op.amount > 0 && op.issuer in p.issuers && p.issuers[op.issuer].limit == 0
  }

  lemma WithIssuerSum(w: Issuer -> nat, p: Protocol, key: Pubkey, i: Issuer)
    ensures SumMap(w, WithIssuer(p, key, i).issuers)
            == SumMap(w, p.issuers) - (if key in p.issuers then w(p.issuers[key]) else 0) + w(i)
  {
    SumMapUpdate(w, p.issuers, key, i);
  }

  lemma WithIssuerSums(p: Protocol, key: Pubkey, i: Issuer)
    ensures var now := WithIssuer(p, key, i).issuers;
            var was := if key in p.issuers then p.issuers[key] else Issuer(0, false, 0, 0, 0);
            && SumMap(ActiveOutstanding(), now)
               == SumMap(ActiveOutstanding(), p.issuers) - ActiveOutstanding()(was) + ActiveOutstanding()(i)
            && SumMap(ActiveMinted(), now)
               == SumMap(ActiveMinted(), p.issuers) - ActiveMinted()(was) + ActiveMinted()(i)
            && SumMap(ActiveBurned(), now)
               == SumMap(ActiveBurned(), p.issuers) - ActiveBurned()(was) + ActiveBurned()(i)
  {
    WithIssuerSum(ActiveOutstanding(), p, key, i);
    WithIssuerSum(ActiveMinted(), p, key, i);
    WithIssuerSum(ActiveBurned(), p, key, i);
  }

  lemma RotationKeepsSum(w: Issuer -> nat, p: Protocol, current: Pubkey, successor: Pubkey)
    requires current in p.issuers && successor !in p.issuers
    requires forall i: Issuer | i.limit == 0 :: w(i) == 0
    ensures SumMap(w, Rotated(p, current, successor).issuers) == SumMap(w, p.issuers)
  {
    var i := p.issuers[current];
    SumMapUpdate(w, p.issuers, successor, i);
    SumMapUpdate(w, p.issuers[successor := i], current, i.(limit := 0, paused := true));
  }

  /** Rotation moves an issuer's whole position to the successor and leaves every total alone. */
  lemma RotationMovesPosition(p: Protocol, current: Pubkey, successor: Pubkey)
    requires current in p.issuers && successor !in p.issuers
    ensures var p' := Rotated(p, current, successor);
            && p'.issuers[successor] == p.issuers[current]
            && SumMap(ActiveOutstanding(), p'.issuers) == SumMap(ActiveOutstanding(), p.issuers)
            && (Balanced(p') <==> Balanced(p))
  {
    RotationKeepsSum(ActiveOutstanding(), p, current, successor);
    RotationKeepsSum(ActiveMinted(), p, current, successor);
    RotationKeepsSum(ActiveBurned(), p, current, successor);
    RotationKeepsFit(p, current, successor);
  }

  lemma RotationKeepsFit(p: Protocol, current: Pubkey, successor: Pubkey)
    requires current in p.issuers && successor !in p.issuers
    ensures IssuersFit(Rotated(p, current, successor)) <==> IssuersFit(p)
  {
    var p' := Rotated(p, current, successor);
    assert forall k | k in p.issuers && k != current :: k in p'.issuers && p'.issuers[k] == p.issuers[k];
    assert p'.issuers[successor] == p.issuers[current];
  }

  lemma MintKeepsBalanced(p: Protocol, key: Pubkey, amount: U64)
    requires Balanced(p) && key in p.issuers && MintBy(p, key, amount, true).Ok?
    ensures Balanced(MintBy(p, key, amount, true).value)
  {
    WithIssuerSums(p, key, MintBy(p, key, amount, true).value.issuers[key]);
  }

  lemma BurnKeepsBalanced(p: Protocol, key: Pubkey, amount: U64)
    requires Balanced(p) && key in p.issuers && BurnBy(p, key, amount, true).Ok?
    ensures Balanced(BurnBy(p, key, amount, true).value) <==> p.issuers[key].limit > 0 || amount == 0
  {
    WithIssuerSums(p, key, BurnBy(p, key, amount, true).value.issuers[key]);
  }

  lemma AdminKeepsBalanced(p: Protocol, op: IssuanceOp)
    requires Balanced(p) && Step(p, op).Ok? && (op.Register? || op.SetPaused?)
    ensures Balanced(Step(p, op).value)
  {
    WithIssuerSums(p, op.issuer, Step(p, op).value.issuers[op.issuer]);
  }

  /** One step: the ledger stays balanced exactly when the step is not a burn through a retired authority. */
  lemma StepKeepsBalanced(p: Protocol, op: IssuanceOp)
    requires Balanced(p) && Step(p, op).Ok?
    ensures Balanced(Step(p, op).value) <==> !BurnsRetired(p, op)
  {
    match op
    case Rotate(_, current, successor) => RotationMovesPosition(p, current, successor);
    case Mint(key, amount, _) => MintKeepsBalanced(p, key, amount);
    case Burn(key, amount, _) => BurnKeepsBalanced(p, key, amount);
    case _ => AdminKeepsBalanced(p, op);
  }

  lemma StepKeepsRetired(p: Protocol, op: IssuanceOp)
    requires RetiredArePaused(p) && Step(p, op).Ok?
    ensures !BurnsRetired(p, op)
    ensures RetiredArePaused(Step(p, op).value) <==> !UnpausesRetired(p, op)
  {
    if UnpausesRetired(p, op) {
      assert op.issuer in Step(p, op).value.issuers;
    }
  }

  lemma NewIsBalanced(admin: Pubkey, cap: U64)
    ensures Balanced(NewProtocol(admin, cap)) && RetiredArePaused(NewProtocol(admin, cap))
  {
  }

  // The state after every step of the run, the start included, is balanced.
  ghost predicate AlwaysBalanced(start: Protocol, ops: seq<IssuanceOp>) {
    && (ops != [] ==> AlwaysBalanced(start, ops[..|ops| - 1]))
    && Balanced(RunIssuance(start, ops))
  }

  // No successful step of the run burns through a retired authority.
  predicate NeverBurnsRetired(start: Protocol, ops: seq<IssuanceOp>) {
    ops != [] ==>
      && NeverBurnsRetired(start, ops[..|ops| - 1])
      && var p, op := RunIssuance(start, ops[..|ops| - 1]), ops[|ops| - 1];
         !(Step(p, op).Ok? && BurnsRetired(p, op))
  }

  // No successful step of the run switches a retired authority back on.
  predicate NeverUnpausesRetired(start: Protocol, ops: seq<IssuanceOp>) {
    ops != [] ==>
      && NeverUnpausesRetired(start, ops[..|ops| - 1])
      && var p, op := RunIssuance(start, ops[..|ops| - 1]), ops[|ops| - 1];
         !(Step(p, op).Ok? && UnpausesRetired(p, op))
  }

  /** Over whole runs: every state is balanced exactly when no successful step burns through a retired authority. */
  lemma {:induction false} BalancedUntilRetiredBurn(start: Protocol, ops: seq<IssuanceOp>)
    requires Balanced(start)
    ensures AlwaysBalanced(start, ops) <==> NeverBurnsRetired(start, ops)
  {
    if ops != [] {
      var init, op := ops[..|ops| - 1], ops[|ops| - 1];
      BalancedUntilRetiredBurn(start, init);
      var p := RunIssuance(start, init);
      if AlwaysBalanced(start, init) && Step(p, op).Ok? {
        assert Balanced(p);
        StepKeepsBalanced(p, op);
      }
    }
  }

  /** The design's promise: a run that leaves retired authorities switched off, with any chain of rotations in it,
      keeps supply, limits and statistics in balance at every step. */
  lemma {:induction false} SupplyStaysBalanced(admin: Pubkey, cap: U64, ops: seq<IssuanceOp>)
    requires NeverUnpausesRetired(NewProtocol(admin, cap), ops)
    ensures AlwaysBalanced(NewProtocol(admin, cap), ops)
    ensures RetiredArePaused(RunIssuance(NewProtocol(admin, cap), ops))
  {
    var start := NewProtocol(admin, cap);
    NewIsBalanced(admin, cap);
    if ops != [] {
      var init, op := ops[..|ops| - 1], ops[|ops| - 1];
      SupplyStaysBalanced(admin, cap, init);
      var p := RunIssuance(start, init);
      assert Balanced(p);
      if Step(p, op).Ok? {
        StepKeepsRetired(p, op);
        StepKeepsBalanced(p, op);
      }
    }
  }

  /** On a balanced ledger an active issuer can burn whatever it has outstanding: no total stands in the way. */
  lemma BurnNeverStuck(p: Protocol, key: Pubkey, amount: U64)
    requires Balanced(p) && key in p.issuers && p.issuers[key].limit > 0
    requires !p.paused && !p.issuers[key].paused
    ensures BurnBy(p, key, amount, true).Ok? <==> amount <= p.issuers[key].outstanding
  {
    SumMapAtLeastOne(ActiveOutstanding(), p.issuers, key);
  }

  /** And it can mint exactly up to its limit, the cap, and the 64-bit range of everything ever minted. */
  lemma MintExactly(p: Protocol, key: Pubkey, amount: U64)
    requires Balanced(p) && key in p.issuers && p.issuers[key].limit > 0
    requires !p.paused && !p.issuers[key].paused
    ensures MintBy(p, key, amount, true).Ok? <==>
            && p.issuers[key].outstanding + amount <= p.issuers[key].limit
            && p.supply + amount <= p.cap
            && p.minted + amount < TWO_64
  {
    SumMapAtLeastOne(ActiveMinted(), p.issuers, key);
  }

  /** The promise fails without its premise: a retired authority that is switched back on burns its successor's tokens,
      and the successor can then no longer burn what it has outstanding. */
  lemma RetiredBurnBreaksSupply(admin: Pubkey, a: Pubkey, b: Pubkey)
    requires a != b
    ensures var ops := [Register(admin, a, 100), Mint(a, 50, true), Rotate(admin, a, b),
                        SetPaused(admin, a, false), Burn(a, 10, true)];
            var p := RunIssuance(NewProtocol(admin, 1000), ops);
            && !Balanced(p)
            && p.supply == 40 && b in p.issuers && p.issuers[b] == Issuer(100, false, 50, 50, 0)
            && Step(p, Burn(b, 50, true)) == Err(BurnAmountExceedsOutstanding)
  {
    var start := NewProtocol(admin, 1000);
    var ops := [Register(admin, a, 100), Mint(a, 50, true), Rotate(admin, a, b),
                SetPaused(admin, a, false), Burn(a, 10, true)];
    var p1 := RunFive(start, ops);
    SumMapAtLeastOne(ActiveOutstanding(), p1.issuers, b);
  }

  lemma RunFive(start: Protocol, ops: seq<IssuanceOp>) returns (p: Protocol)
    requires |ops| == 5
    ensures p == RunIssuance(start, ops)
    ensures p == After(After(After(After(After(start, ops[0]), ops[1]), ops[2]), ops[3]), ops[4])
  {
    assert ops[..4][..3] == ops[..3] && ops[..3][..2] == ops[..2] && ops[..2][..1] == ops[..1] && ops[..1][..0] == [];
    assert RunIssuance(start, ops[..1]) == After(start, ops[0]);
    assert RunIssuance(start, ops[..2]) == After(RunIssuance(start, ops[..1]), ops[1]);
    assert RunIssuance(start, ops[..3]) == After(RunIssuance(start, ops[..2]), ops[2]);
    assert RunIssuance(start, ops[..4]) == After(RunIssuance(start, ops[..3]), ops[3]);
    p := RunIssuance(start, ops);
  }

  /** The program's accounts, updated in place. */
  class ModularIssuer {
    const admin: Pubkey
    const cap: U64
    const paused: bool
    var supply: U64
    var minted: U64
    var burned: U64
    var issuers: map<Pubkey, Issuer>

    function View(): Protocol
      reads this
    {
      Protocol(admin, cap, paused, supply, minted, burned, issuers)
    }

    // The model's new state, or the model's error and no change.
    ghost predicate Did(was: Protocol, op: IssuanceOp, r: Result<(), IssuanceError>)
      reads this
    {
      match Step(was, op)
      case Ok(p) => r == Ok(()) && View() == p
      case Err(e) => r == Err(e) && View() == was
    }

    constructor (admin: Pubkey, cap: U64)
      ensures View() == NewProtocol(admin, cap)
    {
      this.admin, this.cap, paused := admin, cap, false;
      supply, minted, burned, issuers := 0, 0, 0, map[];
    }

    static method Initialize(admin: Pubkey, cap: U64) returns (r: Result<ModularIssuer, IssuanceError>)
      ensures cap == 0 ==> r == Err(InvalidGlobalSupplyCap)
      ensures cap > 0 ==> r.Ok? && fresh(r.value) && r.value.View() == NewProtocol(admin, cap)
    {
      if cap == 0 {
        return Err(InvalidGlobalSupplyCap);
      }
      var issuer := new ModularIssuer(admin, cap);
      r := Ok(issuer);
    }

    method RegisterIssuer(caller: Pubkey, key: Pubkey, limit: U64) returns (r: Result<(), IssuanceError>)
      modifies this
      ensures Did(old(View()), Register(caller, key, limit), r)
    {
      if caller != admin {
        return Err(UnauthorizedAdmin);
      }
      if key in issuers {
        return Err(AccountAlreadyInUse);
      }
      if limit == 0 {
        return Err(InvalidIssuerMintLimit);
      }
      issuers := issuers[key := Issuer(limit, false, 0, 0, 0)];
      r := Ok(());
    }

    method SetIssuerPaused(caller: Pubkey, key: Pubkey, paused: bool) returns (r: Result<(), IssuanceError>)
      modifies this
      ensures Did(old(View()), SetPaused(caller, key, paused), r)
    {
      if caller != admin {
        return Err(UnauthorizedAdmin);
      }
      if key !in issuers {
        return Err(AccountNotInitialized);
      }
      issuers := issuers[key := issuers[key].(paused := paused)];
      r := Ok(());
    }

    method RotateIssuerAuthority(caller: Pubkey, current: Pubkey, successor: Pubkey)
      returns (r: Result<(), IssuanceError>)
      modifies this
      ensures Did(old(View()), Rotate(caller, current, successor), r)
    {
      if caller != admin {
        return Err(UnauthorizedAdmin);
      }
      if current !in issuers {
        return Err(AccountNotInitialized);
      }
      if successor in issuers {
        return Err(AccountAlreadyInUse);
      }
      var retired := issuers[current];
      issuers := issuers[successor := Issuer(retired.limit, retired.paused, retired.outstanding, retired.minted,
                                             retired.burned)];
      issuers := issuers[current := retired.(limit := 0, paused := true)];
      r := Ok(());
    }

    method MintToUser(key: Pubkey, amount: U64, tokenOk: bool) returns (r: Result<(), IssuanceError>)
      modifies this
      ensures Did(old(View()), Mint(key, amount, tokenOk), r)
    {
      if key !in issuers {
        return Err(AccountNotInitialized);
      }
      var issuer := issuers[key];
      if paused {
        return Err(ProtocolPaused);
      }
      if issuer.paused {
        return Err(IssuerPaused);
      }
      var outstanding' := issuer.outstanding + amount;
      if outstanding' >= TWO_64 || outstanding' > issuer.limit {
        return Err(IssuerLimitExceeded);
      }
      var supply' := supply + amount;
      if supply' >= TWO_64 || supply' > cap {
        return Err(GlobalSupplyCapExceeded);
      }
      if !tokenOk {
        return Err(TokenProgramFailed);
      }
      if issuer.minted + amount >= TWO_64 {
        return Err(IssuerLimitExceeded);
      }
      if minted + amount >= TWO_64 {
        return Err(GlobalSupplyCapExceeded);
      }
      issuers := issuers[key := issuer.(outstanding := outstanding', minted := issuer.minted + amount)];
      supply := supply';
      minted := minted + amount;
      r := Ok(());
    }

    method BurnFromUser(key: Pubkey, amount: U64, tokenOk: bool) returns (r: Result<(), IssuanceError>)
      modifies this
      ensures Did(old(View()), Burn(key, amount, tokenOk), r)
    {
      if key !in issuers {
        return Err(AccountNotInitialized);
      }
      var issuer := issuers[key];
      if paused {
        return Err(ProtocolPaused);
      }
      if issuer.paused {
        return Err(IssuerPaused);
      }
      if amount > issuer.outstanding || amount > supply {
        return Err(BurnAmountExceedsOutstanding);
      }
      if !tokenOk {
        return Err(TokenProgramFailed);
      }
      if issuer.burned + amount >= TWO_64 || burned + amount >= TWO_64 {
        return Err(BurnAmountExceedsOutstanding);
      }
      issuers := issuers[key := issuer.(outstanding := issuer.outstanding - amount, burned := issuer.burned + amount)];
      supply := supply - amount;
      burned := burned + amount;
      r := Ok(());
    }
  }
}
