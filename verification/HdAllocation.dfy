/**
 * Allocation of HD accounts and derivation indices under concurrent first use: every statement is atomic, any number of
 * processes interleave, and any of them may stop between two statements.
 */
module HdAllocation {
  import opened Common

  type Tenant = string
  type ProcessId = nat

  datatype Chain = Bitcoin | Ethereum | Bsc | Tron

  const TENANT_ACCOUNT_OFFSET: nat := 2
  const UINT32_LIMIT: nat := 0x1_0000_0000

  /** The coin type of the derivation path; the EVM chains share one. */
  function Coin(chain: Chain): nat {
    match chain
    case Bitcoin => 0
    case Ethereum => 60
    case Bsc => 60
    case Tron => 195
  }

  /** What an address is derived from, in 32 bits each. Distinct paths are taken to give distinct addresses. */
  datatype Path = Path(coin: nat, account: nat, index: nat)

  function PathOf(chain: Chain, account: nat, index: nat): Path {
    Path(Coin(chain), account % UINT32_LIMIT, index % UINT32_LIMIT)
  }

  /** A derived index, unique in its table. */
  datatype Slot = Slot(chain: Chain, tenant: Tenant, index: nat)

  /** Where a process stands in allocating an address for a tenant on a chain. */
  datatype Pc =
    | ReadAccount(tenant: Tenant, chain: Chain)
    | TakeAccount(tenant: Tenant, chain: Chain)
    | SaveAccount(tenant: Tenant, chain: Chain, account: nat)
    | TakeIndex(tenant: Tenant, chain: Chain, account: nat)
    | SaveAddress(slot: Slot, account: nat)

  /** The tables, the slots handed out in order, and the processes. */
  datatype State = State(counter: Option<nat>, accounts: map<Tenant, nat>, indices: map<(Chain, Tenant), nat>,
                         saved: map<Slot, Path>, handedOut: seq<Slot>, processes: map<ProcessId, Pc>)

  const START := State(None, map[], map[], map[], [], map[])

  datatype Move = Enter(tenant: Tenant, chain: Chain) | Execute | Stop

  /** The next account number, before the counter's row exists and after. */
  function NextAccount(s: State): nat {
    match s.counter
    case None => TENANT_ACCOUNT_OFFSET
    case Some(next) => next
  }

  function NextIndex(s: State, chain: Chain, tenant: Tenant): nat {
    if (chain, tenant) in s.indices then s.indices[(chain, tenant)] else 0
  }

  function Goes(s: State, p: ProcessId, pc: Pc): State {
    s.(processes := s.processes[p := pc])
  }

  function Ends(s: State, p: ProcessId): State {
    s.(processes := s.processes - {p})
  }

  /** A unique violation on the tenant or on the account number. */
  predicate AccountConflicts(s: State, tenant: Tenant, account: nat) {
    tenant in s.accounts || exists other :: other in s.accounts && s.accounts[other] == account
  }

  /** A unique violation on the slot or on the address. */
  predicate AddressConflicts(s: State, slot: Slot, account: nat) {
    slot in s.saved || exists other :: other in s.saved && s.saved[other] == PathOf(slot.chain, account, slot.index)
  }

  function Executed(s: State, p: ProcessId): State
    requires p in s.processes
  {
    match s.processes[p]
    case ReadAccount(t, c) => Goes(s, p, if t in s.accounts then TakeIndex(t, c, s.accounts[t]) else TakeAccount(t, c))
    case TakeAccount(t, c) => Goes(s.(counter := Some(NextAccount(s) + 1)), p, SaveAccount(t, c, NextAccount(s)))
    case SaveAccount(t, c, account) =>
      if AccountConflicts(s, t, account) then Goes(s, p, ReadAccount(t, c))
      else Goes(s.(accounts := s.accounts[t := account]), p, TakeIndex(t, c, account))
    case TakeIndex(t, c, account) =>
      var index := NextIndex(s, c, t);
      Goes(s.(indices := s.indices[(c, t) := index + 1], handedOut := s.handedOut + [Slot(c, t, index)]), p,
           SaveAddress(Slot(c, t, index), account))
    case SaveAddress(slot, account) =>
      Ends(if AddressConflicts(s, slot, account) then s
           else s.(saved := s.saved[slot := PathOf(slot.chain, account, slot.index)]), p)
  }

  function Next(s: State, p: ProcessId, move: Move): State {
    match move
    case Enter(t, c) => if p in s.processes then s else Goes(s, p, ReadAccount(t, c))
    case Execute => if p in s.processes then Executed(s, p) else s
    case Stop => Ends(s, p)
  }

  // ----- what every interleaving keeps -----

  /** A process carries an account number that is not assigned yet. */
  predicate Carries(pc: Pc, account: nat) {
    pc.SaveAccount? && pc.account == account
  }

  /** A process works with the number its tenant has for good. */
  predicate Holds(pc: Pc, tenant: Tenant, account: nat) {
    (pc.TakeIndex? && pc.tenant == tenant && pc.account == account)
        || (pc.SaveAddress? && pc.slot.tenant == tenant && pc.account == account)
  }

  /** Numbers below the counter, each with one tenant or one process. */
  ghost predicate AccountsApart(s: State) {
    && NextAccount(s) >= TENANT_ACCOUNT_OFFSET
    && (forall t | t in s.accounts :: TENANT_ACCOUNT_OFFSET <= s.accounts[t] < NextAccount(s))
    && (forall t, u | t in s.accounts && u in s.accounts && s.accounts[t] == s.accounts[u] :: t == u)
    && (forall p, a: nat | p in s.processes && Carries(s.processes[p], a) ::
          TENANT_ACCOUNT_OFFSET <= a < NextAccount(s) && forall t | t in s.accounts :: s.accounts[t] != a)
    && (forall p, q, a: nat | p in s.processes && q in s.processes
                              && Carries(s.processes[p], a) && Carries(s.processes[q], a) :: p == q)
    && (forall p, t, a: nat | p in s.processes && Holds(s.processes[p], t, a) :: t in s.accounts && s.accounts[t] == a)
  }

  predicate Unrepeated(slots: seq<Slot>) {
    forall i, j | 0 <= i < j < |slots| :: slots[i] != slots[j]
  }

  /** Handed-out indices lie below their counter and never come twice. */
  ghost predicate SlotsApart(s: State) {
    && Unrepeated(s.handedOut)
    && (forall slot | slot in s.handedOut :: slot.index < NextIndex(s, slot.chain, slot.tenant))
    && (forall p | p in s.processes && s.processes[p].SaveAddress? ::
        s.processes[p].slot in s.handedOut && s.processes[p].slot !in s.saved)
    && (forall p, q | p in s.processes && q in s.processes && s.processes[p].SaveAddress? && s.processes[q].SaveAddress?
                      && s.processes[p].slot == s.processes[q].slot :: p == q)
    && (forall slot | slot in s.saved :: slot in s.handedOut)
  }

  /** Saved addresses are derived at their own tenant's account, and no two are the same. */
  ghost predicate AddressesApart(s: State) {
    && (forall slot | slot in s.saved ::
          slot.tenant in s.accounts && s.saved[slot] == PathOf(slot.chain, s.accounts[slot.tenant], slot.index))
    && (forall slot, other | slot in s.saved && other in s.saved && s.saved[slot] == s.saved[other] :: slot == other)
  }

  ghost function Apart(): iset<State> {
    iset s: State | AccountsApart(s) && SlotsApart(s) && AddressesApart(s)
  }

  lemma TakeAccountKeepsApart(s: State, p: ProcessId)
    requires s in Apart() && p in s.processes && s.processes[p].TakeAccount?
    ensures Executed(s, p) in Apart()
  {
    var after := Executed(s, p);
    assert AccountsApart(after);
    assert SlotsApart(after);
    assert AddressesApart(after);
  }

  /** The tables with a tenant's new number. */
  function Assigned(s: State, p: ProcessId, t: Tenant, c: Chain, account: nat): State {
    Goes(s.(accounts := s.accounts[t := account]), p, TakeIndex(t, c, account))
  }

  lemma AssignedAccountsApart(s: State, p: ProcessId, t: Tenant, c: Chain, account: nat)
    requires AccountsApart(s) && p in s.processes && s.processes[p] == SaveAccount(t, c, account) && t !in s.accounts
    ensures AccountsApart(Assigned(s, p, t, c, account))
  {
    var after := Assigned(s, p, t, c, account);
    assert Carries(s.processes[p], account);
    forall q, a: nat | q in after.processes && Carries(after.processes[q], a)
      ensures TENANT_ACCOUNT_OFFSET <= a < NextAccount(after)
      ensures forall u | u in after.accounts :: after.accounts[u] != a
    {
      assert q != p && Carries(s.processes[q], a);
    }
    forall q, u, a: nat | q in after.processes && Holds(after.processes[q], u, a)
      ensures u in after.accounts && after.accounts[u] == a
    {
      if q != p {
        assert Holds(s.processes[q], u, a);
      }
    }
  }

  lemma AssignedOthersApart(s: State, p: ProcessId, t: Tenant, c: Chain, account: nat)
    requires SlotsApart(s) && AddressesApart(s) && p in s.processes && s.processes[p] == SaveAccount(t, c, account)
             && t !in s.accounts
    ensures SlotsApart(Assigned(s, p, t, c, account)) && AddressesApart(Assigned(s, p, t, c, account))
  {
  }

  lemma SaveAccountKeepsApart(s: State, p: ProcessId)
    requires s in Apart() && p in s.processes && s.processes[p].SaveAccount?
    ensures Executed(s, p) in Apart()
  {
    var pc := s.processes[p];
    if AccountConflicts(s, pc.tenant, pc.account) {
      MoveKeepsApart(s, p, ReadAccount(pc.tenant, pc.chain));
    } else {
      AssignedAccountsApart(s, p, pc.tenant, pc.chain, pc.account);
      AssignedOthersApart(s, p, pc.tenant, pc.chain, pc.account);
    }
  }

  lemma TakeIndexKeepsApart(s: State, p: ProcessId)
    requires s in Apart() && p in s.processes && s.processes[p].TakeIndex?
    ensures Executed(s, p) in Apart()
  {
    var after := Executed(s, p);
    assert Holds(s.processes[p], s.processes[p].tenant, s.processes[p].account);
    assert AccountsApart(after);
    assert SlotsApart(after);
    assert AddressesApart(after);
  }

  lemma SavedAddressApart(s: State, slot: Slot, account: nat)
    requires AddressesApart(s) && !AddressConflicts(s, slot, account) && slot.tenant in s.accounts
             && s.accounts[slot.tenant] == account
    ensures AddressesApart(s.(saved := s.saved[slot := PathOf(slot.chain, account, slot.index)]))
  {
  }

  lemma SavedSlotsApart(s: State, p: ProcessId, slot: Slot, account: nat)
    requires SlotsApart(s) && p in s.processes && s.processes[p] == SaveAddress(slot, account)
    ensures SlotsApart(Ends(s.(saved := s.saved[slot := PathOf(slot.chain, account, slot.index)]), p))
  {
  }

  lemma SavedAccountsApart(s: State, p: ProcessId, slot: Slot, account: nat)
    requires AccountsApart(s)
    ensures AccountsApart(Ends(s.(saved := s.saved[slot := PathOf(slot.chain, account, slot.index)]), p))
  {
  }

  lemma SaveAddressKeepsApart(s: State, p: ProcessId)
    requires s in Apart() && p in s.processes && s.processes[p].SaveAddress?
    ensures Executed(s, p) in Apart()
  {
    var pc := s.processes[p];
    if AddressConflicts(s, pc.slot, pc.account) {
      StopKeepsApart(s, p);
    } else {
      assert Holds(pc, pc.slot.tenant, pc.account);
      SavedAddressApart(s, pc.slot, pc.account);
      SavedSlotsApart(s, p, pc.slot, pc.account);
      SavedAccountsApart(s, p, pc.slot, pc.account);
    }
  }

  lemma MoveKeepsApart(s: State, p: ProcessId, pc: Pc)
    requires s in Apart() && !pc.SaveAccount? && !pc.SaveAddress?
    requires pc.TakeIndex? ==> pc.tenant in s.accounts && s.accounts[pc.tenant] == pc.account
    ensures Goes(s, p, pc) in Apart()
  {
    var after := Goes(s, p, pc);
    assert AccountsApart(after);
    assert SlotsApart(after);
    assert AddressesApart(after);
  }

  lemma StopKeepsApart(s: State, p: ProcessId)
    requires s in Apart()
    ensures Ends(s, p) in Apart()
  {
    var after := Ends(s, p);
    assert AccountsApart(after);
    assert SlotsApart(after);
    assert AddressesApart(after);
  }

  lemma NextKeepsApart(s: State, p: ProcessId, move: Move)
    requires s in Apart()
    ensures Next(s, p, move) in Apart()
  {
    match move
    case Enter(t, c) => MoveKeepsApart(s, p, ReadAccount(t, c));
    case Stop => StopKeepsApart(s, p);
    case Execute =>
      if p in s.processes {
        match s.processes[p]
        case ReadAccount(t, c) =>
          MoveKeepsApart(s, p, if t in s.accounts then TakeIndex(t, c, s.accounts[t]) else TakeAccount(t, c));
        case TakeAccount(_, _) => TakeAccountKeepsApart(s, p);
        case SaveAccount(_, _, _) => SaveAccountKeepsApart(s, p);
        case TakeIndex(_, _, _) => TakeIndexKeepsApart(s, p);
        case SaveAddress(_, _) => SaveAddressKeepsApart(s, p);
      }
  }

  function AfterMoves(moves: seq<(ProcessId, Move)>): State {
    if moves == [] then START
    else Next(AfterMoves(moves[..|moves| - 1]), moves[|moves| - 1].0, moves[|moves| - 1].1)
  }

  lemma {:induction false} EveryInterleavingIsApart(moves: seq<(ProcessId, Move)>)
    ensures AfterMoves(moves) in Apart()
  {
    if moves != [] {
      EveryInterleavingIsApart(moves[..|moves| - 1]);
      NextKeepsApart(AfterMoves(moves[..|moves| - 1]), moves[|moves| - 1].0, moves[|moves| - 1].1);
    }
  }

  // ----- what it comes to -----

  /** The number a tenant is given, as the 32 bits its callers see. */
  function Given(s: State, tenant: Tenant): nat
    requires tenant in s.accounts
  {
    s.accounts[tenant] % UINT32_LIMIT
  }

  lemma AccountIsKept(s: State, p: ProcessId, move: Move, t: Tenant)
    requires t in s.accounts
    ensures t in Next(s, p, move).accounts && Next(s, p, move).accounts[t] == s.accounts[t]
  {
  }

  /** Once a tenant has an account number it has it for good. */
  lemma {:induction false} AccountIsForever(moves: seq<(ProcessId, Move)>, more: seq<(ProcessId, Move)>, t: Tenant)
    requires t in AfterMoves(moves).accounts
    ensures t in AfterMoves(moves + more).accounts
            && AfterMoves(moves + more).accounts[t] == AfterMoves(moves).accounts[t]
    decreases |more|
  {
    if more == [] {
      assert moves + more == moves;
    } else {
      var last := |more| - 1;
      assert (moves + more)[..|moves + more| - 1] == moves + more[..last];
      AccountIsForever(moves, more[..last], t);
      AccountIsKept(AfterMoves(moves + more[..last]), more[last].0, more[last].1, t);
    }
  }

  /** Tenants have different numbers, none of them a platform account, as long as 32 bits can tell them apart. */
  lemma AccountsAreOwn(moves: seq<(ProcessId, Move)>, t: Tenant, u: Tenant)
    requires var s := AfterMoves(moves); t in s.accounts && u in s.accounts && NextAccount(s) <= UINT32_LIMIT
    ensures var s := AfterMoves(moves);
            && Given(s, t) >= 2
            && (Given(s, t) == Given(s, u) <==> t == u)
  {
    EveryInterleavingIsApart(moves);
    GivenApart(AfterMoves(moves), t, u);
  }

  lemma GivenApart(s: State, t: Tenant, u: Tenant)
    requires s in Apart() && t in s.accounts && u in s.accounts && NextAccount(s) <= UINT32_LIMIT
    ensures Given(s, t) >= TENANT_ACCOUNT_OFFSET
    ensures Given(s, t) == Given(s, u) <==> t == u
  {
    assert s.accounts[t] < UINT32_LIMIT && s.accounts[u] < UINT32_LIMIT;
  }

  /** Every process works with its own tenant's number, also one that lost the race to assign it. */
  lemma {:induction false} EveryoneUsesTheAssignedNumber(moves: seq<(ProcessId, Move)>, p: ProcessId, tenant: Tenant,
                                                         account: nat)
    requires p in AfterMoves(moves).processes && Holds(AfterMoves(moves).processes[p], tenant, account)
    ensures tenant in AfterMoves(moves).accounts && AfterMoves(moves).accounts[tenant] == account
  {
    EveryInterleavingIsApart(moves);
  }

  /** No (chain, tenant, index) is handed out twice, and no two saved addresses are the same. */
  lemma NothingHandedOutTwice(moves: seq<(ProcessId, Move)>, i: nat, j: nat, slot: Slot, other: Slot)
    requires i < j < |AfterMoves(moves).handedOut|
    ensures var s := AfterMoves(moves);
            && s.handedOut[i] != s.handedOut[j]
            && (slot in s.saved && other in s.saved && slot != other ==> s.saved[slot] != s.saved[other])
  {
    EveryInterleavingIsApart(moves);
  }

  /** The other chain of a shared coin type. */
  predicate Siblings(c: Chain, d: Chain) {
    c != d && Coin(c) == Coin(d)
  }

  /** The derivation paths by chain, in the 32 bits that hold account and index; the EVM chains alone share theirs. */
  lemma PathsByChain(chain: Chain, account: nat, index: nat)
    requires account < 0x1_0000_0000 && index < 0x1_0000_0000
    ensures PathOf(Bitcoin, account, index) == Path(0, account, index)
    ensures PathOf(Ethereum, account, index) == PathOf(Bsc, account, index) == Path(60, account, index)
    ensures PathOf(Tron, account, index) == Path(195, account, index)
    ensures PathOf(chain, account + 0x1_0000_0000, index) == PathOf(chain, account, index + 0x1_0000_0000)
            == PathOf(chain, account, index)
    ensures forall other: Chain :: Siblings(chain, other) <==> {chain, other} == {Ethereum, Bsc}
  {
    forall other: Chain ensures Siblings(chain, other) <==> {chain, other} == {Ethereum, Bsc} {
      match chain
      case Bitcoin => assert Bitcoin in {chain, other};
      case Tron => assert Tron in {chain, other};
      case Ethereum => assert other in {chain, other};
      case Bsc => assert other in {chain, other};
    }
  }

  /**
   * A derived address fails to be saved exactly when the tenant has saved the same index on the other chain of the coin
   * type: the EVM chains count separately but derive alike.
   */
  lemma SaveFailsIffSiblingSaved(moves: seq<(ProcessId, Move)>, p: ProcessId)
    requires var s := AfterMoves(moves);
             && p in s.processes && s.processes[p].SaveAddress?
             && NextAccount(s) <= UINT32_LIMIT && forall k :: k in s.indices ==> s.indices[k] <= UINT32_LIMIT
    ensures var s := AfterMoves(moves);
            var slot := s.processes[p].slot;
            AddressConflicts(s, slot, s.processes[p].account)
            <==> exists chain :: Siblings(slot.chain, chain) && Slot(chain, slot.tenant, slot.index) in s.saved
  {
    var s := AfterMoves(moves);
    var slot, account := s.processes[p].slot, s.processes[p].account;
    EveryInterleavingIsApart(moves);
    assert Holds(s.processes[p], slot.tenant, account);
    assert (slot.chain, slot.tenant) in s.indices;
    forall other | other in s.saved
      ensures s.saved[other] == PathOf(slot.chain, account, slot.index) <==>
              Siblings(slot.chain, other.chain) && other == Slot(other.chain, slot.tenant, slot.index)
    {
      SamePathIff(s, p, other);
    }
  }

  lemma SameWithin32Bits(c: Chain, a: nat, i: nat, d: Chain, b: nat, j: nat)
    requires a < UINT32_LIMIT && b < UINT32_LIMIT && i < UINT32_LIMIT && j < UINT32_LIMIT
    ensures PathOf(c, a, i) == PathOf(d, b, j) <==> Coin(c) == Coin(d) && a == b && i == j
  {
  }

  lemma SamePathIff(s: State, p: ProcessId, other: Slot)
    requires s in Apart() && p in s.processes && s.processes[p].SaveAddress? && other in s.saved
    requires NextAccount(s) <= UINT32_LIMIT && forall k :: k in s.indices ==> s.indices[k] <= UINT32_LIMIT
    ensures var slot := s.processes[p].slot;
            s.saved[other] == PathOf(slot.chain, s.processes[p].account, slot.index) <==>
            Siblings(slot.chain, other.chain) && other == Slot(other.chain, slot.tenant, slot.index)
  {
    var slot, account := s.processes[p].slot, s.processes[p].account;
    assert Holds(s.processes[p], slot.tenant, account);
    assert slot in s.handedOut && other in s.handedOut;
    assert slot.index < NextIndex(s, slot.chain, slot.tenant) <= UINT32_LIMIT;
    assert other.index < NextIndex(s, other.chain, other.tenant) <= UINT32_LIMIT;
    SameWithin32Bits(other.chain, s.accounts[other.tenant], other.index, slot.chain, account, slot.index);
  }

  // ----- the shared coin type in a run -----

  /** One tenant asks for an address on Ethereum, and then for one on BSC. */
  function FirstUses(tenant: Tenant): seq<(ProcessId, Move)> {
    [(0, Enter(tenant, Ethereum)), (0, Execute), (0, Execute), (0, Execute), (0, Execute), (0, Execute),
     (0, Enter(tenant, Bsc)), (0, Execute), (0, Execute)]
  }

  function Moving(s: State, pc: Pc): State {
    s.(processes := map[0 := pc])
  }

  /** The account is assigned. */
  function WithAccount(tenant: Tenant): State {
    START.(counter := Some(3), accounts := map[tenant := 2])
  }

  /** The address on Ethereum is saved, too. */
  function OnEthereum(tenant: Tenant): State {
    var slot := Slot(Ethereum, tenant, 0);
    WithAccount(tenant).(indices := map[(Ethereum, tenant) := 1], saved := map[slot := Path(60, 2, 0)],
                         handedOut := [slot])
  }

  /** And the index on BSC is taken. */
  function OnBsc(tenant: Tenant): State {
    var s := OnEthereum(tenant);
    s.(indices := s.indices[(Bsc, tenant) := 1], handedOut := s.handedOut + [Slot(Bsc, tenant, 0)])
  }

  lemma AccountSteps(tenant: Tenant)
    ensures Next(START, 0, Enter(tenant, Ethereum)) == Moving(START, ReadAccount(tenant, Ethereum))
    ensures Next(Moving(START, ReadAccount(tenant, Ethereum)), 0, Execute)
            == Moving(START, TakeAccount(tenant, Ethereum))
    ensures Next(Moving(START, TakeAccount(tenant, Ethereum)), 0, Execute)
            == Moving(START.(counter := Some(3)), SaveAccount(tenant, Ethereum, 2))
  {
  }

  lemma AssignmentStep(tenant: Tenant)
    ensures Next(Moving(START.(counter := Some(3)), SaveAccount(tenant, Ethereum, 2)), 0, Execute)
            == Moving(WithAccount(tenant), TakeIndex(tenant, Ethereum, 2))
  {
  }

  /** A tenant's first index on a chain. */
  lemma IndexStep(s: State, tenant: Tenant, c: Chain)
    requires (c, tenant) !in s.indices
    ensures Next(Moving(s, TakeIndex(tenant, c, 2)), 0, Execute)
            == Moving(s.(indices := s.indices[(c, tenant) := 1], handedOut := s.handedOut + [Slot(c, tenant, 0)]),
                      SaveAddress(Slot(c, tenant, 0), 2))
  {
  }

  lemma SavingStep(tenant: Tenant)
    ensures Next(Moving(OnEthereum(tenant).(saved := map[]), SaveAddress(Slot(Ethereum, tenant, 0), 2)), 0, Execute)
            == OnEthereum(tenant)
  {
    var slot := Slot(Ethereum, tenant, 0);
    var s := Moving(OnEthereum(tenant).(saved := map[]), SaveAddress(slot, 2));
    assert !AddressConflicts(s, slot, 2);
    assert s.processes - {0} == map[];
  }

  lemma SecondSteps(tenant: Tenant)
    ensures Next(OnEthereum(tenant), 0, Enter(tenant, Bsc)) == Moving(OnEthereum(tenant), ReadAccount(tenant, Bsc))
    ensures Next(Moving(OnEthereum(tenant), ReadAccount(tenant, Bsc)), 0, Execute)
            == Moving(OnEthereum(tenant), TakeIndex(tenant, Bsc, 2))
  {
  }

  lemma OneMove(moves: seq<(ProcessId, Move)>, k: nat, s: State, p: ProcessId, move: Move)
    requires k < |moves| && AfterMoves(moves[..k]) == s && moves[k] == (p, move)
    ensures AfterMoves(moves[..k + 1]) == Next(s, p, move)
  {
    assert moves[..k + 1][..k] == moves[..k];
  }

  lemma AccountIsAssigned(tenant: Tenant)
    ensures AfterMoves(FirstUses(tenant)[..4]) == Moving(WithAccount(tenant), TakeIndex(tenant, Ethereum, 2))
  {
    var moves := FirstUses(tenant);
    AccountSteps(tenant);
    AssignmentStep(tenant);
    OneMove(moves, 0, START, 0, Enter(tenant, Ethereum));
    OneMove(moves, 1, Moving(START, ReadAccount(tenant, Ethereum)), 0, Execute);
    OneMove(moves, 2, Moving(START, TakeAccount(tenant, Ethereum)), 0, Execute);
    OneMove(moves, 3, Moving(START.(counter := Some(3)), SaveAccount(tenant, Ethereum, 2)), 0, Execute);
  }

  lemma EthereumIsSaved(tenant: Tenant)
    ensures AfterMoves(FirstUses(tenant)[..6]) == OnEthereum(tenant)
  {
    var moves := FirstUses(tenant);
    AccountIsAssigned(tenant);
    OneMove(moves, 4, Moving(WithAccount(tenant), TakeIndex(tenant, Ethereum, 2)), 0, Execute);
    IndexStep(WithAccount(tenant), tenant, Ethereum);
    OneMove(moves, 5, Moving(OnEthereum(tenant).(saved := map[]), SaveAddress(Slot(Ethereum, tenant, 0), 2)), 0,
            Execute);
    SavingStep(tenant);
  }

  lemma BscIsDerived(tenant: Tenant)
    ensures AfterMoves(FirstUses(tenant)) == Moving(OnBsc(tenant), SaveAddress(Slot(Bsc, tenant, 0), 2))
  {
    var moves, s := FirstUses(tenant), OnEthereum(tenant);
    EthereumIsSaved(tenant);
    SecondSteps(tenant);
    OneMove(moves, 6, s, 0, Enter(tenant, Bsc));
    OneMove(moves, 7, Moving(s, ReadAccount(tenant, Bsc)), 0, Execute);
    OneMove(moves, 8, Moving(s, TakeIndex(tenant, Bsc, 2)), 0, Execute);
    IndexStep(s, tenant, Bsc);
    assert moves[..9] == moves;
  }

  /** The tenant's first address on BSC is its first one on Ethereum, and the unique address column refuses it. */
  lemma SecondEvmChainFails(tenant: Tenant)
    ensures var s := AfterMoves(FirstUses(tenant));
            && s.processes == map[0 := SaveAddress(Slot(Bsc, tenant, 0), 2)]
            && AddressConflicts(s, Slot(Bsc, tenant, 0), 2)
            && Next(s, 0, Execute).saved == map[Slot(Ethereum, tenant, 0) := Path(60, 2, 0)]
  {
    BscIsDerived(tenant);
    var s := Moving(OnBsc(tenant), SaveAddress(Slot(Bsc, tenant, 0), 2));
    assert s.saved[Slot(Ethereum, tenant, 0)] == PathOf(Bsc, 2, 0);
    assert Next(s, 0, Execute).saved == s.saved;
  }

  // ----- one process alone -----

  class HdStore {
    var counter: Option<nat>
    var accounts: map<Tenant, nat>
    var indices: map<(Chain, Tenant), nat>
    var saved: map<Slot, Path>

    constructor ()
      ensures counter == None && accounts == map[] && indices == map[] && saved == map[]
    {
      counter, accounts, indices, saved := None, map[], map[], map[];
    }

    /** The number is the tenant's from its first use on; a number that is in use already is passed over. */
    method GetOrAllocateTenantAccount(tenant: Tenant) returns (account: nat)
      modifies this`counter, this`accounts
      ensures tenant in accounts && account == accounts[tenant] % UINT32_LIMIT
      ensures tenant in old(accounts) ==> accounts == old(accounts) && counter == old(counter)
      ensures tenant !in old(accounts) ==>
                && accounts == old(accounts)[tenant := accounts[tenant]]
                && (forall other | other in old(accounts) :: old(accounts)[other] != accounts[tenant])
                && accounts[tenant] >= (if old(counter) == None then TENANT_ACCOUNT_OFFSET else old(counter).value)
                && counter == Some(accounts[tenant] + 1)
    {
      if tenant in accounts {
        return accounts[tenant] % UINT32_LIMIT;
      }
      ghost var before := accounts;
      var taken := accounts.Values;
      ghost var free := taken;
      while true
        invariant accounts == before && tenant !in accounts && taken == accounts.Values && free <= taken
        invariant (if counter == None then TENANT_ACCOUNT_OFFSET else counter.value)
                  >= (if old(counter) == None then TENANT_ACCOUNT_OFFSET else old(counter).value)
        invariant forall a | a in taken && a >= (if counter == None then TENANT_ACCOUNT_OFFSET else counter.value) ::
                  a in free
        decreases |free|
      {
        var next := if counter == None then TENANT_ACCOUNT_OFFSET else counter.value;
        counter := Some(next + 1);
        if next !in taken {
          forall other | other in before ensures before[other] != next {
            assert before[other] in taken;
          }
          accounts := accounts[tenant := next];
          return next % UINT32_LIMIT;
        }
        assert next in free;
        free := free - {next};
      }
    }

    method AllocateNextIndex(tenant: Tenant, chain: Chain) returns (index: nat)
      modifies this`indices
      ensures var next := if (chain, tenant) in old(indices) then old(indices)[(chain, tenant)] else 0;
              index == next % UINT32_LIMIT && indices == old(indices)[(chain, tenant) := next + 1]
    {
      var next := if (chain, tenant) in indices then indices[(chain, tenant)] else 0;
      indices := indices[(chain, tenant) := next + 1];
      return next % UINT32_LIMIT;
    }
  }
}
