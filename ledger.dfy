/** The Unicorns token (UNIC) as a state machine: an EIP-20 ledger of balances
    and allowances with a single immutable owner who may burn tokens, either
    its own (self-burn) or another holder's within the allowance that holder
    granted it (delegated burn).

    Every public call is a pure transition from one `State` to a `Result`:
    `Ok(Receipt(post, logs))` carries the new state and the events the call
    logs, `Err(e)` is an EVM revert, after which the state is the one before the
    call. */
module Ledger {
  import opened Sums

  /** A 160-bit EVM account address. */
  newtype Addr = a: int | 0 <= a < 0x10000000000000000000000000000000000000000

  /** The zero address, never a holder, a spender or the owner. */
  const ZERO: Addr := 0

  /** 40,000,000 tokens of 18 decimals, minted to the initial holder. */
  const INITIAL_SUPPLY: nat := 40_000_000 * 1_000_000_000_000_000_000

  /** Why a call reverts. */
  datatype Error =
    | Unauthorized          // the caller of burn is not the owner
    | ZeroAddress           // the zero address was given where an account is required
    | InsufficientAllowance // a delegated burn exceeds the allowance granted to the owner
    | InsufficientBalance   // a debit exceeds the account's balance

  /** The revert reason `burn` reports for each error. */
  function Reason(e: Error): string
  {
    match e
    case Unauthorized => "Unicorns: Only Owner can perform this task"
    case ZeroAddress => "Unicorns: burn from the zero address"
    case InsufficientAllowance => "Unicorns: Check for approved token count failed"
    case InsufficientBalance => "Unicorns: burn amount exceeds balance"
  }

  /** The two events of EIP-20. */
  datatype Event =
    | Transfer(from: Addr, to: Addr, value: nat)
    | Approval(holder: Addr, spender: Addr, value: nat)

  datatype State = State(
    balances: map<Addr, nat>,
    allowances: map<(Addr, Addr), nat>,
    totalSupply: nat,
    owner: Addr)

  datatype Receipt = Receipt(post: State, logs: seq<Event>)

  datatype Result<T> = Ok(value: T) | Err(error: Error)

  /** `balanceOf`: 0 for an account the ledger has never credited. */
  function BalanceOf(s: State, account: Addr): nat
  {
    Get(s.balances, account)
  }

  /** `allowance`: 0 for a pair that was never approved. */
  function Allowance(s: State, holder: Addr, spender: Addr): nat
  {
    Get(s.allowances, (holder, spender))
  }

  /** The ledger invariant: the supply is the sum of all balances, the zero
      address holds nothing and the owner is a real account. */
  ghost predicate Good(s: State)
  {
    && s.totalSupply == Sum(s.balances)
    && BalanceOf(s, ZERO) == 0
    && s.owner != ZERO
  }

  /** Deployment by `deployer`, who becomes the owner, minting the whole
      supply to `initialHolder`. */
  function Deploy(deployer: Addr, initialHolder: Addr): (r: Result<State>)
    requires deployer != ZERO
    ensures r.Ok? <==> initialHolder != ZERO
    ensures r.Err? ==> r.error == ZeroAddress
    ensures r.Ok? ==> && Good(r.value)
                      && r.value.owner == deployer
                      && r.value.totalSupply == INITIAL_SUPPLY
                      && BalanceOf(r.value, initialHolder) == INITIAL_SUPPLY
                      && (forall a :: a != initialHolder ==> BalanceOf(r.value, a) == 0)
                      && (forall h, p :: Allowance(r.value, h, p) == 0)
  {
    if initialHolder == ZERO then Err(ZeroAddress)
    else
      var s := State(map[initialHolder := INITIAL_SUPPLY], map[], INITIAL_SUPPLY, deployer);
      assert Sum(s.balances) == INITIAL_SUPPLY by {
        SumRemove(s.balances, initialHolder);
        assert s.balances - {initialHolder} == map[];
      }
      Ok(s)
  }

  /** The balance ledger's internal debit: takes `amount` from `account` and
      from the supply together. */
  function Debit(s: State, account: Addr, amount: nat): (t: State)
    requires amount <= BalanceOf(s, account) <= s.totalSupply
    ensures BalanceOf(t, account) == BalanceOf(s, account) - amount
    ensures forall a :: a != account ==> BalanceOf(t, a) == BalanceOf(s, a)
    ensures t.totalSupply == s.totalSupply - amount
    ensures t.allowances == s.allowances && t.owner == s.owner
  {
    s.(balances := s.balances[account := BalanceOf(s, account) - amount],
       totalSupply := s.totalSupply - amount)
  }

  /** The allowance registry's internal consume: lowers the allowance of
      `spender` over `holder`'s tokens by `amount`. */
  function Consume(s: State, holder: Addr, spender: Addr, amount: nat): (t: State)
    requires amount <= Allowance(s, holder, spender)
    ensures Allowance(t, holder, spender) == Allowance(s, holder, spender) - amount
    ensures forall h, p :: (h, p) != (holder, spender) ==> Allowance(t, h, p) == Allowance(s, h, p)
    ensures t.balances == s.balances && t.totalSupply == s.totalSupply && t.owner == s.owner
  {
    s.(allowances := s.allowances[(holder, spender) := Allowance(s, holder, spender) - amount])
  }

  /** EIP-20 `transfer` of `amount` from the caller to `to`. */
  function TransferTo(s: State, caller: Addr, to: Addr, amount: nat): (r: Result<Receipt>)
    ensures caller == ZERO || to == ZERO ==> r == Err(ZeroAddress)
    ensures caller != ZERO && to != ZERO && amount > BalanceOf(s, caller) ==> r == Err(InsufficientBalance)
    ensures r.Ok? <==> caller != ZERO && to != ZERO && amount <= BalanceOf(s, caller)
    ensures r.Ok? ==> r.value.logs == [Transfer(caller, to, amount)]
    ensures r.Ok? && caller != to ==> && BalanceOf(r.value.post, caller) == BalanceOf(s, caller) - amount
                                      && BalanceOf(r.value.post, to) == BalanceOf(s, to) + amount
    ensures r.Ok? ==> && (forall a :: a != caller && a != to ==> BalanceOf(r.value.post, a) == BalanceOf(s, a))
                      && BalanceOf(r.value.post, caller) + BalanceOf(r.value.post, to)
                         == BalanceOf(s, caller) + BalanceOf(s, to)
                      && r.value.post.totalSupply == s.totalSupply
                      && r.value.post.allowances == s.allowances
                      && r.value.post.owner == s.owner
  {
    if caller == ZERO || to == ZERO then Err(ZeroAddress)
    else if amount > BalanceOf(s, caller) then Err(InsufficientBalance)
    else
      var debited := s.balances[caller := BalanceOf(s, caller) - amount];
      var credited := debited[to := Get(debited, to) + amount];
      Ok(Receipt(s.(balances := credited), [Transfer(caller, to, amount)]))
  }

  /** EIP-20 `approve`: the caller lets `spender` use `amount` of its tokens,
      overwriting any earlier allowance. */
  function Approve(s: State, caller: Addr, spender: Addr, amount: nat): (r: Result<Receipt>)
    ensures r.Ok? <==> caller != ZERO && spender != ZERO
    ensures r.Err? ==> r.error == ZeroAddress
    ensures r.Ok? ==> && Allowance(r.value.post, caller, spender) == amount
                      && (forall h, p :: (h, p) != (caller, spender) ==>
                            Allowance(r.value.post, h, p) == Allowance(s, h, p))
                      && r.value.post.balances == s.balances
                      && r.value.post.totalSupply == s.totalSupply
                      && r.value.post.owner == s.owner
                      && r.value.logs == [Approval(caller, spender, amount)]
  {
    if caller == ZERO || spender == ZERO then Err(ZeroAddress)
    else Ok(Receipt(s.(allowances := s.allowances[(caller, spender) := amount]),
                    [Approval(caller, spender, amount)]))
  }

  /** `burn(target, amount)` called by `caller`. Only the owner may burn. When
      `target` is the owner the owner's own tokens are burnt; otherwise the
      burn first consumes the allowance `target` granted the owner. Either way
      the burn is logged as a transfer to the zero address, and a delegated
      burn also logs the allowance that remains. A revert changes nothing. */
  function Burn(s: State, caller: Addr, target: Addr, amount: nat): (r: Result<Receipt>)
    requires Good(s)
    // each gate alone makes the call revert
    ensures caller != s.owner && target != ZERO ==> r == Err(Unauthorized)
    ensures caller == s.owner && target == ZERO ==> r == Err(ZeroAddress)
    // both gates failing: either error, the order is left open
    ensures caller != s.owner && target == ZERO ==> r == Err(Unauthorized) || r == Err(ZeroAddress)
    // self-burn
    ensures (caller == s.owner && target == s.owner && amount > BalanceOf(s, target))
              ==> r == Err(InsufficientBalance)
    // delegated burn: the allowance is checked, then the balance
    ensures (caller == s.owner && target != s.owner && target != ZERO && amount > Allowance(s, target, s.owner))
              ==> r == Err(InsufficientAllowance)
    ensures (&& caller == s.owner && target != s.owner && target != ZERO
              && amount <= Allowance(s, target, s.owner) && amount > BalanceOf(s, target))
              ==> r == Err(InsufficientBalance)
    // the call goes through exactly when no check fails
    ensures r.Ok? <==> && caller == s.owner
                       && target != ZERO
                       && amount <= BalanceOf(s, target)
                       && (target != s.owner ==> amount <= Allowance(s, target, s.owner))
    // effect on balances and supply
    ensures r.Ok? ==> && BalanceOf(r.value.post, target) == BalanceOf(s, target) - amount
                      && (forall a :: a != target ==> BalanceOf(r.value.post, a) == BalanceOf(s, a))
                      && r.value.post.totalSupply == s.totalSupply - amount
                      && r.value.post.owner == s.owner
    // effect on allowances: none for a self-burn, the one consumed for a delegated burn
    ensures r.Ok? && target == s.owner ==> r.value.post.allowances == s.allowances
    ensures r.Ok? && target != s.owner ==>
              && Allowance(r.value.post, target, s.owner) == Allowance(s, target, s.owner) - amount
              && (forall h, p :: (h, p) != (target, s.owner) ==>
                    Allowance(r.value.post, h, p) == Allowance(s, h, p))
    // the logs
    ensures r.Ok? && target == s.owner ==> r.value.logs == [Transfer(target, ZERO, amount)]
    ensures r.Ok? && target != s.owner ==>
              r.value.logs == [Approval(target, s.owner, Allowance(s, target, s.owner) - amount),
                               Transfer(target, ZERO, amount)]
  {
    GetBelowSum(s.balances, target);
    if caller != s.owner then Err(Unauthorized)
    else if target == ZERO then Err(ZeroAddress)
    else if target == s.owner then
      if amount > BalanceOf(s, target) then Err(InsufficientBalance)
      else Ok(Receipt(Debit(s, target, amount), [Transfer(target, ZERO, amount)]))
    else
      var allowed := Allowance(s, target, s.owner);
      if amount > allowed then Err(InsufficientAllowance)
      else if amount > BalanceOf(s, target) then Err(InsufficientBalance)
      else
        var consumed := Consume(s, target, s.owner, amount);
        Ok(Receipt(Debit(consumed, target, amount),
                   [Approval(target, s.owner, allowed - amount), Transfer(target, ZERO, amount)]))
  }

  /** The state after a call: the new state if it went through, the old one
      if it reverted. */
  function After(s: State, r: Result<Receipt>): (t: State)
    ensures r.Err? ==> t == s
    ensures r.Ok? ==> t == r.value.post
  {
    if r.Ok? then r.value.post else s
  }

  /** A burn of nothing by the owner goes through from any real account,
      changes no balance, allowance or supply, and is still logged. */
  lemma ZeroAmountBurn(s: State, target: Addr)
    requires Good(s) && target != ZERO
    ensures var r := Burn(s, s.owner, target, 0);
            && r.Ok?
            && r.value.post.totalSupply == s.totalSupply
            && (forall a :: BalanceOf(r.value.post, a) == BalanceOf(s, a))
            && (forall h, p :: Allowance(r.value.post, h, p) == Allowance(s, h, p))
            && Transfer(target, ZERO, 0) in r.value.logs
  {
  }

  /** A debit keeps the supply equal to the sum of the balances. */
  lemma DebitKeepsGood(s: State, account: Addr, amount: nat)
    requires Good(s) && account != ZERO
    requires amount <= BalanceOf(s, account) <= s.totalSupply
    ensures Good(Debit(s, account, amount))
  {
    SumUpdate(s.balances, account, BalanceOf(s, account) - amount);
  }

  /** A burn, successful or not, keeps the ledger invariant. */
  lemma BurnKeepsGood(s: State, caller: Addr, target: Addr, amount: nat)
    requires Good(s)
    ensures Good(After(s, Burn(s, caller, target, amount)))
  {
    var r := Burn(s, caller, target, amount);
    if r.Ok? {
      GetBelowSum(s.balances, target);
      if target == s.owner {
        DebitKeepsGood(s, target, amount);
      } else {
        var consumed := Consume(s, target, s.owner, amount);
        DebitKeepsGood(consumed, target, amount);
      }
    }
  }

  /** A transfer, successful or not, keeps the ledger invariant. */
  lemma TransferKeepsGood(s: State, caller: Addr, to: Addr, amount: nat)
    requires Good(s)
    ensures Good(After(s, TransferTo(s, caller, to, amount)))
  {
    var r := TransferTo(s, caller, to, amount);
    if r.Ok? {
      var debited := s.balances[caller := BalanceOf(s, caller) - amount];
      var credited := debited[to := Get(debited, to) + amount];
      SumUpdate(s.balances, caller, BalanceOf(s, caller) - amount);
      SumUpdate(debited, to, Get(debited, to) + amount);
      assert r.value.post.balances == credited;
    }
  }

  /** An approval, successful or not, keeps the ledger invariant. */
  lemma ApproveKeepsGood(s: State, caller: Addr, spender: Addr, amount: nat)
    requires Good(s)
    ensures Good(After(s, Approve(s, caller, spender, amount)))
  {
  }

  /** Every balance is bounded by the supply, so a credit can never exceed
      the supply minted at deployment (which fits in 256 bits). */
  lemma BalanceBelowSupply(s: State, account: Addr)
    requires Good(s)
    ensures BalanceOf(s, account) <= s.totalSupply
  {
    GetBelowSum(s.balances, account);
  }

  /** One externally callable mutating entry point and its arguments. */
  datatype Call =
    | TransferCall(caller: Addr, to: Addr, amount: nat)
    | ApproveCall(caller: Addr, spender: Addr, amount: nat)
    | BurnCall(caller: Addr, target: Addr, amount: nat)

  /** The state after one call, reverted or not. */
  function Step(s: State, c: Call): (t: State)
    requires Good(s)
    ensures t.owner == s.owner
  {
    match c
    case TransferCall(caller, to, amount) => After(s, TransferTo(s, caller, to, amount))
    case ApproveCall(caller, spender, amount) => After(s, Approve(s, caller, spender, amount))
    case BurnCall(caller, target, amount) => After(s, Burn(s, caller, target, amount))
  }

  lemma StepKeepsGood(s: State, c: Call)
    requires Good(s)
    ensures Good(Step(s, c))
  {
    match c
    case TransferCall(caller, to, amount) => TransferKeepsGood(s, caller, to, amount);
    case ApproveCall(caller, spender, amount) => ApproveKeepsGood(s, caller, spender, amount);
    case BurnCall(caller, target, amount) => BurnKeepsGood(s, caller, target, amount);
  }

  /** The state after a sequence of calls; each keeps the invariant, so the
      next one may be applied. */
  ghost function Run(s: State, calls: seq<Call>): (t: State)
    requires Good(s)
    ensures Good(t) && t.owner == s.owner
    decreases |calls|
  {
    if calls == [] then s
    else
      StepKeepsGood(s, calls[0]);
      Run(Step(s, calls[0]), calls[1..])
  }

  /** Only burns change the supply, and they only lower it. */
  lemma {:induction false} RunNeverRaisesSupply(s: State, calls: seq<Call>)
    requires Good(s)
    ensures Run(s, calls).totalSupply <= s.totalSupply
    decreases |calls|
  {
    if calls != [] {
      StepKeepsGood(s, calls[0]);
      RunNeverRaisesSupply(Step(s, calls[0]), calls[1..]);
    }
  }
}
