/** Clients of the token that replay the observed behaviour of the test
    suites: a fresh token per case, setup calls, then a burn, and the values
    read back afterwards. Each postcondition is what the corresponding test
    asserts, generalised over the accounts and the amount where the test
    picks particular ones. */
module Scenarios {
  import opened Ledger
  import opened Token

  /** Every revert reason tells its failure apart from the others. */
  lemma ReasonsDistinct(e1: Error, e2: Error)
    ensures Reason(e1) == Reason(e2) <==> e1 == e2
  {
  }

  /** Deployment hands the initial holder the whole supply of 40,000,000
      tokens of 18 decimals. */
  method DeployToHolder(holder: Addr) returns (supply: nat, balance: nat)
    requires holder != ZERO
    ensures supply == balance == 40000000000000000000000000
  {
    var token := new Unicorns(holder, holder);
    supply := token.TotalSupply();
    balance := token.BalanceOf(holder);
  }

  /** The owner burning from the zero address is rejected, and nothing changes. */
  method BurnFromZeroAddress(holder: Addr) returns (r: Result<seq<Event>>, supply: nat)
    requires holder != ZERO
    ensures r == Err(ZeroAddress)
    ensures Reason(r.error) == "Unicorns: burn from the zero address"
    ensures supply == INITIAL_SUPPLY
  {
    var token := new Unicorns(holder, holder);
    r := token.Burn(holder, ZERO, 1);
    supply := token.TotalSupply();
  }

  /** Burning one token more than the whole supply is rejected, and nothing changes. */
  method BurnBeyondSupply(holder: Addr) returns (r: Result<seq<Event>>, supply: nat, balance: nat)
    requires holder != ZERO
    ensures r == Err(InsufficientBalance)
    ensures Reason(r.error) == "Unicorns: burn amount exceeds balance"
    ensures supply == balance == INITIAL_SUPPLY
  {
    var token := new Unicorns(holder, holder);
    r := token.Burn(holder, holder, INITIAL_SUPPLY + 1);
    supply := token.TotalSupply();
    balance := token.BalanceOf(holder);
  }

  /** The owner burning any amount up to its balance, zero included, lowers
      both its balance and the supply by that amount and logs a transfer to
      the zero address. */
  method SelfBurn(owner: Addr, amount: nat) returns (r: Result<seq<Event>>, supply: nat, balance: nat)
    requires owner != ZERO && amount <= INITIAL_SUPPLY
    ensures r == Ok([Ledger.Transfer(owner, ZERO, amount)])
    ensures supply == balance == INITIAL_SUPPLY - amount
  {
    var token := new Unicorns(owner, owner);
    r := token.Burn(owner, owner, amount);
    supply := token.TotalSupply();
    balance := token.BalanceOf(owner);
  }

  /** Burning the entire balance leaves nothing; burning all but one token
      leaves one. Both burns are logged as a transfer to the zero address. */
  method BurnEntireAndAllButOne(holder: Addr)
    returns (ra: Result<seq<Event>>, supplyA: nat, balanceA: nat,
             rb: Result<seq<Event>>, supplyB: nat, balanceB: nat)
    requires holder != ZERO
    ensures ra == Ok([Ledger.Transfer(holder, ZERO, INITIAL_SUPPLY)])
    ensures supplyA == balanceA == 0
    ensures rb == Ok([Ledger.Transfer(holder, ZERO, INITIAL_SUPPLY - 1)])
    ensures supplyB == balanceB == 1
  {
    var a := new Unicorns(holder, holder);
    ra := a.Burn(holder, holder, INITIAL_SUPPLY);
    supplyA := a.TotalSupply();
    balanceA := a.BalanceOf(holder);
    var b := new Unicorns(holder, holder);
    rb := b.Burn(holder, holder, INITIAL_SUPPLY - 1);
    supplyB := b.TotalSupply();
    balanceB := b.BalanceOf(holder);
  }

  /** Anyone but the owner is refused, whatever the amount, and nothing changes. */
  method BurnByNonOwner(owner: Addr, other: Addr, amount: nat) returns (r: Result<seq<Event>>, supply: nat, balance: nat)
    requires owner != ZERO && other != ZERO && other != owner
    ensures r == Err(Unauthorized)
    ensures Reason(r.error) == "Unicorns: Only Owner can perform this task"
    ensures supply == balance == INITIAL_SUPPLY
  {
    var token := new Unicorns(owner, owner);
    r := token.Burn(other, owner, amount);
    supply := token.TotalSupply();
    balance := token.BalanceOf(owner);
  }

  /** A delegated burn within both balance and allowance: the owner sends
      the burner three times the amount, the burner approves the owner for as
      much, the owner burns `amount` of it. Balance and allowance both drop by
      `amount`, and both the approval that remains and the transfer to the
      zero address are logged. */
  method BurnFrom(owner: Addr, burner: Addr, amount: nat)
    returns (r: Result<seq<Event>>, balance: nat, allowance: nat, supply: nat)
    requires owner != ZERO && burner != ZERO && burner != owner
    requires 3 * amount <= INITIAL_SUPPLY
    ensures r == Ok([Approval(burner, owner, 2 * amount), Ledger.Transfer(burner, ZERO, amount)])
    ensures balance == allowance == 2 * amount
    ensures supply == INITIAL_SUPPLY - amount
  {
    var token := new Unicorns(owner, owner);
    var t := token.Transfer(owner, burner, 3 * amount);
    var a := token.Approve(burner, owner, 3 * amount);
    r := token.Burn(owner, burner, amount);
    balance := token.BalanceOf(burner);
    allowance := token.Allowance(burner, owner);
    supply := token.TotalSupply();
  }

  /** A delegated burn the allowance covers but the balance does not is
      rejected, and neither balance nor allowance changes. */
  method BurnFromBeyondBalance(owner: Addr, burner: Addr)
    returns (r: Result<seq<Event>>, balance: nat, allowance: nat)
    requires owner != ZERO && burner != ZERO && burner != owner
    ensures r == Err(InsufficientBalance)
    ensures Reason(r.error) == "Unicorns: burn amount exceeds balance"
    ensures balance == INITIAL_SUPPLY && allowance == INITIAL_SUPPLY + 1
  {
    var token := new Unicorns(owner, owner);
    var t := token.Transfer(owner, burner, INITIAL_SUPPLY);
    var a := token.Approve(burner, owner, INITIAL_SUPPLY + 1);
    r := token.Burn(owner, burner, INITIAL_SUPPLY + 1);
    balance := token.BalanceOf(burner);
    allowance := token.Allowance(burner, owner);
  }

  /** A delegated burn one token over the allowance is rejected even though
      the balance would cover it, and nothing changes. */
  method BurnFromBeyondAllowance(owner: Addr, burner: Addr, allowed: nat)
    returns (r: Result<seq<Event>>, balance: nat, allowance: nat)
    requires owner != ZERO && burner != ZERO && burner != owner
    requires allowed + 1 <= INITIAL_SUPPLY
    ensures r == Err(InsufficientAllowance)
    ensures Reason(r.error) == "Unicorns: Check for approved token count failed"
    ensures balance == allowed + 1 && allowance == allowed
  {
    var token := new Unicorns(owner, owner);
    var t := token.Transfer(owner, burner, allowed + 1);
    var a := token.Approve(burner, owner, allowed);
    r := token.Burn(owner, burner, allowed + 1);
    balance := token.BalanceOf(burner);
    allowance := token.Allowance(burner, owner);
  }
}
