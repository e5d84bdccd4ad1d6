/** The deployed Unicorns token: mutable mappings and a supply counter that
    each call updates in place. Every method is proved against its transition
    in module Ledger (`Transfer` against `TransferTo`, the others against the
    function of the same name), so everything proved there about a call holds
    of the object too. */
module Token {
  import opened Sums
  import opened Ledger

  /** The events a call logs, or the reason it reverted. */
  function Logs(r: Result<Receipt>): (l: Result<seq<Event>>)
    ensures l.Ok? <==> r.Ok?
    ensures r.Ok? ==> l.value == r.value.logs
    ensures r.Err? ==> l.error == r.error
  {
    if r.Ok? then Ok(r.value.logs) else Err(r.error)
  }

  class Unicorns {
    var balances: map<Addr, nat>
    var allowances: map<(Addr, Addr), nat>
    var totalSupply: nat
    const owner: Addr

    /** The ledger this object currently holds. */
    ghost function Abs(): State
      reads this
    {
      State(balances, allowances, totalSupply, owner)
    }

    ghost predicate Valid()
      reads this
    {
      Good(Abs())
    }

    /** Deployment by `deployer`, minting the initial supply to `initialHolder`. */
    constructor (deployer: Addr, initialHolder: Addr)
      requires deployer != ZERO && initialHolder != ZERO
      ensures Valid()
      ensures Deploy(deployer, initialHolder) == Ok(Abs())
    {
      balances := map[initialHolder := INITIAL_SUPPLY];
      allowances := map[];
      totalSupply := INITIAL_SUPPLY;
      owner := deployer;
      new;
      assert Deploy(deployer, initialHolder).Ok?;
    }

    method TotalSupply() returns (n: nat)
      requires Valid()
      ensures n == Sum(balances)
    {
      n := totalSupply;
    }

    method BalanceOf(account: Addr) returns (b: nat)
      requires Valid()
      ensures b == Ledger.BalanceOf(Abs(), account)
      ensures b <= totalSupply
    {
      b := Get(balances, account);
      BalanceBelowSupply(Abs(), account);
    }

    method Allowance(holder: Addr, spender: Addr) returns (a: nat)
      ensures a == Ledger.Allowance(Abs(), holder, spender)
    {
      a := Get(allowances, (holder, spender));
    }

    method Transfer(caller: Addr, to: Addr, amount: nat) returns (r: Result<seq<Event>>)
      requires Valid()
      modifies this
      ensures Valid()
      ensures r == Logs(TransferTo(old(Abs()), caller, to, amount))
      ensures Abs() == After(old(Abs()), TransferTo(old(Abs()), caller, to, amount))
    {
      TransferKeepsGood(Abs(), caller, to, amount);
      if caller == ZERO || to == ZERO {
        return Err(ZeroAddress);
      }
      var fromBalance := Get(balances, caller);
      if amount > fromBalance {
        return Err(InsufficientBalance);
      }
      balances := balances[caller := fromBalance - amount];
      balances := balances[to := Get(balances, to) + amount];
      r := Ok([Ledger.Transfer(caller, to, amount)]);
    }

    method Approve(caller: Addr, spender: Addr, amount: nat) returns (r: Result<seq<Event>>)
      requires Valid()
      modifies this
      ensures Valid()
      ensures r == Logs(Ledger.Approve(old(Abs()), caller, spender, amount))
      ensures Abs() == After(old(Abs()), Ledger.Approve(old(Abs()), caller, spender, amount))
    {
      if caller == ZERO || spender == ZERO {
        return Err(ZeroAddress);
      }
      allowances := allowances[(caller, spender) := amount];
      r := Ok([Approval(caller, spender, amount)]);
    }

    method Burn(caller: Addr, target: Addr, amount: nat) returns (r: Result<seq<Event>>)
      requires Valid()
      modifies this
      ensures Valid()
      ensures r == Logs(Ledger.Burn(old(Abs()), caller, target, amount))
      ensures Abs() == After(old(Abs()), Ledger.Burn(old(Abs()), caller, target, amount))
    {
      BurnKeepsGood(Abs(), caller, target, amount);
      BalanceBelowSupply(Abs(), target);
      if caller != owner {
        return Err(Unauthorized);
      }
      if target == ZERO {
        return Err(ZeroAddress);
      }
      var balance := Get(balances, target);
      var logs: seq<Event> := [];
      if target != owner {
        var allowed := Get(allowances, (target, owner));
        if amount > allowed {
          return Err(InsufficientAllowance);
        }
        if amount > balance {
          return Err(InsufficientBalance);
        }
        allowances := allowances[(target, owner) := allowed - amount];
        logs := [Approval(target, owner, allowed - amount)];
      } else if amount > balance {
        return Err(InsufficientBalance);
      }
      assert logs + [Ledger.Transfer(target, ZERO, amount)] == Ledger.Burn(old(Abs()), caller, target, amount).value.logs;
      balances := balances[target := balance - amount];
      totalSupply := totalSupply - amount;
      r := Ok(logs + [Ledger.Transfer(target, ZERO, amount)]);
    }
  }
}
