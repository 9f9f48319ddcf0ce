/**
 * The fungible token that accompanies KoloX: a ledger of balances per
 * principal with a total supply, changed by mint (by the contract owner),
 * transfer (by the sender itself) and burn (by the holder itself), and read
 * by get-balance.
 *
 * The ledger's invariant is that the supply is the sum of all balances.  The
 * map-level functions below say what each call does to the balances and how
 * the sum moves; the class keeps the map and the supply and applies them.
 */
module Token {
  import opened Wrappers

  type Principal = string

  /** Why a token call was refused. */
  datatype TokenError =
    | NotOwner             // mint by anyone but the contract owner
    | NotSender            // transfer signed by someone other than the sender
    | InvalidAmount        // a zero amount
    | InsufficientBalance  // more than the balance moved or burned
    | SameParty            // a transfer from a principal to itself

  // ---------------------------------------------------------------------------
  // Balances and their sum

  /** A principal's balance; one the ledger never credited holds nothing. */
  function Balance(b: map<Principal, nat>, p: Principal): nat
  {
    if p in b then b[p] else 0
  }

  /** Some holder of a non-empty ledger, the one `Total` takes first. */
  ghost function Pick(b: map<Principal, nat>): (p: Principal)
    requires b != map[]
    ensures p in b
  {
    var p :| p in b; p
  }

  /** The sum of all balances. */
  ghost function Total(b: map<Principal, nat>): nat
    decreases |b|
  {
    if b == map[] then 0
    else
      var p := Pick(b);
      assert |b - {p}| < |b| by { assert (b - {p}).Keys < b.Keys; }
      b[p] + Total(b - {p})
  }

  /** The sum does not depend on which holder is taken first. */
  lemma {:induction false} TotalWithout(b: map<Principal, nat>, p: Principal)
    requires p in b
    ensures Total(b) == b[p] + Total(b - {p})
    decreases |b|
  {
    var q := Pick(b);
    if q != p {
      var withoutQ, withoutP := b - {q}, b - {p};
      assert |withoutQ| < |b| by { assert withoutQ.Keys < b.Keys; }
      assert |withoutP| < |b| by { assert withoutP.Keys < b.Keys; }
      TotalWithout(withoutQ, p);
      TotalWithout(withoutP, q);
      assert withoutQ - {p} == withoutP - {q};
    }
  }

  /** No balance exceeds the sum of all balances. */
  lemma BalanceWithinTotal(b: map<Principal, nat>, p: Principal)
    ensures Balance(b, p) <= Total(b)
  {
    if p in b {
      TotalWithout(b, p);
    }
  }

  /** Setting one balance moves the sum by the difference. */
  lemma TotalAfterSet(b: map<Principal, nat>, p: Principal, v: nat)
    ensures Total(b[p := v]) + Balance(b, p) == Total(b) + v
  {
    var after := b[p := v];
    TotalWithout(after, p);
    if p in b {
      TotalWithout(b, p);
      assert after - {p} == b - {p};
    } else {
      assert after - {p} == b;
    }
  }

  // ---------------------------------------------------------------------------
  // What each call does to the balances

  /** mint: `p` receives `amount` new tokens. */
  function Credited(b: map<Principal, nat>, p: Principal, amount: nat): (r: map<Principal, nat>)
    ensures Balance(r, p) == Balance(b, p) + amount
    ensures forall q :: q != p ==> Balance(r, q) == Balance(b, q)
    ensures Total(r) == Total(b) + amount
  {
    TotalAfterSet(b, p, Balance(b, p) + amount);
    b[p := Balance(b, p) + amount]
  }

  /** burn: `amount` of `p`'s tokens are destroyed. */
  function Debited(b: map<Principal, nat>, p: Principal, amount: nat): (r: map<Principal, nat>)
    requires amount <= Balance(b, p)
    ensures Balance(r, p) + amount == Balance(b, p)
    ensures forall q :: q != p ==> Balance(r, q) == Balance(b, q)
    ensures Total(r) + amount == Total(b)
  {
    TotalAfterSet(b, p, Balance(b, p) - amount);
    b[p := Balance(b, p) - amount]
  }

  /** transfer: `amount` moves from `sender` to `recipient`; the sum is unchanged. */
  function Moved(b: map<Principal, nat>, sender: Principal, recipient: Principal, amount: nat)
    : (r: map<Principal, nat>)
    requires sender != recipient && amount <= Balance(b, sender)
    ensures Balance(r, sender) + amount == Balance(b, sender)
    ensures Balance(r, recipient) == Balance(b, recipient) + amount
    ensures forall q :: q != sender && q != recipient ==> Balance(r, q) == Balance(b, q)
    ensures Total(r) == Total(b)
  {
    Credited(Debited(b, sender, amount), recipient, amount)
  }

  /** Burning what was just minted restores every balance and the sum. */
  lemma BurnUndoesMint(b: map<Principal, nat>, p: Principal, amount: nat)
    ensures var r := Debited(Credited(b, p, amount), p, amount);
      (forall q :: Balance(r, q) == Balance(b, q)) && Total(r) == Total(b)
  {
    var r := Debited(Credited(b, p, amount), p, amount);
    forall q ensures Balance(r, q) == Balance(b, q) {
      if q != p {
        assert Balance(Credited(b, p, amount), q) == Balance(b, q);
      }
    }
  }

  /** Transferring an amount back returns every balance to where it was. */
  lemma TransferBack(b: map<Principal, nat>, sender: Principal, recipient: Principal, amount: nat)
    requires sender != recipient && amount <= Balance(b, sender)
    ensures var there := Moved(b, sender, recipient, amount);
      amount <= Balance(there, recipient) &&
      forall q :: Balance(Moved(there, recipient, sender, amount), q) == Balance(b, q)
  {
  }

  // ---------------------------------------------------------------------------
  // The ledger

  class TokenLedger {
    /** The principal that deployed the contract; the only one allowed to mint. */
    const owner: Principal
    var balances: map<Principal, nat>
    var supply: nat

    /** The supply is the sum of all balances. */
    ghost predicate Valid()
      reads this
    {
      supply == Total(balances)
    }

    /** Deploying the contract: no tokens yet. */
    constructor(deployer: Principal)
      ensures Valid() && owner == deployer && balances == map[] && supply == 0
    {
      owner := deployer;
      balances := map[];
      supply := 0;
    }

    /** get-balance: answers `(ok …)` with what `p` holds, never more than the supply. */
    function GetBalance(p: Principal): (r: Result<nat, TokenError>)
      reads this
      requires Valid()
      ensures r.Ok?
      ensures r.value <= supply
      ensures p !in balances ==> r.value == 0
    {
      BalanceWithinTotal(balances, p);
      Ok(Balance(balances, p))
    }

    /** mint: the owner creates `amount` tokens for `recipient`. */
    method Mint(amount: nat, recipient: Principal, caller: Principal) returns (r: Result<bool, TokenError>)
      requires Valid()
      modifies this
      ensures Valid()
      ensures r.Ok? <==> caller == owner && amount > 0
      ensures caller != owner ==> r == Err(NotOwner)
      ensures r.Err? ==> unchanged(this)
      ensures r.Ok? ==>
        r.value && balances == Credited(old(balances), recipient, amount) && supply == old(supply) + amount
    {
      if caller != owner { return Err(NotOwner); }
      if amount == 0 { return Err(InvalidAmount); }
      balances := Credited(balances, recipient, amount);
      supply := supply + amount;
      r := Ok(true);
    }

    /** transfer: `sender`, signing the call itself, moves `amount` to `recipient`. */
    method Transfer(amount: nat, sender: Principal, recipient: Principal, caller: Principal)
      returns (r: Result<bool, TokenError>)
      requires Valid()
      modifies this
      ensures Valid()
      ensures r.Ok? <==>
        caller == sender && amount > 0 && amount <= Balance(old(balances), sender) && sender != recipient
      ensures caller != sender ==> r == Err(NotSender)
      ensures r == Err(InsufficientBalance) ==> Balance(old(balances), sender) < amount
      ensures r.Err? ==> unchanged(this)
      ensures r.Ok? ==>
        r.value && balances == Moved(old(balances), sender, recipient, amount) && supply == old(supply)
    {
      if caller != sender { return Err(NotSender); }
      if amount == 0 { return Err(InvalidAmount); }
      if Balance(balances, sender) < amount { return Err(InsufficientBalance); }
      if sender == recipient { return Err(SameParty); }
      balances := Moved(balances, sender, recipient, amount);
      r := Ok(true);
    }

    /** burn: the caller destroys `amount` of its own tokens. */
    method Burn(amount: nat, caller: Principal) returns (r: Result<bool, TokenError>)
      requires Valid()
      modifies this
      ensures Valid()
      ensures r.Ok? <==> amount > 0 && amount <= Balance(old(balances), caller)
      ensures r == Err(InsufficientBalance) ==> Balance(old(balances), caller) < amount
      ensures r.Err? ==> unchanged(this)
      ensures r.Ok? ==>
        r.value && balances == Debited(old(balances), caller, amount) && supply + amount == old(supply)
    {
      if amount == 0 { return Err(InvalidAmount); }
      if Balance(balances, caller) < amount { return Err(InsufficientBalance); }
      balances := Debited(balances, caller, amount);
      supply := supply - amount;
      r := Ok(true);
    }
  }

  // ---------------------------------------------------------------------------
  // The four token walkthroughs: a deployer and two wallets

  const DEPLOYER: Principal := "deployer"
  const WALLET1: Principal := "wallet_1"
  const WALLET2: Principal := "wallet_2"

  /** The deployer mints 1,000 to wallet 1. */
  method MintToWallet() returns (r: Result<bool, TokenError>)
    ensures r == Ok(true)
  {
    var token := new TokenLedger(DEPLOYER);
    r := token.Mint(1000, WALLET1, DEPLOYER);
  }

  /** After a mint of 1,000, wallet 1 transfers 500 of it to wallet 2. */
  method TransferBetweenWallets() returns (r: Result<bool, TokenError>, from: Result<nat, TokenError>, to: Result<nat, TokenError>)
    ensures r == Ok(true) && from == Ok(500) && to == Ok(500)
  {
    var token := new TokenLedger(DEPLOYER);
    var _ := token.Mint(1000, WALLET1, DEPLOYER);
    r := token.Transfer(500, WALLET1, WALLET2, WALLET1);
    from := token.GetBalance(WALLET1);
    to := token.GetBalance(WALLET2);
  }

  /** After a mint of 1,000, get-balance for wallet 1 answers 1,000. */
  method CheckBalance() returns (balance: Result<nat, TokenError>)
    ensures balance == Ok(1000)
  {
    var token := new TokenLedger(DEPLOYER);
    var _ := token.Mint(1000, WALLET1, DEPLOYER);
    balance := token.GetBalance(WALLET1);
  }

  /** After a mint of 1,000, wallet 1 burns 300 and is left with 700. */
  method BurnTokens() returns (r: Result<bool, TokenError>, balance: Result<nat, TokenError>)
    ensures r == Ok(true) && balance == Ok(700)
  {
    var token := new TokenLedger(DEPLOYER);
    var _ := token.Mint(1000, WALLET1, DEPLOYER);
    r := token.Burn(300, WALLET1);
    balance := token.GetBalance(WALLET1);
  }
}
