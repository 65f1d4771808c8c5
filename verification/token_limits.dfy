/** The on-chain rule the template spells out (src/contractTemplate.js:9-61):
    the supply constant and the two caps derived from it, the checks of
    `_beforeTokenTransfer`, and the exclusion mapping that the constructor
    seeds and the owner toggles. Balances are given; the ERC20 and Ownable
    bookkeeping behind them is not part of this model. */
module TokenLimits {
  import opened Wrappers

  /** An account, with the zero address standing for "no account". */
  type Address = nat

  const Zero: Address := 0

  /** `10**18`: token units per whole token. */
  const Wei: nat := 1_000_000_000_000_000_000

  /** `2**256`: every `uint256` lies below it. */
  const Uint256Limit: nat :=
    0x1_0000_0000_0000_0000_0000_0000_0000_0000_0000_0000_0000_0000_0000_0000_0000_0000

  type Uint256 = x: int | 0 <= x < Uint256Limit

  /** `TOTAL_SUPPLY = supply * 10**18`. */
  function TotalSupplyOf(supply: nat): nat {
    supply * Wei
  }

  /** `MAX_TRANSACTION_AMOUNT = TOTAL_SUPPLY / 100`. */
  function MaxTransactionAmount(supply: nat): nat {
    TotalSupplyOf(supply) / 100
  }

  /** `MAX_WALLET_AMOUNT = TOTAL_SUPPLY / 50`. */
  function MaxWalletAmount(supply: nat): nat {
    TotalSupplyOf(supply) / 50
  }

  /** The integer divisions are exact: the transaction cap is 1% and the
      wallet cap 2% of the supply in token units, so a wallet may hold twice
      what one transaction may move. */
  lemma CapsAreExact(supply: nat)
    ensures MaxTransactionAmount(supply) * 100 == TotalSupplyOf(supply)
    ensures MaxWalletAmount(supply) * 50 == TotalSupplyOf(supply)
    ensures MaxWalletAmount(supply) == 2 * MaxTransactionAmount(supply)
  {
    var unit := supply * 10_000_000_000_000_000;
    assert TotalSupplyOf(supply) == unit * 100;
    assert MaxTransactionAmount(supply) == unit;
    assert TotalSupplyOf(supply) == (2 * unit) * 50;
    assert MaxWalletAmount(supply) == 2 * unit;
  }

  /** `isExcludedFromLimits[a]`: a Solidity mapping reads `false` for a key
      that was never written. */
  predicate IsExcluded(excluded: map<Address, bool>, a: Address) {
    a in excluded && excluded[a]
  }

  /** Every account excluded under `m1` is also excluded under `m2`. */
  predicate ExclusionsWithin(m1: map<Address, bool>, m2: map<Address, bool>) {
    forall a | a in m1 :: IsExcluded(m1, a) ==> IsExcluded(m2, a)
  }

  /** How a call of the hook ends: it returns, a `require` reverts with its
      reason, or the checked addition `recipientBalance + amount` overflows. */
  datatype TransferOutcome = Allowed | Reverted(reason: string) | Overflow

  const TransferAmountError: string := "Transfer amount exceeds maximum"
  const WalletAmountError: string := "Recipient wallet amount exceeds maximum"

  /** `_beforeTokenTransfer(from, to, amount)` for a token of `supply` whole
      tokens, where the recipient holds `recipientBalance`. A mint skips every
      check; otherwise the transaction cap applies unless the sender or the
      recipient is excluded, and for a non-zero recipient the wallet cap
      applies unless the recipient is excluded. The sum is computed before
      the exclusion is consulted, so an overflowing sum panics even for an
      excluded recipient. */
  function TransferCheck(supply: nat, excluded: map<Address, bool>, from: Address, to: Address,
                         amount: Uint256, recipientBalance: Uint256): (r: TransferOutcome)
    ensures r.Reverted? ==> r.reason == TransferAmountError || r.reason == WalletAmountError
    ensures r == Allowed && from != Zero && !IsExcluded(excluded, from) && !IsExcluded(excluded, to) ==>
      amount <= MaxTransactionAmount(supply)
    ensures r == Allowed && from != Zero && to != Zero && !IsExcluded(excluded, to) ==>
      recipientBalance + amount <= MaxWalletAmount(supply)
  {
    if from == Zero then Allowed
    else if !(amount <= MaxTransactionAmount(supply) || IsExcluded(excluded, from) || IsExcluded(excluded, to)) then
      Reverted(TransferAmountError)
    else if to == Zero then Allowed
    else if recipientBalance + amount >= Uint256Limit then Overflow
    else if !(recipientBalance + amount <= MaxWalletAmount(supply) || IsExcluded(excluded, to)) then
      Reverted(WalletAmountError)
    else Allowed
  }

  /** A mint (a transfer from the zero address) passes whatever its size. */
  lemma MintAlwaysAllowed(supply: nat, excluded: map<Address, bool>, to: Address, amount: Uint256, recipientBalance: Uint256)
    ensures TransferCheck(supply, excluded, Zero, to, amount, recipientBalance) == Allowed
  {
  }

  /** Above the transaction cap, a transfer between two accounts that are not
      excluded reverts with the transaction-cap reason; excluding either side
      lifts exactly that check. */
  lemma TransactionCapRule(supply: nat, excluded: map<Address, bool>, from: Address, to: Address,
                           amount: Uint256, recipientBalance: Uint256)
    requires from != Zero && amount > MaxTransactionAmount(supply)
    ensures TransferCheck(supply, excluded, from, to, amount, recipientBalance) == Reverted(TransferAmountError)
        <==> !IsExcluded(excluded, from) && !IsExcluded(excluded, to)
  {
  }

  /** The wallet cap holds for a non-excluded recipient even when the sender
      is excluded: an excluded sender only escapes the transaction cap. */
  lemma SenderExclusionKeepsWalletCap(supply: nat, excluded: map<Address, bool>, from: Address, to: Address,
                                      amount: Uint256, recipientBalance: Uint256)
    requires from != Zero && to != Zero && IsExcluded(excluded, from) && !IsExcluded(excluded, to)
    requires MaxWalletAmount(supply) < recipientBalance + amount < Uint256Limit
    ensures TransferCheck(supply, excluded, from, to, amount, recipientBalance) == Reverted(WalletAmountError)
  {
  }

  /** A burn (a transfer to the zero address) is held only to the transaction
      cap: the wallet cap and the overflowing sum are never reached. */
  lemma BurnSkipsWalletCap(supply: nat, excluded: map<Address, bool>, from: Address,
                           amount: Uint256, recipientBalance: Uint256)
    requires from != Zero
    ensures TransferCheck(supply, excluded, from, Zero, amount, recipientBalance) == Allowed
        <==> amount <= MaxTransactionAmount(supply) || IsExcluded(excluded, from) || IsExcluded(excluded, Zero)
  {
  }

  /** A smaller transfer to the same recipient passes whenever a larger one
      does. */
  lemma SmallerAmountAllowed(supply: nat, excluded: map<Address, bool>, from: Address, to: Address,
                             amount: Uint256, smaller: Uint256, recipientBalance: Uint256)
    requires smaller <= amount
    requires TransferCheck(supply, excluded, from, to, amount, recipientBalance) == Allowed
    ensures TransferCheck(supply, excluded, from, to, smaller, recipientBalance) == Allowed
  {
  }

  /** Excluding more accounts never turns a passing transfer into a
      reverting one. */
  lemma MoreExclusionsAllowed(supply: nat, excluded: map<Address, bool>, wider: map<Address, bool>,
                              from: Address, to: Address, amount: Uint256, recipientBalance: Uint256)
    requires ExclusionsWithin(excluded, wider)
    requires TransferCheck(supply, excluded, from, to, amount, recipientBalance) == Allowed
    ensures TransferCheck(supply, wider, from, to, amount, recipientBalance) == Allowed
  {
    if IsExcluded(excluded, from) {
      assert IsExcluded(wider, from);
    }
    if IsExcluded(excluded, to) {
      assert IsExcluded(wider, to);
    }
  }

  /** An excluded recipient never trips the wallet cap, whatever it already
      holds (the sum may still overflow). */
  lemma ExcludedRecipientNoWalletRevert(supply: nat, excluded: map<Address, bool>, from: Address, to: Address,
                                        amount: Uint256, recipientBalance: Uint256)
    requires IsExcluded(excluded, to)
    ensures TransferCheck(supply, excluded, from, to, amount, recipientBalance) != Reverted(WalletAmountError)
  {
  }

  /** A transfer within both caps passes, excluded accounts or not, as long
      as the wallet cap itself is below the 256-bit limit. */
  lemma WithinCapsAllowed(supply: nat, excluded: map<Address, bool>, from: Address, to: Address,
                          amount: Uint256, recipientBalance: Uint256)
    requires amount <= MaxTransactionAmount(supply)
    requires to == Zero || recipientBalance + amount <= MaxWalletAmount(supply)
    requires MaxWalletAmount(supply) < Uint256Limit
    ensures TransferCheck(supply, excluded, from, to, amount, recipientBalance) == Allowed
  {
  }

  const NotOwnerError: string := "Ownable: caller is not the owner"

  /** A deployed token: its owner, its own address, the whole-token supply
      written into its source, the exclusion mapping and the balances. */
  class MemeToken {
    const owner: Address
    const self: Address
    const supply: nat
    var isExcludedFromLimits: map<Address, bool>
    var balances: map<Address, nat>

    /** The constructor: the deployer becomes the owner, the deployer and the
        contract are excluded, and the whole supply is minted to the deployer
        through the hook's mint path. A supply whose scaled value does not fit
        a `uint256` does not compile. */
    constructor (deployer: Address, contractAddress: Address, wholeTokens: nat)
      requires TotalSupplyOf(wholeTokens) < Uint256Limit
      ensures owner == deployer && self == contractAddress && supply == wholeTokens
      ensures isExcludedFromLimits == map[deployer := true][contractAddress := true]
      ensures IsExcluded(isExcludedFromLimits, deployer) && IsExcluded(isExcludedFromLimits, contractAddress)
      ensures balances == map[deployer := TotalSupplyOf(wholeTokens)]
    {
      owner := deployer;
      self := contractAddress;
      supply := wholeTokens;
      isExcludedFromLimits := map[deployer := true][contractAddress := true];
      MintAlwaysAllowed(wholeTokens, map[deployer := true][contractAddress := true], deployer,
                        TotalSupplyOf(wholeTokens), 0);
      balances := map[deployer := TotalSupplyOf(wholeTokens)];
    }

    /** `excludeFromLimits(account)`, callable by the owner only: sets the
        account's flag and no other. */
    method ExcludeFromLimits(caller: Address, account: Address) returns (r: Result<()>)
      modifies this
      ensures unchanged(this`balances)
      ensures caller == owner ==> r == Ok(()) && isExcludedFromLimits == old(isExcludedFromLimits)[account := true]
      ensures caller != owner ==> r == Err(NotOwnerError) && isExcludedFromLimits == old(isExcludedFromLimits)
      ensures forall a | a != account :: IsExcluded(isExcludedFromLimits, a) == IsExcluded(old(isExcludedFromLimits), a)
      ensures ExclusionsWithin(old(isExcludedFromLimits), isExcludedFromLimits)
    {
      if caller != owner {
        return Err(NotOwnerError);
      }
      isExcludedFromLimits := isExcludedFromLimits[account := true];
      r := Ok(());
    }

    /** `includeInLimits(account)`, callable by the owner only: clears the
        account's flag and no other. */
    method IncludeInLimits(caller: Address, account: Address) returns (r: Result<()>)
      modifies this
      ensures unchanged(this`balances)
      ensures caller == owner ==> r == Ok(()) && isExcludedFromLimits == old(isExcludedFromLimits)[account := false]
      ensures caller != owner ==> r == Err(NotOwnerError) && isExcludedFromLimits == old(isExcludedFromLimits)
      ensures !IsExcluded(isExcludedFromLimits, account) || caller != owner
      ensures forall a | a != account :: IsExcluded(isExcludedFromLimits, a) == IsExcluded(old(isExcludedFromLimits), a)
    {
      if caller != owner {
        return Err(NotOwnerError);
      }
      isExcludedFromLimits := isExcludedFromLimits[account := false];
      r := Ok(());
    }
  }
}
