/**
 * The vault factory and the vaults it creates, as the contract test suite
 * (test/Praxos.test.js) fixes their behaviour: creation-time validation of
 * a vault configuration, the factory's registry of vaults, each vault's
 * allocation table kept by its owner, deposits in the style of the
 * `deposit(assets, receiver)` method of EIP-4626, and single-step ownership.
 *
 * Every contract call is atomic: a call that fails leaves all state as it
 * was. Addresses are natural numbers, 0 being the zero address.
 */
module Praxos {

  type Address = nat
  const ZeroAddress: Address := 0

  /** A `uint8`, the type of the risk tier in the `VaultCreated` event. */
  type Uint8 = x: int | 0 <= x < 256

  /** 100% in basis points. */
  const WeightTotal: nat := 10000

  /** The largest `uint256`: an allowance this large is never used up. */
  const MaxUint256: nat := 0x1_0000_0000_0000_0000_0000_0000_0000_0000_0000_0000_0000_0000_0000_0000_0000_0000 - 1

  /** The reasons a call reverts. */
  datatype Error =
    | InvalidBaseAsset          // "Invalid base asset"
    | MismatchedArrays          // "Mismatched arrays"
    | NoAssetsProvided          // "No assets provided"
    | WeightsMustSumTo10000     // "Weights must sum to 10000"
    | Unauthorized              // OwnableUnauthorizedAccount
    | InvalidOwner              // OwnableInvalidOwner
    | AssetAlreadyAdded         // "Asset already added"
    | InvalidAsset              // "Invalid asset"
    | ZeroWeight                // "Weight must be > 0"
    | AssetNotFound             // "Asset not found"
    | InsufficientAllowance     // ERC20InsufficientAllowance
    | InsufficientBalance       // ERC20InsufficientBalance
    | InvalidReceiver           // ERC20InvalidReceiver

  datatype Option<T> = None | Some(value: T)
  datatype Result<T> = Ok(value: T) | Err(error: Error)
  datatype Outcome = Pass | Fail(error: Error)

  datatype VaultConfig = VaultConfig(
    baseAsset: Address,
    name: string,
    symbol: string,
    strategy: string,
    riskTier: Uint8,
    targetDuration: nat,
    assets: seq<Address>,
    weights: seq<nat>)

  // ---------------------------------------------------------------------
  // Sequences
  // ---------------------------------------------------------------------

  ghost predicate Distinct<T>(s: seq<T>)
  {
    forall i, j :: 0 <= i < j < |s| ==> s[i] != s[j]
  }

  function Sum(ws: seq<nat>): nat
  {
    if |ws| == 0 then 0 else Sum(ws[..|ws| - 1]) + ws[|ws| - 1]
  }

  /** The position of `x` in `s`. */
  function IndexOf<T(==)>(s: seq<T>, x: T): (i: nat)
    requires x in s
    ensures i < |s| && s[i] == x
    ensures forall j :: 0 <= j < i ==> s[j] != x
  {
    if s[0] == x then 0 else 1 + IndexOf(s[1..], x)
  }

  function RemoveAt<T>(s: seq<T>, i: nat): (r: seq<T>)
    requires i < |s|
    ensures |r| == |s| - 1
  {
    s[..i] + s[i + 1..]
  }

  // ---------------------------------------------------------------------
  // Configuration checks of createVault
  // ---------------------------------------------------------------------

  /** The four checks of `createVault`, in order; the first that fails is
      the one reported. */
  function ConfigError(c: VaultConfig): Option<Error>
  {
    if c.baseAsset == ZeroAddress then Some(InvalidBaseAsset)
    else if |c.assets| != |c.weights| then Some(MismatchedArrays)
    else if |c.assets| == 0 then Some(NoAssetsProvided)
    else if Sum(c.weights) != WeightTotal then Some(WeightsMustSumTo10000)
    else None
  }

  // ---------------------------------------------------------------------
  // The allocation table
  // ---------------------------------------------------------------------

  /** Parallel sequences, no asset twice, never the zero address. */
  ghost predicate ValidTable(assets: seq<Address>, weights: seq<nat>)
  {
    |assets| == |weights| && Distinct(assets) && ZeroAddress !in assets
  }

  ghost predicate PositiveWeights(weights: seq<nat>)
  {
    forall j :: 0 <= j < |weights| ==> weights[j] > 0
  }

  /** The checks `addAsset` makes once the caller is known to be the owner. */
  function InsertCheck(assets: seq<Address>, asset: Address, weight: nat): Outcome
  {
    if asset in assets then Fail(AssetAlreadyAdded)
    else if asset == ZeroAddress then Fail(InvalidAsset)
    else if weight == 0 then Fail(ZeroWeight)
    else Pass
  }

  /** Seeding the table of a new vault from position `i` on, one `addAsset`
      per (asset, weight) pair: the first insertion that fails. */
  function SeedErrorFrom(assets: seq<Address>, weights: seq<nat>, i: nat): Option<Error>
    requires |assets| == |weights| && i <= |assets|
    decreases |assets| - i
  {
    if i == |assets| then None
    else match InsertCheck(assets[..i], assets[i], weights[i])
      case Fail(e) => Some(e)
      case Pass => SeedErrorFrom(assets, weights, i + 1)
  }

  /** Why `createVault` reverts, if it does. */
  function CreateError(c: VaultConfig): Option<Error>
  {
    if ConfigError(c).Some? then ConfigError(c)
    else SeedErrorFrom(c.assets, c.weights, 0)
  }

  // ---------------------------------------------------------------------
  // Deposits
  // ---------------------------------------------------------------------

  /** The depositor's base-asset balance and the allowance it granted the
      vault, as the base-asset token holds them. */
  datatype Payer = Payer(balance: nat, allowance: nat)

  datatype Deposited = Deposited(shares: nat, payer: Payer)

  /** `transferFrom(payer, vault, amount)` of the base asset: the allowance
      is checked before the balance. */
  function TransferCheck(payer: Payer, amount: nat): Outcome
  {
    if payer.allowance < amount then Fail(InsufficientAllowance)
    else if payer.balance < amount then Fail(InsufficientBalance)
    else Pass
  }

  function Debit(payer: Payer, amount: nat): (r: Payer)
    requires TransferCheck(payer, amount).Pass?
    ensures r.balance + amount == payer.balance
    ensures r.allowance == if payer.allowance == MaxUint256 then MaxUint256 else payer.allowance - amount
  {
    Payer(payer.balance - amount,
          if payer.allowance == MaxUint256 then payer.allowance else payer.allowance - amount)
  }

  /** Shares minted for `amount`: one for one into an empty vault, else in
      proportion to the shares already issued, rounded down. */
  function SharesFor(amount: nat, supply: nat, total: nat): nat
  {
    if total == 0 then amount else amount * supply / total
  }

  // ---------------------------------------------------------------------
  // PraxosVault
  // ---------------------------------------------------------------------

  class Vault {
    const baseAsset: Address
    const name: string
    const symbol: string
    const strategy: string
    const riskTier: Uint8
    const targetDuration: nat

    var owner: Address
    var assets: seq<Address>
    var weights: seq<nat>
    var shares: map<Address, nat>
    var totalSupply: nat
    var totalAssets: nat

    /** The allocation table is well formed, and shares track deposits one
        for one (no withdrawal and no yield exist). */
    ghost predicate Valid()
      reads this
    {
      ValidTable(assets, weights) && totalSupply == totalAssets
    }

    /** The vault the factory deploys, owned by `initialOwner`, with an
        empty allocation table and nothing deposited. */
    constructor (c: VaultConfig, initialOwner: Address)
      ensures Valid()
      ensures baseAsset == c.baseAsset && name == c.name && symbol == c.symbol
      ensures strategy == c.strategy && riskTier == c.riskTier && targetDuration == c.targetDuration
      ensures owner == initialOwner
      ensures assets == [] && weights == [] && shares == map[]
      ensures totalSupply == 0 && totalAssets == 0
    {
      baseAsset, name, symbol := c.baseAsset, c.name, c.symbol;
      strategy, riskTier, targetDuration := c.strategy, c.riskTier, c.targetDuration;
      owner := initialOwner;
      assets, weights, shares := [], [], map[];
      totalSupply, totalAssets := 0, 0;
    }

    /** The parallel (assets, weights) arrays, in insertion order. */
    function GetAllocations(): (r: (seq<Address>, seq<nat>))
      reads this
      ensures Valid() ==> |r.0| == |r.1| && ZeroAddress !in r.0
    {
      (assets, weights)
    }

    function GetAssetCount(): (n: nat)
      reads this
      ensures n == |GetAllocations().0|
      ensures Valid() ==> n == |GetAllocations().1|
    {
      |assets|
    }

    function IsSupportedAsset(asset: Address): (b: bool)
      reads this
      ensures b <==> asset in GetAllocations().0
      ensures Valid() && asset == ZeroAddress ==> !b
    {
      asset in assets
    }

    /** Share balance; an account that never received shares holds 0. */
    function BalanceOf(holder: Address): (b: nat)
      reads this
      ensures holder !in shares ==> b == 0
      ensures b > 0 ==> holder in shares
    {
      if holder in shares then shares[holder] else 0
    }

    /** (strategy, risk tier, target duration, asset count). */
    function GetVaultInfo(): (r: (string, Uint8, nat, nat))
      reads this
      ensures r.3 == GetAssetCount()
      ensures r.0 == strategy && r.1 == riskTier && r.2 == targetDuration
    {
      (strategy, riskTier, targetDuration, |assets|)
    }

    method AddAsset(caller: Address, asset: Address, weight: nat) returns (o: Outcome)
      requires Valid()
      modifies this
      ensures Valid()
      ensures caller != old(owner) ==> o == Fail(Unauthorized)
      ensures caller == old(owner) ==> o == InsertCheck(old(assets), asset, weight)
      ensures o.Pass? ==> assets == old(assets) + [asset] && weights == old(weights) + [weight]
      ensures o.Pass? ==> owner == old(owner) && shares == old(shares)
      ensures o.Pass? ==> totalSupply == old(totalSupply) && totalAssets == old(totalAssets)
      ensures o.Fail? ==> unchanged(this)
    {
      if caller != owner {
        return Fail(Unauthorized);
      }
      o := InsertCheck(assets, asset, weight);
      if o.Pass? {
        assets, weights := assets + [asset], weights + [weight];
      }
    }

    /** Replaces the weight of `asset` in place; the result carries the
        (old, new) pair of the `AllocationUpdated` event. */
    method UpdateAllocation(caller: Address, asset: Address, newWeight: nat)
      returns (r: Result<(nat, nat)>)
      requires Valid()
      modifies this
      ensures Valid()
      ensures caller != old(owner) ==> r == Err(Unauthorized)
      ensures caller == old(owner) && asset !in old(assets) ==> r == Err(AssetNotFound)
      ensures caller == old(owner) && asset in old(assets) ==>
        var i := IndexOf(old(assets), asset);
        && r == Ok((old(weights)[i], newWeight))
        && assets == old(assets)
        && weights == old(weights)[i := newWeight]
        && owner == old(owner) && shares == old(shares)
        && totalSupply == old(totalSupply) && totalAssets == old(totalAssets)
      ensures r.Err? ==> unchanged(this)
    {
      if caller != owner {
        return Err(Unauthorized);
      }
      if asset !in assets {
        return Err(AssetNotFound);
      }
      var i := IndexOf(assets, asset);
      r := Ok((weights[i], newWeight));
      weights := weights[i := newWeight];
    }

    /** Drops `asset` and its weight; the others keep their order. The
        result carries the asset of the `AssetRemoved` event. */
    method RemoveAsset(caller: Address, asset: Address) returns (r: Result<Address>)
      requires Valid()
      modifies this
      ensures Valid()
      ensures caller != old(owner) ==> r == Err(Unauthorized)
      ensures caller == old(owner) && asset !in old(assets) ==> r == Err(AssetNotFound)
      ensures caller == old(owner) && asset in old(assets) ==>
        var i := IndexOf(old(assets), asset);
        && r == Ok(asset)
        && assets == RemoveAt(old(assets), i)
        && weights == RemoveAt(old(weights), i)
        && owner == old(owner) && shares == old(shares)
        && totalSupply == old(totalSupply) && totalAssets == old(totalAssets)
      ensures r.Ok? ==> !IsSupportedAsset(asset) && GetAssetCount() == old(GetAssetCount()) - 1
      ensures r.Err? ==> unchanged(this)
    {
      if caller != owner {
        return Err(Unauthorized);
      }
      if asset !in assets {
        return Err(AssetNotFound);
      }
      var i := IndexOf(assets, asset);
      RemovePreservesTable(assets, weights, i);
      assets, weights := RemoveAt(assets, i), RemoveAt(weights, i);
      r := Ok(asset);
    }

    /** `deposit(amount, receiver)` called by `caller`, whose base-asset
        account is `payer`. */
    method Deposit(caller: Address, amount: nat, receiver: Address, payer: Payer)
      returns (r: Result<Deposited>)
      requires Valid()
      modifies this
      ensures Valid()
      ensures TransferCheck(payer, amount).Fail? ==> r == Err(TransferCheck(payer, amount).error)
      ensures TransferCheck(payer, amount).Pass? && receiver == ZeroAddress ==> r == Err(InvalidReceiver)
      ensures TransferCheck(payer, amount).Pass? && receiver != ZeroAddress ==>
        && r.Ok?
        && r.value.shares == SharesFor(amount, old(totalSupply), old(totalAssets))
        && r.value.payer == Debit(payer, amount)
        && totalAssets == old(totalAssets) + amount
        && totalSupply == old(totalSupply) + r.value.shares
        && shares == old(shares)[receiver := old(BalanceOf(receiver)) + r.value.shares]
        && owner == old(owner) && assets == old(assets) && weights == old(weights)
      ensures r.Ok? ==> r.value.shares == amount
      ensures r.Err? ==> unchanged(this)
    {
      var check := TransferCheck(payer, amount);
      if check.Fail? {
        return Err(check.error);
      }
      if receiver == ZeroAddress {
        return Err(InvalidReceiver);
      }
      var minted := SharesFor(amount, totalSupply, totalAssets);
      SharesOneForOne(amount, totalSupply, totalAssets);
      shares := shares[receiver := BalanceOf(receiver) + minted];
      totalSupply := totalSupply + minted;
      totalAssets := totalAssets + amount;
      r := Ok(Deposited(minted, Debit(payer, amount)));
    }

    /** Single-step `transferOwnership`, as in OpenZeppelin's `Ownable`. */
    method TransferOwnership(caller: Address, newOwner: Address) returns (o: Outcome)
      requires Valid()
      modifies this
      ensures Valid()
      ensures caller != old(owner) ==> o == Fail(Unauthorized)
      ensures caller == old(owner) && newOwner == ZeroAddress ==> o == Fail(InvalidOwner)
      ensures caller == old(owner) && newOwner != ZeroAddress ==> o == Pass
      ensures o.Pass? ==> owner == newOwner && assets == old(assets) && weights == old(weights)
      ensures o.Pass? ==> shares == old(shares) && totalSupply == old(totalSupply) && totalAssets == old(totalAssets)
      ensures o.Fail? ==> unchanged(this)
    {
      if caller != owner {
        return Fail(Unauthorized);
      }
      if newOwner == ZeroAddress {
        return Fail(InvalidOwner);
      }
      owner := newOwner;
      o := Pass;
    }
  }

  // ---------------------------------------------------------------------
  // PraxosFactory
  // ---------------------------------------------------------------------

  /** The `VaultCreated(vault, creator, strategy, riskTier)` event. */
  datatype VaultCreated = VaultCreated(vault: Vault, creator: Address, strategy: string, riskTier: Uint8)

  class Factory {
    /** The factory contract's own address. */
    const self: Address
    var owner: Address
    var vaults: seq<Vault>
    var log: seq<VaultCreated>

    /** The registry never holds a vault twice, and there is one creation
        event per registered vault, in the same order. */
    ghost predicate Valid()
      reads this
    {
      && Distinct(vaults)
      && |log| == |vaults|
      && forall i :: 0 <= i < |log| ==> log[i].vault == vaults[i]
    }

    /** Deployment by `deployer`, which becomes the factory's owner. A
        deployed contract's address is never the zero address. */
    constructor (deployer: Address, factoryAddress: Address)
      requires factoryAddress != ZeroAddress
      ensures Valid()
      ensures self == factoryAddress && owner == deployer
      ensures vaults == [] && log == []
    {
      self := factoryAddress;
      owner := deployer;
      vaults, log := [], [];
    }

    function GetVaultCount(): (n: nat)
      reads this
      ensures n == |GetAllVaults()|
    {
      |vaults|
    }

    function IsVault(v: Vault): (b: bool)
      reads this
      ensures b <==> v in GetAllVaults()
    {
      v in vaults
    }

    /** The registry, in creation order; each vault has its creation event
        at the same position of the log. */
    function GetAllVaults(): (r: seq<Vault>)
      reads this
      ensures Valid() ==> Distinct(r) && |r| == |log|
      ensures Valid() ==> forall i :: 0 <= i < |r| ==> log[i].vault == r[i]
    {
      vaults
    }

    /** `createVault(config)` sent by `caller`. The factory deploys the vault
        as its owner, seeds the table with one `addAsset` per pair, and hands
        the vault to the caller unless the caller is the factory's owner. */
    method CreateVault(caller: Address, c: VaultConfig) returns (r: Result<Vault>)
      requires Valid()
      requires caller != ZeroAddress
      modifies this
      ensures Valid()
      ensures owner == old(owner)
      ensures r.Err? <==> CreateError(c).Some?
      ensures r.Err? ==> r.error == CreateError(c).value && vaults == old(vaults) && log == old(log)
      ensures r.Ok? ==>
        var v := r.value;
        && fresh(v)
        && vaults == old(vaults) + [v]
        && log == old(log) + [VaultCreated(v, caller, c.strategy, c.riskTier)]
        && IsVault(v) && GetVaultCount() == old(GetVaultCount()) + 1
        && v.Valid()
        && v.owner == (if caller != owner then caller else self)
        && v.baseAsset == c.baseAsset && v.name == c.name && v.symbol == c.symbol
        && v.strategy == c.strategy && v.riskTier == c.riskTier && v.targetDuration == c.targetDuration
        && v.assets == c.assets && v.weights == c.weights
        && v.shares == map[] && v.totalSupply == 0 && v.totalAssets == 0
    {
      if c.baseAsset == ZeroAddress {
        return Err(InvalidBaseAsset);
      }
      if |c.assets| != |c.weights| {
        return Err(MismatchedArrays);
      }
      if |c.assets| == 0 {
        return Err(NoAssetsProvided);
      }
      var total := 0;
      var i := 0;
      while i < |c.weights|
        invariant 0 <= i <= |c.weights|
        invariant total == Sum(c.weights[..i])
      {
        assert c.weights[..i + 1][..i] == c.weights[..i];
        total := total + c.weights[i];
        i := i + 1;
      }
      assert c.weights[..i] == c.weights;
      if total != WeightTotal {
        return Err(WeightsMustSumTo10000);
      }

      var v := new Vault(c, self);
      i := 0;
      while i < |c.assets|
        modifies v
        invariant 0 <= i <= |c.assets|
        invariant v.Valid() && v.owner == self
        invariant v.assets == c.assets[..i] && v.weights == c.weights[..i]
        invariant v.shares == map[] && v.totalSupply == 0 && v.totalAssets == 0
        invariant SeedErrorFrom(c.assets, c.weights, i) == SeedErrorFrom(c.assets, c.weights, 0)
      {
        var o := v.AddAsset(self, c.assets[i], c.weights[i]);
        if o.Fail? {
          return Err(o.error);
        }
        assert c.assets[..i + 1] == c.assets[..i] + [c.assets[i]];
        assert c.weights[..i + 1] == c.weights[..i] + [c.weights[i]];
        i := i + 1;
      }
      assert c.assets[..i] == c.assets && c.weights[..i] == c.weights;

      if caller != owner {
        var o := v.TransferOwnership(self, caller);
      }
      vaults := vaults + [v];
      log := log + [VaultCreated(v, caller, c.strategy, c.riskTier)];
      r := Ok(v);
    }
  }

  // ---------------------------------------------------------------------
  // Properties
  // ---------------------------------------------------------------------

  /** Seeding succeeds exactly for a table without repeated assets, without
      the zero address and without a zero weight. */
  lemma {:induction false} SeedErrorFromIff(assets: seq<Address>, weights: seq<nat>, i: nat)
    requires |assets| == |weights| && i <= |assets|
    requires Distinct(assets[..i]) && ZeroAddress !in assets[..i] && PositiveWeights(weights[..i])
    ensures SeedErrorFrom(assets, weights, i) == None <==>
      Distinct(assets) && ZeroAddress !in assets && PositiveWeights(weights)
    decreases |assets| - i
  {
    if i == |assets| {
      assert assets[..i] == assets && weights[..i] == weights;
    } else {
      var o := InsertCheck(assets[..i], assets[i], weights[i]);
      if o.Pass? {
        assert assets[..i + 1] == assets[..i] + [assets[i]];
        assert weights[..i + 1] == weights[..i] + [weights[i]];
        SeedErrorFromIff(assets, weights, i + 1);
      } else {
        assert !Distinct(assets) || ZeroAddress in assets || !PositiveWeights(weights) by {
          if assets[i] in assets[..i] {
            var j :| 0 <= j < i && assets[..i][j] == assets[i];
            assert assets[j] == assets[i];
          } else if assets[i] == ZeroAddress {
            assert ZeroAddress in assets;
          } else {
            assert weights[i] == 0;
          }
        }
      }
    }
  }

  /** `createVault` succeeds exactly when the base asset is set, the arrays
      are non-empty and of one length, the weights add up to 10000 and each
      pair passes `addAsset`. */
  lemma CreateSucceedsIff(c: VaultConfig)
    ensures CreateError(c) == None <==>
      && c.baseAsset != ZeroAddress
      && |c.assets| == |c.weights| > 0
      && Sum(c.weights) == WeightTotal
      && Distinct(c.assets) && ZeroAddress !in c.assets && PositiveWeights(c.weights)
  {
    if ConfigError(c) == None {
      assert c.assets[..0] == [] && c.weights[..0] == [];
      SeedErrorFromIff(c.assets, c.weights, 0);
    }
  }

  /** Each of the four configuration faults is reported by its own error,
      in the order base asset, lengths, emptiness, weight sum. */
  lemma ConfigErrors(c: VaultConfig)
    ensures c.baseAsset == ZeroAddress ==> CreateError(c) == Some(InvalidBaseAsset)
    ensures c.baseAsset != ZeroAddress && |c.assets| != |c.weights| ==>
      CreateError(c) == Some(MismatchedArrays)
    ensures c.baseAsset != ZeroAddress && c.assets == [] && c.weights == [] ==>
      CreateError(c) == Some(NoAssetsProvided)
    ensures c.baseAsset != ZeroAddress && |c.assets| == |c.weights| > 0 && Sum(c.weights) != WeightTotal ==>
      CreateError(c) == Some(WeightsMustSumTo10000)
  {
  }

  /** A vault table after a successful creation is well formed, with every
      seeded weight positive and the weights adding up to 10000. */
  lemma CreatedTableValid(c: VaultConfig)
    requires CreateError(c) == None
    ensures ValidTable(c.assets, c.weights) && PositiveWeights(c.weights)
    ensures Sum(c.weights) == WeightTotal
  {
    CreateSucceedsIff(c);
  }

  lemma {:induction false} SumAppend(ws: seq<nat>, w: nat)
    ensures Sum(ws + [w]) == Sum(ws) + w
  {
    assert (ws + [w])[..|ws|] == ws;
  }

  lemma {:induction false} SumUpdate(ws: seq<nat>, i: nat, w: nat)
    requires i < |ws|
    ensures Sum(ws[i := w]) + ws[i] == Sum(ws) + w
    decreases |ws|
  {
    var n := |ws| - 1;
    if i < n {
      assert ws[i := w][..n] == ws[..n][i := w];
      SumUpdate(ws[..n], i, w);
    } else {
      assert ws[i := w][..n] == ws[..n];
    }
  }

  /** `addAsset` succeeds without re-checking that the weights still add
      up to 10000: the total simply grows. */
  lemma WeightTotalNotKept(assets: seq<Address>, weights: seq<nat>, asset: Address, w: nat)
    requires ValidTable(assets, weights) && Sum(weights) == WeightTotal
    requires asset !in assets && asset != ZeroAddress && w > 0
    ensures InsertCheck(assets, asset, w) == Pass
    ensures Sum(weights + [w]) == WeightTotal + w
    ensures asset in assets + [asset] && ValidTable(assets + [asset], weights + [w])
  {
    SumAppend(weights, w);
    AppendPreservesTable(assets, weights, asset, w);
  }

  /** `updateAllocation` does not re-check the total either: any new
      weight, zero included, is accepted, and the total moves by the
      difference while the table stays well formed. */
  lemma UpdateMovesTotal(assets: seq<Address>, weights: seq<nat>, i: nat, w: nat)
    requires ValidTable(assets, weights) && Sum(weights) == WeightTotal && i < |weights|
    ensures Sum(weights[i := w]) == WeightTotal - weights[i] + w
    ensures ValidTable(assets, weights[i := w])
  {
    SumUpdate(weights, i, w);
  }

  lemma AppendPreservesTable(assets: seq<Address>, weights: seq<nat>, asset: Address, w: nat)
    requires ValidTable(assets, weights)
    requires InsertCheck(assets, asset, w) == Pass
    ensures ValidTable(assets + [asset], weights + [w])
    ensures forall b :: b in assets + [asset] <==> b in assets || b == asset
  {
  }

  /** Removing position `i` drops exactly that asset and keeps the table
      well formed. */
  lemma RemovePreservesTable(assets: seq<Address>, weights: seq<nat>, i: nat)
    requires ValidTable(assets, weights) && i < |assets|
    ensures ValidTable(RemoveAt(assets, i), RemoveAt(weights, i))
    ensures assets[i] !in RemoveAt(assets, i)
    ensures forall b :: b in RemoveAt(assets, i) <==> b in assets && b != assets[i]
  {
    var r := RemoveAt(assets, i);
    assert forall j :: 0 <= j < |r| ==> r[j] == if j < i then assets[j] else assets[j + 1];
    forall b | b in assets && b != assets[i]
      ensures b in r
    {
      var j :| 0 <= j < |assets| && assets[j] == b;
      if j < i { assert r[j] == b; } else { assert r[j - 1] == b; }
    }
  }

  /** While shares and deposits are one for one, a deposit mints exactly its
      amount, so a positive first deposit mints 0 < shares <= amount. */
  lemma SharesOneForOne(amount: nat, supply: nat, total: nat)
    requires supply == total
    ensures SharesFor(amount, supply, total) == amount
  {
    if total != 0 {
      DivCancel(amount, total);
    }
  }

  lemma DivCancel(a: nat, b: nat)
    requires b > 0
    ensures (a * b) / b == a
  {
    var q, r := (a * b) / b, (a * b) % b;
    assert a * b == q * b + r && 0 <= r < b;
    assert (a - q) * b == a * b - q * b;
    MulMono(a - q, b);
  }

  lemma {:induction false} MulMono(k: int, b: int)
    requires b > 0
    ensures k >= 1 ==> k * b >= b
    ensures k <= -1 ==> k * b <= -b
    decreases if k < 0 then -k else k
  {
    if k > 1 {
      MulMono(k - 1, b);
      assert k * b == (k - 1) * b + b;
    } else if k < -1 {
      MulMono(k + 1, b);
      assert k * b == (k + 1) * b - b;
    }
  }

  /** The demo vault of scripts/deploy.mjs (weights 4000, 4000 and 2000 over
      three distinct assets) passes every check of `createVault`. */
  lemma DeployConfigAccepted(base: Address, bond: Address, realEstate: Address, startup: Address,
                             name: string, symbol: string, strategy: string)
    requires base != ZeroAddress
    requires bond != ZeroAddress && realEstate != ZeroAddress && startup != ZeroAddress
    requires bond != realEstate && bond != startup && realEstate != startup
    ensures CreateError(VaultConfig(base, name, symbol, strategy, 3, 1095 * 24 * 60 * 60,
                                    [bond, realEstate, startup], [4000, 4000, 2000])) == None
  {
    var c := VaultConfig(base, name, symbol, strategy, 3, 1095 * 24 * 60 * 60,
                         [bond, realEstate, startup], [4000, 4000, 2000]);
    assert c.weights[..2] == [4000, 4000];
    assert [4000, 4000][..1] == [4000];
    assert [4000][..0] == [];
    assert Sum(c.weights) == 10000;
    CreateSucceedsIff(c);
  }
}
