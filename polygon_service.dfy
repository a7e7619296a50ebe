/**
 * The Polygon Amoy backend: contract initialisation state, the bytes32
 * encoding of hashes, the real sync with its fallback and error
 * classification, and the on-chain comparison. The contract itself (ethers.js
 * calls, mining) is a parameter: a function from the call to its outcome.
 */
module PolygonService {
  import opened Wrappers
  import opened Text
  import opened Json
  import opened Config
  import opened BlockchainService

  const PolygonAmoyRpc := "https://rpc-amoy.polygon.technology"
  const PolygonExplorer := "https://amoy.polygonscan.com"
  const PolygonNetwork := "polygon-amoy"
  const InitFailedMessage := "Polygon initialization failed"
  const NotEnabledMessage := "Real blockchain not enabled"
  const InsufficientFundsMessage := "Insufficient MATIC for gas fees. Get testnet MATIC from faucet."
  const AlreadySyncedMessage := "Batch already synced to blockchain"

  // ---------------------------------------------------------------
  // Configuration
  // ---------------------------------------------------------------

  /** How a caller's configuration object carries `rpcUrl`: no such key, or the key with a possibly undefined value. */
  datatype RpcField = Omitted | Set(value: Option<string>)

  /** `{ rpcUrl: POLYGON_AMOY_RPC, ...config }` as written: a present key wins even when its value is undefined. */
  function SpreadRpcUrl(field: RpcField): (url: Option<string>)
    ensures field.Omitted? ==> url == Some(PolygonAmoyRpc)
    ensures field.Set? ==> url == field.value
  {
    match field
    case Omitted => Some(PolygonAmoyRpc)
    case Set(v) => v
  }

  /** The sync route passes `rpcUrl: process.env.POLYGON_RPC_URL`; unset, it erases the Amoy default. */
  lemma SpreadRpcUrlErasesDefault()
    ensures SpreadRpcUrl(Set(None)) == None
  {
  }

  /** The evidently intended resolution: the caller's URL when given, the Amoy RPC otherwise. */
  function ResolveRpcUrl(field: RpcField): (url: string)
    ensures field.Set? && Truthy(field.value) ==> url == field.value.value
    ensures !(field.Set? && Truthy(field.value)) ==> url == PolygonAmoyRpc
  {
    if field.Set? && Truthy(field.value) then field.value.value else PolygonAmoyRpc
  }

  /** The intended resolution agrees with the spread whenever the spread yields a URL. */
  lemma ResolveRpcUrlAgrees(field: RpcField)
    ensures Truthy(SpreadRpcUrl(field)) ==> ResolveRpcUrl(field) == SpreadRpcUrl(field).value
    ensures !Truthy(SpreadRpcUrl(field)) ==> ResolveRpcUrl(field) == PolygonAmoyRpc
  {
  }

  datatype PolygonConfig = PolygonConfig(
    useRealBlockchain: bool,
    contractAddress: Option<string>,
    privateKey: Option<string>,
    rpcUrl: Option<string>)

  /** A JSON-RPC provider, created with the merged `rpcUrl` (which may be undefined). */
  datatype Provider = Provider(url: Option<string>)

  // ---------------------------------------------------------------
  // bytes32 encoding and hash normalisation
  // ---------------------------------------------------------------

  function Strip0x(s: string): (r: string)
    ensures StartsWith(s, "0x") ==> r == s[2..]
    ensures !StartsWith(s, "0x") ==> r == s
  {
    if StartsWith(s, "0x") then s[2..] else s
  }

  /** `toBytes32`: drop a leading `0x`, left-pad with zeros to 64 characters, prefix `0x`. */
  function ToBytes32(s: string): (r: string)
    ensures StartsWith(r, "0x")
    ensures |r| == 2 + (if |Strip0x(s)| >= 64 then |Strip0x(s)| else 64)
    ensures r[|r| - |Strip0x(s)|..] == Strip0x(s)
    ensures forall i :: 2 <= i < |r| - |Strip0x(s)| ==> r[i] == '0'
  {
    var padded := PadStart(Strip0x(s), 64, '0');
    assert ("0x" + padded)[..2] == "0x";
    "0x" + padded
  }

  /** No more than 64 characters after `0x`: exactly 66 characters out. */
  lemma ToBytes32Length(s: string)
    requires |Strip0x(s)| <= 64
    ensures |ToBytes32(s)| == 66
  {
  }

  /** Encoding twice is encoding once. */
  lemma ToBytes32Idempotent(s: string)
    ensures ToBytes32(ToBytes32(s)) == ToBytes32(s)
  {
    var once := ToBytes32(s);
    assert Strip0x(once) == once[2..];
    assert |once[2..]| >= 64;
    assert PadStart(once[2..], 64, '0') == once[2..];
    assert "0x" + once[2..] == once;
  }

  function DropZeros(s: string): (r: string)
    ensures |r| <= |s| && r == s[|s| - |r|..]
    ensures r == [] || r[0] != '0'
    ensures forall i :: 0 <= i < |s| - |r| ==> s[i] == '0'
  {
    if s != [] && s[0] == '0' then DropZeros(s[1..]) else s
  }

  /** `s.replace(/^0x0+/, '')`: only a `0x` followed by at least one zero is removed, with all the zeros after it. */
  function RegexClean(s: string): (r: string)
    ensures StartsWith(s, "0x0") ==> r == DropZeros(s[2..])
    ensures !StartsWith(s, "0x0") ==> r == s
  {
    if StartsWith(s, "0x0") then DropZeros(s[2..]) else s
  }

  /** The comparison written in `verifyOnPolygon`. */
  predicate HashesMatchAsWritten(onChain: string, current: string) {
    RegexClean(onChain) == RegexClean(current)
  }

  /**
   * A 64-character hex digest, as `hashBatchData` returns it, never matches its
   * own bytes32 encoding under the written comparison.
   */
  lemma AsWrittenRejectsOwnEncoding(d: string)
    requires |d| == 64 && !StartsWith(d, "0x")
    ensures !HashesMatchAsWritten(ToBytes32(d), d)
  {
    var e := ToBytes32(d);
    assert e == "0x" + d by {
      assert Strip0x(d) == d;
      assert PadStart(d, 64, '0') == d;
    }
    if d[0] == '0' {
      assert StartsWith(e, "0x0");
      assert e[2..] == d;
      assert !StartsWith(d, "0x0") by { assert d[..3] != "0x0" by { assert d[..2] != "0x"; } }
      assert RegexClean(d) == d;
      assert |RegexClean(e)| < |d|;
    } else {
      assert !StartsWith(e, "0x0");
      assert !StartsWith(d, "0x0") by { assert d[..3][0] == d[0]; }
      assert |RegexClean(e)| == |d| + 2;
    }
  }

  /** A concrete digest showing the mismatch. */
  lemma AsWrittenRejectsExample()
    ensures !HashesMatchAsWritten(ToBytes32("a" + Repeat('0', 63)), "a" + Repeat('0', 63))
  {
    var d := "a" + Repeat('0', 63);
    assert d[..2][0] == 'a';
    AsWrittenRejectsOwnEncoding(d);
  }

  /** The evidently intended normalisation: drop `0x` when present, then all leading zeros. */
  function CanonicalHex(s: string): string {
    DropZeros(Strip0x(s))
  }

  /** Leading zeros make no difference to `DropZeros`. */
  lemma {:induction false} DropZerosSkip(s: string, k: nat)
    requires k <= |s|
    requires forall i :: 0 <= i < k ==> s[i] == '0'
    ensures DropZeros(s) == DropZeros(s[k..])
    decreases k
  {
    if k > 0 {
      assert DropZeros(s) == DropZeros(s[1..]);
      DropZerosSkip(s[1..], k - 1);
      assert s[1..][k - 1..] == s[k..];
    }
  }

  /** Under the intended normalisation every hash matches its own bytes32 encoding. */
  lemma CanonicalHexOfBytes32(s: string)
    ensures CanonicalHex(ToBytes32(s)) == CanonicalHex(s)
  {
    var t := Strip0x(s);
    var e := ToBytes32(s);
    var z := |e| - 2 - |t|;
    assert Strip0x(e) == e[2..];
    assert e[2..][z..] == t;
    forall i | 0 <= i < z ensures e[2..][i] == '0' {
      assert e[2..][i] == e[i + 2];
    }
    DropZerosSkip(e[2..], z);
  }

  // ---------------------------------------------------------------
  // Contract interface
  // ---------------------------------------------------------------

  /** The arguments of `syncBatch(batchId, batchCode, dataHash, merkleRoot)`. */
  datatype SyncBatchCall = SyncBatchCall(batchId: string, batchCode: string, dataHash: string, merkleRoot: string)

  /** A sent transaction that was mined, or the error it raised (`error.code`, `error.message`). */
  datatype ContractOutcome =
    | Mined(hash: string, blockNumber: nat, gasUsed: nat)
    | Rejected(code: Option<string>, message: Option<string>)

  /** `getBatch(batchId)` after `batchExists(batchId)`. */
  datatype OnChainBatch = OnChainBatch(batchCode: string, dataHash: string, merkleRoot: string, timestamp: nat,
    submittedBy: string)

  datatype LookupOutcome = LookupFailed(message: Option<string>) | Absent | Present(batch: OnChainBatch)

  datatype OnChainData = OnChainData(batchCode: string, dataHash: string, merkleRoot: string, timestamp: string,
    submittedBy: string, blockchainNetwork: string)

  datatype PolygonVerification = PolygonVerification(verified: bool, onChainData: Option<OnChainData>,
    explorerUrl: string)

  /** The error thrown for a failed transaction, by code first and then by message. */
  function ClassifyPolygonError(code: Option<string>, message: Option<string>): (e: string)
    ensures code == Some("INSUFFICIENT_FUNDS") ==> e == InsufficientFundsMessage
    ensures code != Some("INSUFFICIENT_FUNDS") && message.Some? && Contains(message.value, "already synced")
      ==> e == AlreadySyncedMessage
    ensures code != Some("INSUFFICIENT_FUNDS") && !(message.Some? && Contains(message.value, "already synced"))
      ==> e == "Polygon sync failed: " + ShowUndefined(message)
  {
    if code == Some("INSUFFICIENT_FUNDS") then InsufficientFundsMessage
    else if message.Some? && Contains(message.value, "already synced") then AlreadySyncedMessage
    else "Polygon sync failed: " + ShowUndefined(message)
  }

  /** `${x}` for a value that may be undefined. */
  function ShowUndefined(o: Option<string>): string {
    if o.Some? then o.value else "undefined"
  }

  /** The call `syncToPolygon` sends: both hashes in bytes32 form. */
  function SyncCallOf(p: Primitives, d: BatchData): (c: SyncBatchCall)
    ensures c.dataHash == ToBytes32(HashBatchData(p, d)) && c.merkleRoot == ToBytes32(StagesMerkleRoot(p, d.stages))
    ensures c.batchId == d.batchId && c.batchCode == d.batchCode
  {
    SyncBatchCall(d.batchId, d.batchCode, ToBytes32(HashBatchData(p, d)), ToBytes32(StagesMerkleRoot(p, d.stages)))
  }

  /** The receipt of a mined transaction, or the classified error. */
  function RealSyncResult(p: Primitives, d: BatchData, outcome: ContractOutcome, clock: Clock)
    : (r: Result<Transaction, string>)
    ensures outcome.Mined? ==> (r.Success?
      && r.value.transactionHash == outcome.hash && r.value.blockNumber == outcome.blockNumber
      && r.value.dataHash == HashBatchData(p, d) && r.value.merkleRoot == StagesMerkleRoot(p, d.stages)
      && r.value.previousHash.None? && r.value.network == PolygonNetwork && r.value.status == Confirmed
      && r.value.explorerUrl == Some(PolygonExplorer + "/tx/" + outcome.hash)
      && r.value.gasUsed == Some(NatToString(outcome.gasUsed)) && r.value.timestamp == clock.iso)
    ensures outcome.Rejected? ==> r == Failure(ClassifyPolygonError(outcome.code, outcome.message))
  {
    match outcome
    case Mined(hash, blockNumber, gasUsed) =>
      Success(Transaction(hash, blockNumber, HashBatchData(p, d), None, StagesMerkleRoot(p, d.stages), clock.iso,
        PolygonNetwork, Confirmed, Some(NatToString(gasUsed)), Some(PolygonExplorer + "/tx/" + hash)))
    case Rejected(code, message) => Failure(ClassifyPolygonError(code, message))
  }

  /** The comparison `verifyOnPolygon` makes once the batch is found, as written: `/^0x0+/` on both sides. */
  function PolygonCompareAsWritten(onChain: OnChainBatch, currentDataHash: string, currentMerkleRoot: string,
    contractAddress: string): (v: PolygonVerification)
    ensures v.verified <==> (HashesMatchAsWritten(onChain.dataHash, currentDataHash)
      && HashesMatchAsWritten(onChain.merkleRoot, currentMerkleRoot))
    ensures v.onChainData.Some? && v.onChainData.value.dataHash == onChain.dataHash
      && v.onChainData.value.merkleRoot == onChain.merkleRoot
      && v.onChainData.value.timestamp == NatToString(onChain.timestamp)
      && v.onChainData.value.blockchainNetwork == "polygon-mumbai"
    ensures v.explorerUrl == PolygonExplorer + "/address/" + contractAddress
  {
    PolygonVerification(
      RegexClean(onChain.dataHash) == RegexClean(currentDataHash)
        && RegexClean(onChain.merkleRoot) == RegexClean(currentMerkleRoot),
      Some(OnChainData(onChain.batchCode, onChain.dataHash, onChain.merkleRoot, NatToString(onChain.timestamp),
        onChain.submittedBy, "polygon-mumbai")),
      PolygonExplorer + "/address/" + contractAddress)
  }

  /**
   * As written, a batch that `syncToPolygon` stored is reported unverified
   * against its own unchanged data, whenever its data hash is a 64-character
   * digest without `0x` (as `hashBatchData` returns it).
   */
  lemma AsWrittenSyncedBatchFails(p: Primitives, d: BatchData, onChain: OnChainBatch, address: string)
    requires onChain.dataHash == SyncCallOf(p, d).dataHash
    requires |HashBatchData(p, d)| == 64 && !StartsWith(HashBatchData(p, d), "0x")
    ensures !PolygonCompareAsWritten(onChain, HashBatchData(p, d), StagesMerkleRoot(p, d.stages), address).verified
  {
    AsWrittenRejectsOwnEncoding(HashBatchData(p, d));
  }

  /** The same comparison with the corrected normalisation. */
  function PolygonCompare(onChain: OnChainBatch, currentDataHash: string, currentMerkleRoot: string,
    contractAddress: string): (v: PolygonVerification)
    ensures v.verified <==> (CanonicalHex(onChain.dataHash) == CanonicalHex(currentDataHash)
      && CanonicalHex(onChain.merkleRoot) == CanonicalHex(currentMerkleRoot))
    ensures v.onChainData.Some? && v.onChainData.value.dataHash == onChain.dataHash
      && v.onChainData.value.merkleRoot == onChain.merkleRoot
      && v.onChainData.value.timestamp == NatToString(onChain.timestamp)
    ensures v.explorerUrl == PolygonExplorer + "/address/" + contractAddress
  {
    PolygonVerification(
      CanonicalHex(onChain.dataHash) == CanonicalHex(currentDataHash)
        && CanonicalHex(onChain.merkleRoot) == CanonicalHex(currentMerkleRoot),
      Some(OnChainData(onChain.batchCode, onChain.dataHash, onChain.merkleRoot, NatToString(onChain.timestamp),
        onChain.submittedBy, "polygon-mumbai")),
      PolygonExplorer + "/address/" + contractAddress)
  }

  /** A batch synced by `syncToPolygon` verifies against what the contract stored. */
  lemma SyncedBatchVerifies(p: Primitives, d: BatchData, onChain: OnChainBatch, address: string)
    requires onChain.dataHash == SyncCallOf(p, d).dataHash && onChain.merkleRoot == SyncCallOf(p, d).merkleRoot
    ensures PolygonCompare(onChain, HashBatchData(p, d), StagesMerkleRoot(p, d.stages), address).verified
  {
    CanonicalHexOfBytes32(HashBatchData(p, d));
    CanonicalHexOfBytes32(StagesMerkleRoot(p, d.stages));
  }

  // ---------------------------------------------------------------
  // The service object
  // ---------------------------------------------------------------

  class PolygonBlockchainService {
    var config: PolygonConfig
    /** The JSON-RPC provider, once created. */
    var provider: Option<Provider>
    /** The private key of the wallet, once created. */
    var signer: Option<string>
    /** The address of the contract instance, once created. */
    var contract: Option<string>

    /** What `initializePolygon` leaves behind: a signer only for a key, a contract only for an address and a signer. */
    ghost predicate Valid()
      reads this
    {
      (provider.Some? <==> config.useRealBlockchain)
      && (provider.Some? ==> provider.value.url == config.rpcUrl)
      && (signer.Some? <==> config.useRealBlockchain && Truthy(config.privateKey))
      && (signer.Some? ==> signer == config.privateKey)
      && (contract.Some? <==> config.useRealBlockchain && Truthy(config.contractAddress) && signer.Some?)
      && (contract.Some? ==> contract == config.contractAddress)
    }

    /** The constructor when `initializePolygon` does not throw. */
    constructor(useRealBlockchain: bool, contractAddress: Option<string>, privateKey: Option<string>, rpcUrl: RpcField)
      ensures config == PolygonConfig(useRealBlockchain, contractAddress, privateKey, SpreadRpcUrl(rpcUrl))
      ensures provider == (if useRealBlockchain then Some(Provider(SpreadRpcUrl(rpcUrl))) else None)
      ensures signer == (if useRealBlockchain && Truthy(privateKey) then privateKey else None)
      ensures contract == (if useRealBlockchain && Truthy(privateKey) && Truthy(contractAddress) then contractAddress else None)
      ensures Valid()
    {
      var cfg := PolygonConfig(useRealBlockchain, contractAddress, privateKey, SpreadRpcUrl(rpcUrl));
      var newSigner: Option<string> := None;
      var newContract: Option<string> := None;
      if cfg.useRealBlockchain {
        if Truthy(cfg.privateKey) {
          newSigner := cfg.privateKey;
        }
        if Truthy(cfg.contractAddress) && newSigner.Some? {
          newContract := cfg.contractAddress;
        }
      }
      config := cfg;
      provider := if cfg.useRealBlockchain then Some(Provider(cfg.rpcUrl)) else None;
      signer := newSigner;
      contract := newContract;
    }

    /** `isUsingRealBlockchain`. */
    function IsUsingRealBlockchain(): (b: bool)
      reads this
      requires Valid()
      ensures b <==> config.useRealBlockchain && Truthy(config.privateKey) && Truthy(config.contractAddress)
    {
      config.useRealBlockchain && contract.Some?
    }

    /**
     * `syncToPolygon`. Without the real chain or a contract it returns the
     * simulated receipt with no previous hash; otherwise it sends the contract
     * call and turns the outcome into a receipt or a thrown error.
     */
    method SyncToPolygon(p: Primitives, env: Env, d: BatchData, contractCall: SyncBatchCall -> ContractOutcome,
      clock: Clock, gas: nat) returns (r: Result<Transaction, string>)
      requires Valid()
      ensures !IsUsingRealBlockchain() ==> r == Success(SyncToBlockchain(p, env, d, None, clock, gas))
      ensures IsUsingRealBlockchain() ==> r == RealSyncResult(p, d, contractCall(SyncCallOf(p, d)), clock)
    {
      if !config.useRealBlockchain || contract.None? {
        return Success(SyncToBlockchain(p, env, d, None, clock, gas));
      }
      var dataHash := HashBatchData(p, d);
      var merkleRoot := StagesMerkleRoot(p, d.stages);
      var dataHashBytes32 := ToBytes32(dataHash);
      var merkleRootBytes32 := ToBytes32(merkleRoot);
      var outcome := contractCall(SyncBatchCall(d.batchId, d.batchCode, dataHashBytes32, merkleRootBytes32));
      match outcome {
        case Mined(hash, blockNumber, gasUsed) =>
          r := Success(Transaction(hash, blockNumber, dataHash, None, merkleRoot, clock.iso, PolygonNetwork, Confirmed,
            Some(NatToString(gasUsed)), Some(PolygonExplorer + "/tx/" + hash)));
        case Rejected(code, message) =>
          r := Failure(ClassifyPolygonError(code, message));
      }
    }

    /**
     * `verifyOnPolygon`: refuses without the real chain, reports an absent batch
     * as unverified, and otherwise compares the stored hashes with the current ones.
     */
    method VerifyOnPolygon(batchId: string, currentDataHash: string, currentMerkleRoot: string,
      lookup: string -> LookupOutcome) returns (r: Result<PolygonVerification, string>)
      requires Valid()
      ensures !IsUsingRealBlockchain() ==> r == Failure(NotEnabledMessage)
      ensures IsUsingRealBlockchain() && lookup(batchId).LookupFailed? ==>
        r == Failure("Verification failed: " + ShowUndefined(lookup(batchId).message))
      ensures IsUsingRealBlockchain() && lookup(batchId).Absent? ==>
        r == Success(PolygonVerification(false, None, PolygonExplorer + "/address/" + config.contractAddress.value))
      ensures IsUsingRealBlockchain() && lookup(batchId).Present? ==>
        r == Success(PolygonCompareAsWritten(lookup(batchId).batch, currentDataHash, currentMerkleRoot,
          config.contractAddress.value))
    {
      if !config.useRealBlockchain || contract.None? {
        return Failure(NotEnabledMessage);
      }
      var explorerUrl := PolygonExplorer + "/address/" + config.contractAddress.value;
      var found := lookup(batchId);
      match found {
        case LookupFailed(message) =>
          r := Failure("Verification failed: " + ShowUndefined(message));
        case Absent =>
          r := Success(PolygonVerification(false, None, explorerUrl));
        case Present(batch) =>
          r := Success(PolygonCompareAsWritten(batch, currentDataHash, currentMerkleRoot, config.contractAddress.value));
      }
    }
  }

  /**
   * `new PolygonBlockchainService(config)`: the wallet (ethers.js) may reject the
   * key, and then the constructor throws instead of returning a service.
   */
  method NewPolygonService(useRealBlockchain: bool, contractAddress: Option<string>, privateKey: Option<string>,
    rpcUrl: RpcField, walletAccepts: bool) returns (r: Result<PolygonBlockchainService, string>)
    ensures r.Failure? <==> useRealBlockchain && Truthy(privateKey) && !walletAccepts
    ensures r.Failure? ==> r.error == InitFailedMessage
    ensures r.Success? ==> (fresh(r.value) && r.value.Valid()
      && r.value.config == PolygonConfig(useRealBlockchain, contractAddress, privateKey, SpreadRpcUrl(rpcUrl)))
  {
    if useRealBlockchain && Truthy(privateKey) && !walletAccepts {
      return Failure(InitFailedMessage);
    }
    var service := new PolygonBlockchainService(useRealBlockchain, contractAddress, privateKey, rpcUrl);
    r := Success(service);
  }
}
