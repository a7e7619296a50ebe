/**
 * The batch-integrity logic of the GrainTrust blockchain service: the Merkle
 * root over stage hashes, the canonical batch hash, the simulated ledger
 * receipt, verification against a stored record, the readiness gate, the
 * certificate and the verification QR payload.
 */
module BlockchainService {
  import opened Wrappers
  import opened Text
  import opened Seqs
  import opened Sorting
  import opened Json
  import opened Config

  // ---------------------------------------------------------------
  // Data
  // ---------------------------------------------------------------

  datatype VerificationStatus = Verified | Pending | Flagged

  function StatusName(s: VerificationStatus): string {
    match s
    case Verified => "VERIFIED"
    case Pending => "PENDING"
    case Flagged => "FLAGGED"
  }

  datatype StageData = StageData(
    stageId: string,
    name: string,
    completedAt: string,
    imageUrls: seq<string>,
    imageHashes: seq<string>,
    verificationStatus: VerificationStatus)

  /** `quantity` is the batch row's column, which may be `null`. */
  datatype BatchData = BatchData(
    batchId: string,
    batchCode: string,
    farmerId: string,
    farmerName: string,
    cropType: string,
    quantity: Option<int>,
    location: string,
    harvestDate: string,
    stages: seq<StageData>,
    timestamp: string)

  datatype TxStatus = Confirmed | TxPending | TxFailed

  function TxStatusName(s: TxStatus): string {
    match s
    case Confirmed => "CONFIRMED"
    case TxPending => "PENDING"
    case TxFailed => "FAILED"
  }

  /** A ledger receipt; `gasUsed` and `explorerUrl` are optional properties. */
  datatype Transaction = Transaction(
    transactionHash: string,
    blockNumber: nat,
    dataHash: string,
    previousHash: Option<string>,
    merkleRoot: string,
    timestamp: string,
    network: string,
    status: TxStatus,
    gasUsed: Option<string>,
    explorerUrl: Option<string>)

  /** The stored hashes a batch is verified against. */
  datatype RecordHashes = RecordHashes(dataHash: string, merkleRoot: string, transactionHash: string)

  datatype VerificationResult = VerificationResult(
    isValid: bool,
    dataHash: string,
    onChainHash: string,
    verified: bool,
    verificationDate: string,
    mismatchDetails: Option<seq<string>>)

  datatype Readiness = Readiness(ready: bool, reasons: seq<string>)

  // ---------------------------------------------------------------
  // Merkle root
  // ---------------------------------------------------------------

  /** The `k`-th entry of the next level: adjacent leaves combined, an odd last leaf combined with itself. */
  function PairAt(H: string -> string, level: seq<string>, k: nat): string
    requires k < (|level| + 1) / 2
  {
    if 2 * k + 1 < |level| then H(level[2 * k] + level[2 * k + 1]) else H(level[2 * k] + level[2 * k])
  }

  /** One pass of the tree-building loop. */
  function PairLevel(H: string -> string, level: seq<string>): (next: seq<string>)
    ensures |next| == (|level| + 1) / 2
    ensures forall k :: 0 <= k < |next| ==> next[k] == PairAt(H, level, k)
    decreases |level|
  {
    if |level| == 0 then []
    else if |level| == 1 then [H(level[0] + level[0])]
    else
      var rest := PairLevel(H, level[2..]);
      assert forall k :: 1 <= k < 1 + |rest| ==> PairAt(H, level, k) == PairAt(H, level[2..], k - 1);
      [H(level[0] + level[1])] + rest
  }

  /** An odd level's last entry is its last leaf hashed with itself, never the leaf itself. */
  lemma PairLevelOddLast(H: string -> string, level: seq<string>)
    requires |level| % 2 == 1
    ensures PairLevel(H, level)[|PairLevel(H, level)| - 1] == H(level[|level| - 1] + level[|level| - 1])
  {
    var next := PairLevel(H, level);
    assert 2 * (|next| - 1) == |level| - 1;
  }

  /** Repeats passes until one entry is left. */
  function ReduceLevels(H: string -> string, level: seq<string>): string
    requires |level| >= 1
    decreases |level|
  {
    if |level| == 1 then level[0] else ReduceLevels(H, PairLevel(H, level))
  }

  /** `createMerkleRoot`: `H("empty")` for no leaves, the only leaf as is, otherwise the sorted leaves reduced. */
  function MerkleRoot(H: string -> string, hashes: seq<string>): (root: string)
    ensures |hashes| == 0 ==> root == H("empty")
    ensures |hashes| == 1 ==> root == hashes[0]
  {
    if |hashes| == 0 then H("empty")
    else if |hashes| == 1 then hashes[0]
    else ReduceLevels(H, SortStrings(hashes))
  }

  /** The imperative tree construction, a `while` over levels and a step-2 loop over each level. */
  method CreateMerkleRoot(H: string -> string, hashes: seq<string>) returns (root: string)
    ensures root == MerkleRoot(H, hashes)
  {
    if |hashes| == 0 {
      return H("empty");
    }
    if |hashes| == 1 {
      return hashes[0];
    }
    var sortedHashes := SortStrings(hashes);
    var currentLevel := sortedHashes;
    while |currentLevel| > 1
      invariant |currentLevel| >= 1
      invariant ReduceLevels(H, currentLevel) == ReduceLevels(H, sortedHashes)
      decreases |currentLevel|
    {
      var nextLevel: seq<string> := [];
      var i := 0;
      while i < |currentLevel|
        invariant 0 <= i <= |currentLevel| + 1 && i % 2 == 0
        invariant |nextLevel| == i / 2
        invariant forall k :: 0 <= k < |nextLevel| ==> nextLevel[k] == PairAt(H, currentLevel, k)
        decreases |currentLevel| - i
      {
        if i + 1 < |currentLevel| {
          var combined := currentLevel[i] + currentLevel[i + 1];
          nextLevel := nextLevel + [H(combined)];
        } else {
          var combined := currentLevel[i] + currentLevel[i];
          nextLevel := nextLevel + [H(combined)];
        }
        i := i + 2;
      }
      assert nextLevel == PairLevel(H, currentLevel);
      currentLevel := nextLevel;
    }
    root := currentLevel[0];
  }

  /** With two or more leaves the root depends on the multiset of leaves only. */
  lemma MerkleRootPermutation(H: string -> string, a: seq<string>, b: seq<string>)
    requires multiset(a) == multiset(b)
    ensures MerkleRoot(H, a) == MerkleRoot(H, b)
  {
    assert |a| == |multiset(a)| == |multiset(b)| == |b|;
    if |a| == 1 {
      assert a[0] in multiset(b);
    } else if |a| > 1 {
      SortStringsPermutation(a, b);
    }
  }

  /** A reduction over two or more entries always ends in a hash. */
  lemma {:induction false} ReduceLevelsIsHash(H: string -> string, level: seq<string>) returns (x: string)
    requires |level| >= 2
    ensures ReduceLevels(H, level) == H(x)
    decreases |level|
  {
    var next := PairLevel(H, level);
    if |next| == 1 {
      x := level[0] + level[1];
      assert next[0] == PairAt(H, level, 0);
    } else {
      x := ReduceLevelsIsHash(H, next);
    }
  }

  /** For two or more leaves the root is always a hash, so no leaf is promoted to the root unchanged. */
  lemma MerkleRootIsHash(H: string -> string, hashes: seq<string>) returns (x: string)
    requires |hashes| >= 2
    ensures MerkleRoot(H, hashes) == H(x)
  {
    x := ReduceLevelsIsHash(H, SortStrings(hashes));
  }

  lemma SortTwo(a: string, b: string)
    ensures SortStrings([a, b]) == if LexLe(a, b) then [a, b] else [b, a]
  {
    assert [a, b][..1] == [a];
    assert [a][..0] == [];
    assert SortBy([a], Identity) == InsertBy(a, [], Identity) == [a];
    assert SortBy([a, b], Identity) == InsertBy(b, [a], Identity);
    assert Identity(a) == a && Identity(b) == b;
    if LexLe(a, b) {
      assert InsertBy(b, [a], Identity) == [a] + InsertBy(b, [], Identity);
    }
  }

  lemma ReducePair(H: string -> string, x: string, y: string)
    ensures ReduceLevels(H, [x, y]) == H(x + y)
  {
    var next := PairLevel(H, [x, y]);
    assert next[0] == PairAt(H, [x, y], 0);
    assert ReduceLevels(H, next) == next[0];
  }

  /** Two leaves: the hash of the smaller followed by the larger. */
  lemma MerkleRootTwo(H: string -> string, a: string, b: string)
    ensures MerkleRoot(H, [a, b]) == if LexLe(a, b) then H(a + b) else H(b + a)
  {
    SortTwo(a, b);
    if LexLe(a, b) { ReducePair(H, a, b); } else { ReducePair(H, b, a); }
  }

  /** Three sorted leaves: the odd third leaf is paired with itself before the final combination. */
  lemma MerkleRootThreeSorted(H: string -> string, a: string, b: string, c: string)
    requires LexLe(a, b) && LexLe(b, c)
    ensures MerkleRoot(H, [a, b, c]) == H(H(a + b) + H(c + c))
  {
    LexLeTransitive(a, b, c);
    assert SortedBy([a, b, c], Identity);
    SortStringsOfSorted([a, b, c]);
    assert MerkleRoot(H, [a, b, c]) == ReduceLevels(H, [a, b, c]);
    var next := PairLevel(H, [a, b, c]);
    assert next[0] == PairAt(H, [a, b, c], 0);
    assert next[1] == PairAt(H, [a, b, c], 1);
    assert next == [H(a + b), H(c + c)];
    assert ReduceLevels(H, [a, b, c]) == ReduceLevels(H, next);
    ReducePair(H, H(a + b), H(c + c));
  }

  /** `hashImage(url)`: the URL hashed with the clock reading `ms` of the call. */
  function HashImage(p: Primitives, imageUrl: string, ms: nat): string {
    p.sha256(imageUrl + ":" + NatToString(ms))
  }

  /**
   * Collision-free primitives: distinct texts hash apart, and distinct values
   * serialise apart, compact or indented. Stated as a hypothesis, never assumed.
   */
  ghost predicate CollisionFree(p: Primitives) {
    (forall a: string, b: string :: p.sha256(a) == p.sha256(b) ==> a == b)
    && (forall v: JValue, w: JValue :: p.stringify(v) == p.stringify(w) ==> v == w)
    && (forall v: JValue, w: JValue :: p.stringifyIndented(v) == p.stringifyIndented(w) ==> v == w)
  }

  /** `url + ":" + digits` can be split back: a digit string holds no `:`, so the last `:` is the separator. */
  lemma SaltedTextSplits(u: string, a: string, u': string, b: string)
    requires AllDigits(a) && AllDigits(b) && u + ":" + a == u' + ":" + b
    ensures u == u' && a == b
  {
    var s := u + ":" + a;
    assert s == u' + ":" + b;
    assert forall i :: |s| - |a| <= i < |s| ==> s[i] == a[i - (|s| - |a|)];
    assert forall i :: |s| - |b| <= i < |s| ==> s[i] == b[i - (|s| - |b|)];
    assert s[|u|] == ':' && s[|u'|] == ':';
    assert |a| == |b|;
    assert u == s[..|u|] == u';
    assert a == s[|u| + 1..] == b;
  }

  /**
   * An image hash names the image and the moment: under collision-free
   * hashing, two calls agree only for the same URL at the same clock
   * reading, so re-hashing the same image later gives a different hash.
   */
  lemma HashImageSalted(p: Primitives, url: string, ms: nat, url': string, ms': nat)
    requires CollisionFree(p) && HashImage(p, url, ms) == HashImage(p, url', ms')
    ensures url == url' && ms == ms'
  {
    SaltedTextSplits(url, NatToString(ms), url', NatToString(ms'));
  }

  // ---------------------------------------------------------------
  // Stage leaves and the stages Merkle root
  // ---------------------------------------------------------------

  /** The object hashed for one stage leaf, keys in the order written. */
  function StageLeafJson(s: StageData): (v: JValue)
    ensures v.JObject? && Keys(v.fields) == ["completedAt", "imageHashes", "name", "stageId", "verificationStatus"]
  {
    JObject([
      ("completedAt", JString(s.completedAt)),
      ("imageHashes", JStrings(SortStrings(s.imageHashes))),
      ("name", JString(s.name)),
      ("stageId", JString(s.stageId)),
      ("verificationStatus", JString(StatusName(s.verificationStatus)))])
  }

  function StageLeaf(p: Primitives, s: StageData): string {
    p.sha256(p.stringify(StageLeafJson(s)))
  }

  function LeafOf(p: Primitives): StageData -> string {
    s => StageLeaf(p, s)
  }

  /** `createStagesMerkleRoot`. */
  function StagesMerkleRoot(p: Primitives, stages: seq<StageData>): string {
    MerkleRoot(p.sha256, MapSeq(LeafOf(p), stages))
  }

  /**
   * The stage root on small inputs: no stages give the root of no leaves, one
   * stage its own leaf, two stages the hash of their leaves in sorted order.
   */
  lemma StagesMerkleRootSmall(p: Primitives, stages: seq<StageData>)
    ensures stages == [] ==> StagesMerkleRoot(p, stages) == p.sha256("empty")
    ensures |stages| == 1 ==> StagesMerkleRoot(p, stages) == StageLeaf(p, stages[0])
    ensures |stages| == 2 ==> (var a, b := StageLeaf(p, stages[0]), StageLeaf(p, stages[1]);
      StagesMerkleRoot(p, stages) == if LexLe(a, b) then p.sha256(a + b) else p.sha256(b + a))
  {
    var leaves := MapSeq(LeafOf(p), stages);
    if |stages| == 2 {
      MerkleRootTwo(p.sha256, leaves[0], leaves[1]);
      assert leaves == [leaves[0], leaves[1]];
    }
  }

  /** Two stages that hash to the same leaf: the same fields apart from image URLs, image hashes in any order. */
  predicate SameLeafContent(s: StageData, t: StageData) {
    s.stageId == t.stageId && s.name == t.name && s.completedAt == t.completedAt
    && multiset(s.imageHashes) == multiset(t.imageHashes)
    && s.verificationStatus == t.verificationStatus
  }

  lemma StageLeafContent(p: Primitives, s: StageData, t: StageData)
    requires SameLeafContent(s, t)
    ensures StageLeaf(p, s) == StageLeaf(p, t)
  {
    SortStringsPermutation(s.imageHashes, t.imageHashes);
  }

  /** The stages root is the same for any order of the stages. */
  lemma StagesMerkleRootPermutation(p: Primitives, a: seq<StageData>, b: seq<StageData>)
    requires multiset(a) == multiset(b)
    ensures StagesMerkleRoot(p, a) == StagesMerkleRoot(p, b)
  {
    MapSeqPermutation(LeafOf(p), a, b);
    MerkleRootPermutation(p.sha256, MapSeq(LeafOf(p), a), MapSeq(LeafOf(p), b));
  }

  /** The stages root ignores image URLs and the order of each stage's image hashes. */
  lemma StagesMerkleRootContent(p: Primitives, a: seq<StageData>, b: seq<StageData>)
    requires |a| == |b|
    requires forall i :: 0 <= i < |a| ==> SameLeafContent(a[i], b[i])
    ensures StagesMerkleRoot(p, a) == StagesMerkleRoot(p, b)
  {
    forall i | 0 <= i < |a| ensures MapSeq(LeafOf(p), a)[i] == MapSeq(LeafOf(p), b)[i] {
      StageLeafContent(p, a[i], b[i]);
    }
    assert MapSeq(LeafOf(p), a) == MapSeq(LeafOf(p), b);
  }

  // ---------------------------------------------------------------
  // Canonical batch hash
  // ---------------------------------------------------------------

  /** A stage as `hashBatchData` writes it: both arrays sorted, keys in alphabetical order. */
  datatype CanonicalStage = CanonicalStage(
    completedAt: string,
    imageHashes: seq<string>,
    imageUrls: seq<string>,
    name: string,
    stageId: string,
    verificationStatus: string)

  function Canonicalize(s: StageData): (c: CanonicalStage)
    ensures c.name == s.name
  {
    CanonicalStage(s.completedAt, SortStrings(s.imageHashes), SortStrings(s.imageUrls), s.name, s.stageId,
      StatusName(s.verificationStatus))
  }

  function CanonicalName(c: CanonicalStage): string {
    c.name
  }

  /** The stages of the hashed object, stably sorted by name. */
  function CanonicalStages(stages: seq<StageData>): (cs: seq<CanonicalStage>)
    ensures |cs| == |stages|
  {
    SortBy(MapSeq(Canonicalize, stages), CanonicalName)
  }

  function CanonicalStageJson(c: CanonicalStage): JValue {
    JObject([
      ("completedAt", JString(c.completedAt)),
      ("imageHashes", JStrings(c.imageHashes)),
      ("imageUrls", JStrings(c.imageUrls)),
      ("name", JString(c.name)),
      ("stageId", JString(c.stageId)),
      ("verificationStatus", JString(c.verificationStatus))])
  }

  function JQuantity(q: Option<int>): JValue {
    if q.Some? then JNumber(q.value) else JNull
  }

  /** The `stages` array of the hashed object. */
  function StagesJson(stages: seq<StageData>): JValue {
    JArray(MapSeq(CanonicalStageJson, CanonicalStages(stages)))
  }

  /**
   * The object `hashBatchData` serialises. Its keys are in alphabetical
   * order, so key order never depends on the data, and the snapshot's
   * timestamp is its last field.
   */
  function BatchJson(d: BatchData): (v: JValue)
    ensures v.JObject? && Keys(v.fields) == ["batchCode", "batchId", "cropType", "farmerId", "farmerName",
      "harvestDate", "location", "quantity", "stages", "timestamp"]
    ensures v.fields[9].1 == JString(d.timestamp)
  {
    var f := [
      ("batchCode", JString(d.batchCode)),
      ("batchId", JString(d.batchId)),
      ("cropType", JString(d.cropType)),
      ("farmerId", JString(d.farmerId)),
      ("farmerName", JString(d.farmerName)),
      ("harvestDate", JString(d.harvestDate)),
      ("location", JString(d.location)),
      ("quantity", JQuantity(d.quantity)),
      ("stages", StagesJson(d.stages)),
      ("timestamp", JString(d.timestamp))];
    var ks := Keys(f);
    assert ks[0] == f[0].0 == "batchCode" && ks[1] == f[1].0 == "batchId" && ks[2] == f[2].0 == "cropType";
    assert ks[3] == f[3].0 == "farmerId" && ks[4] == f[4].0 == "farmerName" && ks[5] == f[5].0 == "harvestDate";
    assert ks[6] == f[6].0 == "location" && ks[7] == f[7].0 == "quantity" && ks[8] == f[8].0 == "stages";
    assert ks[9] == f[9].0 == "timestamp";
    JObject(f)
  }

  /** `hashBatchData`. */
  function HashBatchData(p: Primitives, d: BatchData): string {
    p.sha256(p.stringify(BatchJson(d)))
  }

  /** The data hash covers the snapshot's timestamp: under collision-free primitives, different stamps hash apart. */
  lemma TimestampSeparatesHashes(p: Primitives, d: BatchData, e: BatchData)
    requires CollisionFree(p) && d.timestamp != e.timestamp
    ensures HashBatchData(p, d) != HashBatchData(p, e)
  {
    assert BatchJson(d).fields[9] != BatchJson(e).fields[9];
  }

  /** Every image hash of `s` is its URL salted with `ms`, as `hashImage` makes it. */
  predicate SaltedAt(p: Primitives, s: StageData, ms: nat) {
    |s.imageHashes| == |s.imageUrls|
    && forall j :: 0 <= j < |s.imageUrls| ==> s.imageHashes[j] == HashImage(p, s.imageUrls[j], ms)
  }

  /**
   * The data hash covers the image salts: when every image of `d` was hashed
   * at `ms`, every image of `e` at another `ms'`, and some stage of `d` has an
   * image, the two snapshots hash apart under collision-free primitives,
   * whatever their timestamps.
   */
  lemma SaltSeparatesHashes(p: Primitives, d: BatchData, e: BatchData, ms: nat, ms': nat, k: nat)
    requires CollisionFree(p) && ms != ms'
    requires forall i :: 0 <= i < |d.stages| ==> SaltedAt(p, d.stages[i], ms)
    requires forall i :: 0 <= i < |e.stages| ==> SaltedAt(p, e.stages[i], ms')
    requires k < |d.stages| && d.stages[k].imageUrls != []
    ensures HashBatchData(p, d) != HashBatchData(p, e)
  {
    if HashBatchData(p, d) == HashBatchData(p, e) {
      assert BatchJson(d) == BatchJson(e);
      assert BatchJson(d).fields[8] == BatchJson(e).fields[8];
      var cd, ce := CanonicalStages(d.stages), CanonicalStages(e.stages);
      assert MapSeq(CanonicalStageJson, cd) == MapSeq(CanonicalStageJson, ce);
      forall i | 0 <= i < |cd| ensures cd[i] == ce[i] {
        assert MapSeq(CanonicalStageJson, cd)[i] == MapSeq(CanonicalStageJson, ce)[i];
        CanonicalStageJsonInjective(cd[i], ce[i]);
      }
      assert cd == ce;
      var c := Canonicalize(d.stages[k]);
      var md := MapSeq(Canonicalize, d.stages);
      var me := MapSeq(Canonicalize, e.stages);
      SortByCorrect(md, CanonicalName);
      SortByCorrect(me, CanonicalName);
      assert md[k] == c;
      assert c in multiset(me);
      var m :| 0 <= m < |me| && me[m] == c;
      var sd, se := d.stages[k], e.stages[m];
      SortStringsCorrect(sd.imageHashes);
      SortStringsCorrect(se.imageHashes);
      var x := sd.imageHashes[0];
      assert x == HashImage(p, sd.imageUrls[0], ms);
      assert x in multiset(SortStrings(sd.imageHashes));
      assert x in multiset(se.imageHashes);
      var j :| 0 <= j < |se.imageHashes| && se.imageHashes[j] == x;
      HashImageSalted(p, sd.imageUrls[0], ms, se.imageUrls[j], ms');
      assert false;
    }
  }

  /** Two stages written identically by `hashBatchData`: equal fields, both arrays in any order. */
  predicate SameCanonicalContent(s: StageData, t: StageData) {
    s.stageId == t.stageId && s.name == t.name && s.completedAt == t.completedAt
    && multiset(s.imageHashes) == multiset(t.imageHashes)
    && multiset(s.imageUrls) == multiset(t.imageUrls)
    && s.verificationStatus == t.verificationStatus
  }

  lemma CanonicalizeContent(s: StageData, t: StageData)
    requires SameCanonicalContent(s, t)
    ensures Canonicalize(s) == Canonicalize(t)
  {
    SortStringsPermutation(s.imageHashes, t.imageHashes);
    SortStringsPermutation(s.imageUrls, t.imageUrls);
  }

  /** The batch hash is unchanged by reordering any stage's image URLs and image hashes. */
  lemma HashBatchDataImageOrder(p: Primitives, d: BatchData, e: BatchData)
    requires d.(stages := e.stages) == e
    requires |d.stages| == |e.stages|
    requires forall i :: 0 <= i < |d.stages| ==> SameCanonicalContent(d.stages[i], e.stages[i])
    ensures HashBatchData(p, d) == HashBatchData(p, e)
  {
    forall i | 0 <= i < |d.stages|
      ensures MapSeq(Canonicalize, d.stages)[i] == MapSeq(Canonicalize, e.stages)[i]
    {
      CanonicalizeContent(d.stages[i], e.stages[i]);
    }
    assert MapSeq(Canonicalize, d.stages) == MapSeq(Canonicalize, e.stages);
  }

  /** No two stages share a name. */
  predicate DistinctNames(stages: seq<StageData>) {
    forall i, j :: 0 <= i < j < |stages| ==> stages[i].name != stages[j].name
  }

  lemma DistinctNamesCanonical(stages: seq<StageData>)
    requires DistinctNames(stages)
    ensures KeyInjectiveOn(multiset(MapSeq(Canonicalize, stages)), CanonicalName)
  {
    var cs := MapSeq(Canonicalize, stages);
    forall x, y | x in multiset(cs) && y in multiset(cs) && CanonicalName(x) == CanonicalName(y)
      ensures x == y
    {
      assert x in cs && y in cs;
      var i :| 0 <= i < |cs| && cs[i] == x;
      var j :| 0 <= j < |cs| && cs[j] == y;
      assert cs[i] == Canonicalize(stages[i]) && cs[j] == Canonicalize(stages[j]);
      assert stages[i].name == x.name == y.name == stages[j].name;
      assert i == j;
    }
  }

  /** With distinct stage names, the batch hash is unchanged by reordering the stages. */
  lemma HashBatchDataStageOrder(p: Primitives, d: BatchData, e: BatchData)
    requires d.(stages := e.stages) == e
    requires multiset(d.stages) == multiset(e.stages)
    requires DistinctNames(d.stages)
    ensures HashBatchData(p, d) == HashBatchData(p, e)
  {
    MapSeqPermutation(Canonicalize, d.stages, e.stages);
    DistinctNamesCanonical(d.stages);
    SortByPermutation(MapSeq(Canonicalize, d.stages), MapSeq(Canonicalize, e.stages), CanonicalName);
  }

  lemma JStringsInjective(a: seq<string>, b: seq<string>)
    requires JStrings(a) == JStrings(b)
    ensures a == b
  {
    forall i | 0 <= i < |a| ensures a[i] == b[i] {
      assert JStrings(a).items[i] == JStrings(b).items[i];
    }
  }

  lemma CanonicalStageJsonInjective(c: CanonicalStage, c': CanonicalStage)
    requires CanonicalStageJson(c) == CanonicalStageJson(c')
    ensures c == c'
  {
    var f, f' := CanonicalStageJson(c).fields, CanonicalStageJson(c').fields;
    assert f[1] == f'[1] && f[2] == f'[2];
    JStringsInjective(c.imageHashes, c'.imageHashes);
    JStringsInjective(c.imageUrls, c'.imageUrls);
  }

  /**
   * Stability: two stages with the same name but different content are written
   * in input order, so swapping them changes the hashed object.
   */
  lemma BatchJsonDuplicateNames(d: BatchData, s: StageData, t: StageData)
    requires s.name == t.name && Canonicalize(s) != Canonicalize(t)
    ensures BatchJson(d.(stages := [s, t])) != BatchJson(d.(stages := [t, s]))
  {
    assert MapSeq(Canonicalize, [s, t]) == [Canonicalize(s), Canonicalize(t)];
    assert MapSeq(Canonicalize, [t, s]) == [Canonicalize(t), Canonicalize(s)];
    SortByStableOnTies(Canonicalize(s), Canonicalize(t), CanonicalName);
    SortByStableOnTies(Canonicalize(t), Canonicalize(s), CanonicalName);
    var j1 := BatchJson(d.(stages := [s, t]));
    var j2 := BatchJson(d.(stages := [t, s]));
    if j1 == j2 {
      assert j1.fields[8] == j2.fields[8];
      assert StagesJson([s, t]) == StagesJson([t, s]);
      assert MapSeq(CanonicalStageJson, [Canonicalize(s), Canonicalize(t)])[0]
          == MapSeq(CanonicalStageJson, [Canonicalize(t), Canonicalize(s)])[0];
      CanonicalStageJsonInjective(Canonicalize(s), Canonicalize(t));
    }
  }

  // ---------------------------------------------------------------
  // Simulated receipt, explorer URL, QR payload
  // ---------------------------------------------------------------

  /** `getExplorerUrl`. */
  function GetExplorerUrl(env: Env, transactionHash: string): (url: string)
    ensures StartsWith(url, ExplorerUrl(env) + "/tx/")
    ensures url[|ExplorerUrl(env) + "/tx/"|..] == transactionHash
  {
    ExplorerUrl(env) + "/tx/" + transactionHash
  }

  /** Different transactions get different explorer links. */
  lemma GetExplorerUrlInjective(env: Env, a: string, b: string)
    requires GetExplorerUrl(env, a) == GetExplorerUrl(env, b)
    ensures a == b
  {
    var n := |ExplorerUrl(env) + "/tx/"|;
    assert GetExplorerUrl(env, a)[n..] == a;
    assert GetExplorerUrl(env, b)[n..] == b;
  }

  /**
   * `syncToBlockchain`: the simulated receipt. `clock` is the reading used for
   * the transaction hash, the block number and the timestamp; `gas` stands for
   * the random gas figure.
   */
  function SyncToBlockchain(p: Primitives, env: Env, d: BatchData, previousHash: Option<string>, clock: Clock, gas: nat)
    : (tx: Transaction)
    ensures tx.dataHash == HashBatchData(p, d)
    ensures tx.merkleRoot == StagesMerkleRoot(p, d.stages)
    ensures tx.previousHash == previousHash
    ensures tx.status == Confirmed
    ensures StartsWith(tx.transactionHash, "0x") && |tx.transactionHash| >= 2
    ensures tx.explorerUrl == Some(GetExplorerUrl(env, tx.transactionHash))
    ensures tx.network == Network(env)
    ensures tx.blockNumber == clock.ms / 1000 && tx.timestamp == clock.iso
    ensures tx.gasUsed.Some? && AllDigits(tx.gasUsed.value)
  {
    var dataHash := HashBatchData(p, d);
    var merkleRoot := StagesMerkleRoot(p, d.stages);
    var txData := dataHash + merkleRoot + NatToString(clock.ms);
    var transactionHash := "0x" + p.sha256(txData);
    Transaction(transactionHash, clock.ms / 1000, dataHash, previousHash, merkleRoot, clock.iso, Network(env),
      Confirmed, Some(NatToString(gas)), Some(GetExplorerUrl(env, transactionHash)))
  }

  /** The payload of the verification QR code, keys in the order written. */
  function QRDataJson(env: Env, tx: Transaction): (v: JValue)
    ensures v.JObject? && Keys(v.fields) == ["type", "txHash", "network", "dataHash", "verifyUrl"]
    ensures v.fields[0].1 == JString("GRAINTRUST_VERIFICATION")
    ensures v.fields[1].1 == JString(tx.transactionHash) && v.fields[2].1 == JString(tx.network)
    ensures v.fields[3].1 == JString(tx.dataHash)
    ensures v.fields[4].1 == JString(ExplorerUrl(env) + "/verify/" + tx.transactionHash)
  {
    JObject([
      ("type", JString("GRAINTRUST_VERIFICATION")),
      ("txHash", JString(tx.transactionHash)),
      ("network", JString(tx.network)),
      ("dataHash", JString(tx.dataHash)),
      ("verifyUrl", JString(ExplorerUrl(env) + "/verify/" + tx.transactionHash))])
  }

  /** `createVerificationQRData`. */
  function CreateVerificationQRData(p: Primitives, env: Env, tx: Transaction): string {
    p.stringify(QRDataJson(env, tx))
  }

  /** A scanned QR payload names its transaction: equal payloads carry the same hash, network and data hash. */
  lemma QRDataNamesTransaction(p: Primitives, env: Env, tx: Transaction, tx': Transaction)
    requires CollisionFree(p) && CreateVerificationQRData(p, env, tx) == CreateVerificationQRData(p, env, tx')
    ensures tx.transactionHash == tx'.transactionHash && tx.network == tx'.network && tx.dataHash == tx'.dataHash
  {
    var v, w := QRDataJson(env, tx), QRDataJson(env, tx');
    assert v == w;
    assert v.fields[2].1 == JString(tx.network) && w.fields[2].1 == JString(tx'.network);
  }

  // ---------------------------------------------------------------
  // Verification
  // ---------------------------------------------------------------

  const DataHashMismatch := "Data hash mismatch - batch data has been modified"
  const MerkleRootMismatch := "Merkle root mismatch - stage data has been modified"

  /**
   * The specification of `verifyOnBlockchain`, given the hashes recomputed
   * from the current data.
   */
  function Verification(dataHash: string, merkleRoot: string, record: RecordHashes, clock: Clock)
    : (r: VerificationResult)
    ensures r.verified == r.isValid
    ensures r.verified <==> dataHash == record.dataHash && merkleRoot == record.merkleRoot
    ensures r.dataHash == dataHash && r.onChainHash == record.dataHash
    ensures r.verificationDate == clock.iso
    ensures r.mismatchDetails.None? <==> r.verified
    ensures r.mismatchDetails.Some? ==>
      var m := r.mismatchDetails.value;
      (DataHashMismatch in m <==> dataHash != record.dataHash)
      && (MerkleRootMismatch in m <==> merkleRoot != record.merkleRoot)
      && (|m| == 2 ==> m == [DataHashMismatch, MerkleRootMismatch])
      && 1 <= |m| <= 2
  {
    var dataHashMatch := dataHash == record.dataHash;
    var merkleRootMatch := merkleRoot == record.merkleRoot;
    var details := (if dataHashMatch then [] else [DataHashMismatch])
      + (if merkleRootMatch then [] else [MerkleRootMismatch]);
    VerificationResult(dataHashMatch && merkleRootMatch, dataHash, record.dataHash, dataHashMatch && merkleRootMatch,
      clock.iso, if |details| > 0 then Some(details) else None)
  }

  /** The mismatch list of `verifyOnBlockchain`, built by pushes: the data hash first, then the Merkle root. */
  method PushMismatches(dataHashMatch: bool, merkleRootMatch: bool) returns (mismatchDetails: seq<string>)
    ensures mismatchDetails == (if dataHashMatch then [] else [DataHashMismatch])
      + (if merkleRootMatch then [] else [MerkleRootMismatch])
  {
    mismatchDetails := [];
    if !dataHashMatch {
      mismatchDetails := mismatchDetails + [DataHashMismatch];
    }
    if !merkleRootMatch {
      mismatchDetails := mismatchDetails + [MerkleRootMismatch];
    }
  }

  /** `verifyOnBlockchain`. */
  method VerifyOnBlockchain(p: Primitives, d: BatchData, record: RecordHashes, clock: Clock)
    returns (r: VerificationResult)
    ensures r == Verification(HashBatchData(p, d), StagesMerkleRoot(p, d.stages), record, clock)
  {
    var currentDataHash := HashBatchData(p, d);
    var currentMerkleRoot := StagesMerkleRoot(p, d.stages);
    var dataHashMatch := currentDataHash == record.dataHash;
    var merkleRootMatch := currentMerkleRoot == record.merkleRoot;
    var mismatchDetails := PushMismatches(dataHashMatch, merkleRootMatch);
    r := VerificationResult(dataHashMatch && merkleRootMatch, currentDataHash, record.dataHash,
      dataHashMatch && merkleRootMatch, clock.iso, if |mismatchDetails| > 0 then Some(mismatchDetails) else None);
  }

  function RecordOf(tx: Transaction): RecordHashes {
    RecordHashes(tx.dataHash, tx.merkleRoot, tx.transactionHash)
  }

  /** Verifying the very data a simulated receipt was made from, against that receipt, succeeds. */
  lemma SyncThenVerify(p: Primitives, env: Env, d: BatchData, prev: Option<string>, c1: Clock, gas: nat, c2: Clock)
    ensures var r := Verification(HashBatchData(p, d), StagesMerkleRoot(p, d.stages),
      RecordOf(SyncToBlockchain(p, env, d, prev, c1, gas)), c2);
      r.verified && r.mismatchDetails.None?
  {
  }

  // ---------------------------------------------------------------
  // Readiness
  // ---------------------------------------------------------------

  const NoStagesReason := "No stages completed yet"

  function HasNoImages(s: StageData): bool {
    |s.imageUrls| == 0
  }

  function IsFlagged(s: StageData): bool {
    s.verificationStatus == Flagged
  }

  function MissingImagesReason(n: nat): string {
    NatToString(n) + " stage(s) missing images"
  }

  function FlaggedReason(n: nat): string {
    NatToString(n) + " stage(s) flagged for issues"
  }

  /** The specification of `isReadyForBlockchain`. */
  function ReadinessReport(d: BatchData): (r: Readiness)
    ensures r.ready <==> r.reasons == []
    ensures r.ready <==> (|d.stages| > 0
      && forall i :: 0 <= i < |d.stages| ==> |d.stages[i].imageUrls| > 0 && d.stages[i].verificationStatus != Flagged)
    ensures r.reasons == (if |d.stages| == 0 then [NoStagesReason] else [])
      + (if Count(HasNoImages, d.stages) > 0 then [MissingImagesReason(Count(HasNoImages, d.stages))] else [])
      + (if Count(IsFlagged, d.stages) > 0 then [FlaggedReason(Count(IsFlagged, d.stages))] else [])
  {
    var missing := Count(HasNoImages, d.stages);
    var flagged := Count(IsFlagged, d.stages);
    var reasons := (if |d.stages| == 0 then [NoStagesReason] else [])
      + (if missing > 0 then [MissingImagesReason(missing)] else [])
      + (if flagged > 0 then [FlaggedReason(flagged)] else []);
    Readiness(|reasons| == 0, reasons)
  }

  /** Readiness looks only at how many images each stage has and whether it is flagged. */
  lemma ReadinessOfSameShape(d: BatchData, e: BatchData)
    requires |d.stages| == |e.stages|
    requires forall i :: 0 <= i < |d.stages| ==>
      |d.stages[i].imageUrls| == |e.stages[i].imageUrls| && d.stages[i].verificationStatus == e.stages[i].verificationStatus
    ensures ReadinessReport(d) == ReadinessReport(e)
  {
    CountPointwise(HasNoImages, HasNoImages, d.stages, e.stages);
    CountPointwise(IsFlagged, IsFlagged, d.stages, e.stages);
  }

  /** `isReadyForBlockchain`, pushing reasons in order. */
  method IsReadyForBlockchain(d: BatchData) returns (r: Readiness)
    ensures r == ReadinessReport(d)
  {
    var reasons: seq<string> := [];
    if |d.stages| == 0 {
      reasons := reasons + [NoStagesReason];
    }
    var stagesWithoutImages := Filter(HasNoImages, d.stages);
    if |stagesWithoutImages| > 0 {
      reasons := reasons + [MissingImagesReason(|stagesWithoutImages|)];
    }
    var flaggedStages := Filter(IsFlagged, d.stages);
    if |flaggedStages| > 0 {
      reasons := reasons + [FlaggedReason(|flaggedStages|)];
    }
    r := Readiness(|reasons| == 0, reasons);
  }

  /** Unverified stages never block: a batch whose stages all have images and none is flagged is ready, PENDING or not. */
  lemma PendingStagesDoNotBlock(d: BatchData)
    requires |d.stages| > 0
    requires forall i :: 0 <= i < |d.stages| ==> |d.stages[i].imageUrls| > 0 && d.stages[i].verificationStatus == Pending
    ensures ReadinessReport(d).ready
  {
  }

  /** A reason mentions a stage count only when that count is positive, and spells it in decimal. */
  lemma ReadinessReasonsCount(d: BatchData)
    requires |d.stages| > 0
    requires forall i :: 0 <= i < |d.stages| ==> |d.stages[i].imageUrls| > 0
    ensures ReadinessReport(d).reasons == if Count(IsFlagged, d.stages) > 0 then [FlaggedReason(Count(IsFlagged, d.stages))] else []
  {
  }

  // ---------------------------------------------------------------
  // Certificate
  // ---------------------------------------------------------------

  function ImageCount(stages: seq<StageData>): nat {
    if stages == [] then 0 else ImageCount(stages[..|stages| - 1]) + |stages[|stages| - 1].imageUrls|
  }

  /** The `verification` block of the certificate. */
  datatype CertificateCounts = CertificateCounts(
    stagesCompleted: nat,
    allStagesVerified: bool,
    imagesVerified: nat,
    verifyUrl: string,
    qrCode: Option<string>)

  function CertificateCountsOf(env: Env, d: BatchData, qrCode: Option<string>, verifyUrl: Option<string>)
    : (c: CertificateCounts)
    ensures c.stagesCompleted == |d.stages|
    ensures c.allStagesVerified <==> forall i :: 0 <= i < |d.stages| ==> d.stages[i].verificationStatus == Verified
    ensures c.imagesVerified == ImageCount(d.stages)
    ensures Truthy(verifyUrl) ==> c.verifyUrl == verifyUrl.value
    ensures !Truthy(verifyUrl) ==> c.verifyUrl == BaseUrl(env) + "/verify/" + d.batchId
    ensures c.qrCode.None? <==> !Truthy(qrCode)
    ensures c.qrCode.Some? ==> c.qrCode == qrCode
  {
    var allVerified := forall i :: 0 <= i < |d.stages| ==> d.stages[i].verificationStatus == Verified;
    CertificateCounts(|d.stages|, allVerified, ImageCount(d.stages),
      OrElse(verifyUrl, BaseUrl(env) + "/verify/" + d.batchId),
      if Truthy(qrCode) then qrCode else None)
  }

  /** Every stage with at least one image: at least as many images as stages. */
  lemma {:induction false} ImageCountAtLeastStages(stages: seq<StageData>)
    requires forall i :: 0 <= i < |stages| ==> |stages[i].imageUrls| > 0
    ensures ImageCount(stages) >= |stages|
  {
    if stages != [] {
      ImageCountAtLeastStages(stages[..|stages| - 1]);
    }
  }

  /** A batch that passed the readiness gate is certified with at least one image per stage. */
  lemma ReadyCertificateCounts(env: Env, d: BatchData, qrCode: Option<string>, verifyUrl: Option<string>)
    requires ReadinessReport(d).ready
    ensures CertificateCountsOf(env, d, qrCode, verifyUrl).imagesVerified >= CertificateCountsOf(env, d, qrCode, verifyUrl).stagesCompleted >= 1
  {
    ImageCountAtLeastStages(d.stages);
  }

  function CertificateJson(env: Env, d: BatchData, tx: Transaction, qrCode: Option<string>, verifyUrl: Option<string>,
    clock: Clock): (v: JValue)
    ensures v.JObject? && Keys(v.fields) == ["version", "type", "issuedAt", "batch", "blockchain", "verification"]
      + (if tx.explorerUrl.Some? then ["explorerUrl"] else [])
  {
    var c := CertificateCountsOf(env, d, qrCode, verifyUrl);
    JObject([
      ("version", JString("1.0")),
      ("type", JString("GRAINTRUST_BATCH_CERTIFICATE")),
      ("issuedAt", JString(clock.iso)),
      ("batch", JObject([
        ("code", JString(d.batchCode)),
        ("crop", JString(d.cropType)),
        ("quantity", JQuantity(d.quantity)),
        ("farmer", JString(d.farmerName)),
        ("location", JString(d.location)),
        ("harvestDate", JString(d.harvestDate))])),
      ("blockchain", JObject([
        ("network", JString(tx.network)),
        ("transactionHash", JString(tx.transactionHash)),
        ("blockNumber", JNumber(tx.blockNumber)),
        ("dataHash", JString(tx.dataHash)),
        ("merkleRoot", JString(tx.merkleRoot)),
        ("timestamp", JString(tx.timestamp))])),
      ("verification", JObject([
        ("stagesCompleted", JNumber(c.stagesCompleted)),
        ("allStagesVerified", JBool(c.allStagesVerified)),
        ("imagesVerified", JNumber(c.imagesVerified)),
        ("verifyUrl", JString(c.verifyUrl)),
        ("qrCode", JNullable(c.qrCode))]))]
      + OptionalField("explorerUrl", if tx.explorerUrl.Some? then Some(JString(tx.explorerUrl.value)) else None))
  }

  /** `generateCertificate`: the certificate, indented by two spaces. */
  function GenerateCertificate(p: Primitives, env: Env, d: BatchData, tx: Transaction, qrCode: Option<string>,
    verifyUrl: Option<string>, clock: Clock): string
  {
    p.stringifyIndented(CertificateJson(env, d, tx, qrCode, verifyUrl, clock))
  }

  /**
   * A certificate names its batch and its transaction: under collision-free
   * primitives, equal certificates have the same batch code, transaction
   * hash, data hash, Merkle root and issue time.
   */
  lemma CertificateNamesBatch(p: Primitives, env: Env, d: BatchData, tx: Transaction, qrCode: Option<string>,
    verifyUrl: Option<string>, clock: Clock, d': BatchData, tx': Transaction, qrCode': Option<string>,
    verifyUrl': Option<string>, clock': Clock)
    requires CollisionFree(p)
    requires GenerateCertificate(p, env, d, tx, qrCode, verifyUrl, clock)
      == GenerateCertificate(p, env, d', tx', qrCode', verifyUrl', clock')
    ensures d.batchCode == d'.batchCode && clock.iso == clock'.iso
    ensures tx.transactionHash == tx'.transactionHash && tx.dataHash == tx'.dataHash && tx.merkleRoot == tx'.merkleRoot
  {
    var v := CertificateJson(env, d, tx, qrCode, verifyUrl, clock);
    var w := CertificateJson(env, d', tx', qrCode', verifyUrl', clock');
    assert v == w;
    assert v.fields[2].1 == JString(clock.iso) && w.fields[2].1 == JString(clock'.iso);
    assert v.fields[3].1.fields[0].1 == JString(d.batchCode) && w.fields[3].1.fields[0].1 == JString(d'.batchCode);
    var b, c := v.fields[4].1, w.fields[4].1;
    assert b.fields[1].1 == JString(tx.transactionHash) && c.fields[1].1 == JString(tx'.transactionHash);
    assert b.fields[3].1 == JString(tx.dataHash) && c.fields[3].1 == JString(tx'.dataHash);
    assert b.fields[4].1 == JString(tx.merkleRoot) && c.fields[4].1 == JString(tx'.merkleRoot);
  }
}
