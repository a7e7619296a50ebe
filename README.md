# GrainTrust batch integrity, modelled in Dafny

GrainTrust tracks farm batches. A farmer creates a batch, completes its growing stages, and uploads stage photos. An admin marks each photo REAL or FAKE and approves or rejects the batch. A batch that passes the readiness gate is anchored on a ledger: either the Polygon Amoy testnet, through a `GrainTrust` contract, or a simulated ledger that needs no gas. Anchoring means recording:

- a SHA-256 digest of the batch's canonical JSON;
- a Merkle root over the stage leaves.

Anyone can then recompute both from the current tables and compare. The comparison reports tampering, each check is logged, and an approved, anchored batch gets a certificate.

This project models that core:

- **blockchain service** (`BlockchainService`): the hashing pipeline, the Merkle tree, the simulated receipt, verification, the readiness rule, the certificate JSON and the QR payload.
- **Polygon service** (`PolygonService`): the Polygon service class, with its configuration, the bytes32 encoding, the contract call and its error mapping, and the on-chain comparison.
- **routes**:
  - blockchain sync, verify and status (`SyncRoute`, `VerifyRoute`, `StatusRoute`);
  - image verification (`ImageVerificationRoute`);
  - the two upload routes (`UploadRoute`, `UploadBatchImageRoute`);
  - batch creation and review (`BatchesRoute`);
  - certificate generation (`CertificateRoute`).

How the model is built:

- **Tables.** Supabase's tables are the fields of a `Persistence.Database` object; storage buckets are the field of a `Persistence.Storage` object.
- **Routes.** Every route is a specification function from the tables (and buckets) before the request to the response and the tables after it. It is implemented by a method that updates the objects in place and is proved equal to that function.
- **Outside the tables.** SHA-256 and `JSON.stringify` are uninterpreted functions (`Json.Primitives`). The clocks, `Math.random`, environment variables and ledger answers are parameters. So is the outcome of every database or storage request that can fail.
- **Stage snapshot.** The three blockchain routes share one rebuild of the batch snapshot: the `Snapshot` module.
- **Public URLs.** Supabase builds a stored object's public URL with JavaScript's `encodeURI`. The `Uri` module models `encodeURI` and `decodeURI`, and proves that decoding undoes encoding.

## Model

| member | source | states |
|---|---|---|
| `Config.Network` | src/lib/blockchain/blockchain-service.ts:68 | the ledger network is `BLOCKCHAIN_NETWORK` when set and non-empty, else `grain-trust-testnet` |
| `Config.ExplorerUrl` | src/lib/blockchain/blockchain-service.ts:69 | the explorer base is `BLOCKCHAIN_EXPLORER_URL` when set and non-empty, else `https://explorer.graintrust.io` |
| `Config.BaseUrl` | src/lib/blockchain/blockchain-service.ts:260 | the site base is `NEXTAUTH_URL` when set and non-empty, else `http://localhost:3005` |
| `BlockchainService.PairLevel` | src/lib/blockchain/blockchain-service.ts:95-107 | one tree level has ceil(n/2) nodes; node k hashes leaves 2k and 2k+1, or leaf 2k with itself when 2k+1 is past the end |
| `BlockchainService.PairLevelOddLast` | src/lib/blockchain/blockchain-service.ts:102-106 | on an odd level the last node is the hash of the last leaf concatenated with itself |
| `BlockchainService.MerkleRoot` | src/lib/blockchain/blockchain-service.ts:85-87 | no hashes give `H("empty")`; a single hash is its own root |
| `BlockchainService.CreateMerkleRoot` | src/lib/blockchain/blockchain-service.ts:85-113 | the level-by-level loop returns exactly the recursive Merkle root of the sorted hashes |
| `BlockchainService.MerkleRootPermutation` | src/lib/blockchain/blockchain-service.ts:90 | the root does not depend on the order of the hashes, since they are sorted first |
| `BlockchainService.ReduceLevelsIsHash` | src/lib/blockchain/blockchain-service.ts:94-110 | reducing two or more nodes always ends in an output of the hash function |
| `BlockchainService.MerkleRootIsHash` | src/lib/blockchain/blockchain-service.ts:94-112 | the root of two or more hashes is an output of the hash function, never one of the leaves |
| `BlockchainService.MerkleRootTwo` | src/lib/blockchain/blockchain-service.ts:90-101 | two hashes give `H(a+b)` with the smaller one first |
| `BlockchainService.MerkleRootThreeSorted` | src/lib/blockchain/blockchain-service.ts:94-110 | three sorted hashes give `H(H(a+b) + H(c+c))`: the odd leaf is paired with itself |
| `BlockchainService.HashImageSalted` | src/lib/blockchain/blockchain-service.ts:118-121 | `hashImage` (`BlockchainService.HashImage`) salts the URL with `Date.now()`: under collision-free hashing two calls agree only for the same URL at the same millisecond, so the same image hashed later gives a different hash |
| `BlockchainService.StageLeafJson` | src/lib/blockchain/blockchain-service.ts:157-163 | a stage leaf is the JSON object with keys completedAt, imageHashes, name, stageId, verificationStatus, in that order |
| `BlockchainService.StageLeafContent` | src/lib/blockchain/blockchain-service.ts:155-165 | two stages with the same identity, name, date, status and multiset of image hashes have the same leaf (image URLs do not enter it) |
| `BlockchainService.StagesMerkleRootSmall` | src/lib/blockchain/blockchain-service.ts:155-168 | `createStagesMerkleRoot` (`BlockchainService.StagesMerkleRoot`) of no stages is `H("empty")`, of one stage its own leaf, of two stages the hash of their two leaves in sorted order |
| `BlockchainService.StagesMerkleRootPermutation` | src/lib/blockchain/blockchain-service.ts:155-168 | the stages root does not depend on the order of the stages |
| `BlockchainService.StagesMerkleRootContent` | src/lib/blockchain/blockchain-service.ts:156-167 | stage lists that agree leaf-content-wise position by position have the same root |
| `BlockchainService.BatchJson` | src/lib/blockchain/blockchain-service.ts:128-146 | its keys are batchCode, batchId, cropType, farmerId, farmerName, harvestDate, location, quantity, stages, timestamp: sorted, as the comment promises, so key order never depends on the data; the snapshot's timestamp is the last field |
| `BlockchainService.CanonicalizeContent` | src/lib/blockchain/blockchain-service.ts:137-143 | a stage's canonical form ignores the order of its image URLs and hashes |
| `BlockchainService.HashBatchDataImageOrder` | src/lib/blockchain/blockchain-service.ts:126-150 | the data hash (`hashBatchData`, modelled by `BlockchainService.HashBatchData` as SHA-256 of `JSON.stringify` of `BatchJson`) does not change when the image lists of the stages are reordered |
| `BlockchainService.HashBatchDataStageOrder` | src/lib/blockchain/blockchain-service.ts:144 | with distinct stage names, the data hash does not depend on the order of the stages |
| `BlockchainService.TimestampSeparatesHashes` | src/lib/blockchain/blockchain-service.ts:126-150 | `hashBatchData` covers the snapshot time: under collision-free primitives, two snapshots with different timestamps hash apart |
| `BlockchainService.JStringsInjective` | src/lib/blockchain/blockchain-service.ts:139-140 | distinct sorted image lists give distinct JSON arrays |
| `BlockchainService.CanonicalStageJsonInjective` | src/lib/blockchain/blockchain-service.ts:137-143 | distinct canonical stages give distinct JSON objects |
| `BlockchainService.BatchJsonDuplicateNames` | src/lib/blockchain/blockchain-service.ts:144 | two different stages with the same name serialise differently in the two input orders, since the name sort is stable: the data hash is order-independent only for distinct names |
| `BlockchainService.GetExplorerUrl` | src/lib/blockchain/blockchain-service.ts:299-301 | the link is the explorer base + `/tx/` + the hash, and the hash can be read back from it |
| `BlockchainService.GetExplorerUrlInjective` | src/lib/blockchain/blockchain-service.ts:299-301 | distinct transactions get distinct explorer links |
| `BlockchainService.SyncToBlockchain` | src/lib/blockchain/blockchain-service.ts:174-212 | the simulated receipt carries the batch data hash, the stages root and the previous hash given; status CONFIRMED; a `0x` hash; block number ms/1000; a decimal gas figure; the configured network and its explorer link |
| `BlockchainService.QRDataJson` | src/lib/blockchain/blockchain-service.ts:344-352 | the QR payload is type GRAINTRUST_VERIFICATION with the transaction hash, network, data hash and explorer `/verify/` link, in that key order |
| `BlockchainService.QRDataNamesTransaction` | src/lib/blockchain/blockchain-service.ts:344-352 | `createVerificationQRData` (`BlockchainService.CreateVerificationQRData`) names its transaction: under a collision-free `JSON.stringify`, equal payloads carry the same transaction hash, network and data hash |
| `BlockchainService.Verification` | src/lib/blockchain/blockchain-service.ts:225-248 | verified iff both the data hash and the Merkle root match; isValid equals verified; mismatch details are absent iff verified, and otherwise name exactly the mismatching parts in fixed order |
| `BlockchainService.PushMismatches` | src/lib/blockchain/blockchain-service.ts:233-239 | the two pushes give the data-hash message, then the Merkle-root message, each only for its mismatch |
| `BlockchainService.VerifyOnBlockchain` | src/lib/blockchain/blockchain-service.ts:217-249 | the method recomputes both hashes from the current data and returns the verdict `Verification` specifies |
| `BlockchainService.SyncThenVerify` | src/lib/blockchain/blockchain-service.ts:174-249 | data checked against the receipt it was just anchored with is verified, with no mismatch details |
| `BlockchainService.ReadinessReport` | src/lib/blockchain/blockchain-service.ts:306-339 | ready iff no reasons; ready iff there are stages and every stage has images and none is FLAGGED; the reasons are the three messages in order, with their counts |
| `BlockchainService.IsReadyForBlockchain` | src/lib/blockchain/blockchain-service.ts:310-338 | the method with its filters computes exactly `ReadinessReport` |
| `BlockchainService.PendingStagesDoNotBlock` | src/lib/blockchain/blockchain-service.ts:323-327 | with the verified-stage check disabled, stages with images that are still PENDING are ready |
| `BlockchainService.ReadinessReasonsCount` | src/lib/blockchain/blockchain-service.ts:329-333 | once every stage has images, the only possible reason is the flagged-stage count |
| `BlockchainService.ReadinessOfSameShape` | src/lib/blockchain/blockchain-service.ts:306-339 | two snapshots with the same number of stages, each with the same image count and verdict, get the same readiness report |
| `BlockchainService.CertificateCountsOf` | src/lib/blockchain/blockchain-service.ts:283-289 | the certificate counts all stages, is all-verified iff every stage is VERIFIED, and sums the images; the verify URL falls back to base + `/verify/` + batch; the QR code is null iff empty |
| `BlockchainService.ImageCountAtLeastStages` | src/lib/blockchain/blockchain-service.ts:286 | when every stage has an image, the image total is at least the stage count |
| `BlockchainService.ReadyCertificateCounts` | src/lib/blockchain/blockchain-service.ts:284-286 | a batch that passed the gate is certified with at least one stage and at least as many images as stages |
| `BlockchainService.CertificateJson` | src/lib/blockchain/blockchain-service.ts:263-291 | the certificate has keys version, type, issuedAt, batch, blockchain, verification, plus explorerUrl only when the receipt has one |
| `BlockchainService.CertificateNamesBatch` | src/lib/blockchain/blockchain-service.ts:254-292 | `generateCertificate` (`BlockchainService.GenerateCertificate`) names its batch and its anchoring: under a collision-free indented `JSON.stringify`, equal certificates have the same batch code, issue time, transaction hash, data hash and Merkle root |
| `PolygonService.SpreadRpcUrl` | src/lib/blockchain/polygon-blockchain-service.ts:39-42 | the merged configuration keeps the Amoy RPC only when the caller omits `rpcUrl`; a given field, even `undefined`, wins |
| `PolygonService.SpreadRpcUrlErasesDefault` | src/lib/blockchain/polygon-blockchain-service.ts:39-42 | an explicit `rpcUrl: undefined` leaves no RPC URL at all |
| `PolygonService.ResolveRpcUrl` | src/lib/blockchain/polygon-blockchain-service.ts:39-42 | the intended RPC URL: the caller's URL when set and non-empty, else the Amoy RPC |
| `PolygonService.ResolveRpcUrlAgrees` | src/lib/blockchain/polygon-blockchain-service.ts:39-42 | the resolved URL agrees with the spread whenever the spread yields a usable URL, and is the Amoy RPC otherwise |
| `PolygonService.Strip0x` | src/lib/blockchain/polygon-blockchain-service.ts:83 | a leading `0x` is removed, anything else is kept |
| `PolygonService.ToBytes32` | src/lib/blockchain/polygon-blockchain-service.ts:81-89 | the encoding is `0x`, then zeros up to 64 digits, then the digits: at least 64 digits long |
| `PolygonService.ToBytes32Length` | src/lib/blockchain/polygon-blockchain-service.ts:86 | a value of at most 64 digits becomes exactly 66 characters |
| `PolygonService.ToBytes32Idempotent` | src/lib/blockchain/polygon-blockchain-service.ts:81-89 | encoding an encoded value changes nothing |
| `PolygonService.DropZeros` | src/lib/blockchain/polygon-blockchain-service.ts:198-201 | the `0+` part of the pattern: removes exactly the leading zeros, leaving a string that is empty or starts with a non-zero digit |
| `PolygonService.RegexClean` | src/lib/blockchain/polygon-blockchain-service.ts:198-201 | `/^0x0+/` removes the `0x` and the leading zeros only when a zero follows `0x`; otherwise the string is unchanged |
| `PolygonService.AsWrittenRejectsOwnEncoding` | src/lib/blockchain/polygon-blockchain-service.ts:197-205 | as written, a 64-digit digest never matches its own bytes32 encoding |
| `PolygonService.AsWrittenRejectsExample` | src/lib/blockchain/polygon-blockchain-service.ts:197-205 | concrete case: the digest `a` followed by 63 zeros fails against its encoding |
| `PolygonService.CanonicalHexOfBytes32` | src/lib/blockchain/polygon-blockchain-service.ts:197-205 | the corrected comparison form (no `0x`, no leading zeros) is the same for a digest and its bytes32 encoding |
| `PolygonService.ClassifyPolygonError` | src/lib/blockchain/polygon-blockchain-service.ts:152-161 | INSUFFICIENT_FUNDS gives the faucet message; otherwise a message containing "already synced" gives the already-synced message; otherwise `Polygon sync failed: <message>` |
| `PolygonService.SyncCallOf` | src/lib/blockchain/polygon-blockchain-service.ts:102-121 | the contract is called with the batch id and code and the bytes32 forms of the data hash and the stages root |
| `PolygonService.RealSyncResult` | src/lib/blockchain/polygon-blockchain-service.ts:127-162 | a mined call gives a CONFIRMED `polygon-amoy` receipt with the mined hash, block and gas, the un-padded hashes, no previous hash and an Amoy Polygonscan link; a rejected call gives the classified error |
| `PolygonService.PolygonCompare` | src/lib/blockchain/polygon-blockchain-service.ts:193-218 | (corrected) verified iff both hashes agree once zeros and `0x` are stripped; the on-chain data and the contract's explorer address are reported |
| `PolygonService.SyncedBatchVerifies` | src/lib/blockchain/polygon-blockchain-service.ts:102-121 | a batch whose on-chain hashes are the ones the sync call sent verifies under the corrected comparison |
| `PolygonService.PolygonCompareAsWritten` | src/lib/blockchain/polygon-blockchain-service.ts:193-218 | as written: verified iff both sides agree after `replace(/^0x0+/, '')`; the on-chain data is reported with network `polygon-mumbai`, and the contract's explorer address |
| `PolygonService.AsWrittenSyncedBatchFails` | src/lib/blockchain/polygon-blockchain-service.ts:102-121 | as written, a batch whose on-chain data hash is the one the sync sent (a bare 64-digit digest) is reported unverified by the Polygon check |
| `PolygonService.PolygonBlockchainService.constructor` | src/lib/blockchain/polygon-blockchain-service.ts:38-76 | the configuration is the source's spread `{ rpcUrl: POLYGON_AMOY_RPC, ...config }`, so an explicitly passed undefined URL stays undefined; a provider exists iff the real ledger is on and is built on that URL (possibly undefined); a signer iff there is also a key; a contract iff there is also an address |
| `PolygonService.PolygonBlockchainService.IsUsingRealBlockchain` | src/lib/blockchain/polygon-blockchain-service.ts:251-253 | the real ledger is in use iff it is enabled and both the key and the contract address are set |
| `PolygonService.PolygonBlockchainService.SyncToPolygon` | src/lib/blockchain/polygon-blockchain-service.ts:94-163 | without a contract the simulated receipt (no previous hash) is returned; with one, the result of the contract call |
| `PolygonService.PolygonBlockchainService.VerifyOnPolygon` | src/lib/blockchain/polygon-blockchain-service.ts:168-224 | not enabled throws; a failed lookup throws `Verification failed: …`; an absent batch is unverified with no data; a present one is compared as written, by `PolygonCompareAsWritten` |
| `PolygonService.NewPolygonService` | src/lib/blockchain/polygon-blockchain-service.ts:52-76 | construction throws `Polygon initialization failed` exactly when the real ledger is on, a key is given and the wallet rejects it; otherwise the service holds the spread configuration, with an undefined URL when one was passed as undefined |
| `Persistence.StagesOf` | src/app/api/blockchain/sync/route.ts:56-60 | the stage query returns exactly the stored stages of the batch |
| `Persistence.RecordsOf` | src/app/api/blockchain/status/route.ts:40-45 | the record query returns exactly the batch's records |
| `Persistence.LogsOf` | src/app/api/blockchain/status/route.ts:47-52 | the log query returns exactly the batch's verification logs |
| `Persistence.LatestRecord` | src/app/api/blockchain/sync/route.ts:122-129 | the newest record of the batch, absent iff the batch has none |
| `Persistence.LatestRecordAppend` | src/app/api/blockchain/sync/route.ts:170-185 | after a record of the batch is inserted, it is the newest one; records of other batches leave it unchanged |
| `Persistence.Single` | src/app/api/blockchain/verify/route.ts:50-55 | `.single()` yields a row iff the query returns exactly one |
| `Persistence.Storage.Upload` | src/app/api/upload/route.ts:67-72 | an upload without upsert succeeds iff the request does not fail, the bucket exists and the path is free; then only that object is added, otherwise nothing changes |
| `Persistence.Storage.Remove` | src/app/api/upload/route.ts:121-124 | a removal that does not fail deletes the key from the bucket and nothing else |
| `Persistence.PublicUrlShape` | src/app/api/upload-batch-image/route.ts:57-61 | the public URL is `encodeURI` of `<project>/storage/v1/object/public/<bucket>/<path>`: the encoded project URL, the marker (which `encodeURI` leaves alone), then the encoded bucket, `/` and the encoded path |
| `Persistence.PublicUrlDecodes` | src/app/api/upload-batch-image/route.ts:57-61 | `decodeURI` of a public URL gives back the unencoded URL, so project, bucket and path can be read back from it |
| `Uri.EncodeUriAppend` | src/app/api/upload-batch-image/route.ts:57-61 | `encodeURI` works character by character: it distributes over concatenation |
| `Uri.EncodeUriUnchanged` | src/app/api/upload-batch-image/route.ts:57-61 | `encodeURI` leaves a string unchanged iff every character is a letter, a digit, one of ``-_.!~*'()`` or a reserved character; a space, `%` or a non-ASCII character is escaped |
| `Uri.DecodeEncodeUri` | src/app/api/image-verification/route.ts:49-54 | `decodeURI(encodeURI(s)) == s` for every string, so the corrected removal key recovers the stored path |
| `Snapshot.DeriveStageStatus` | src/app/api/blockchain/sync/route.ts:83-95 | FLAGGED iff some verification of the stage is FAKE; VERIFIED iff there are images, as many verifications as images, and all are REAL |
| `Snapshot.DeriveStageStatusCountsOnly` | src/app/api/blockchain/sync/route.ts:85-87 | the status compares only the number of images with the number of verifications, not which images they are |
| `Snapshot.DeriveStageStatusOtherImage` | src/app/api/blockchain/sync/route.ts:83-87 | a REAL verdict on an image that is not in the stage still makes a one-image stage VERIFIED |
| `Snapshot.BuildStage` | src/app/api/blockchain/sync/route.ts:76-97 | a stage snapshot keeps the id and name, falls back to now for a missing date and to no images, hashes every image, and takes its derived status |
| `Snapshot.BuildBatchData` | src/app/api/blockchain/sync/route.ts:99-110 | the batch snapshot copies the batch's identity, crop, farmer, quantity, location and harvest date, and builds one stage per row in order |
| `Snapshot.FakeImageBlocksReadiness` | src/app/api/blockchain/sync/route.ts:83-120 | one FAKE verdict on a stage of the batch makes the batch not ready |
| `Snapshot.ReadSnapshot` | src/app/api/blockchain/sync/route.ts:55-110 | the snapshot as read: the tables' snapshot when both reads succeed; no stages when the stage read fails (`stages || []`); the stage count of the batch otherwise; the given timestamp |
| `Snapshot.LostVerificationsFlagNothing` | src/app/api/blockchain/sync/route.ts:69-95 | when the verification read fails (`verifications || []`), no stage is flagged: every stage is PENDING |
| `Snapshot.ReadinessIgnoresClock` | src/lib/blockchain/blockchain-service.ts:306-339 | the readiness report of a snapshot depends on neither the clock, nor the timestamp, nor the hash primitive: only on stage image counts and verdicts |
| `Snapshot.LostVerificationsPassGate` | src/app/api/blockchain/sync/route.ts:69-120 | as written, when the verification read fails, a batch with at least one stage, every stage with images, passes the readiness gate whatever its verdicts |
| `SyncRoute.SyncSnapshot` | src/app/api/blockchain/sync/route.ts:55-110 | the snapshot the sync hashes is the tables' snapshot at the snapshot clock when the verification read succeeds, stamped with that clock's time, one entry per stage row |
| `SyncRoute.PreviousHash` | src/app/api/blockchain/sync/route.ts:122-166 | the previous hash is the newest record's data hash when the read succeeds and that hash is non-empty; a failed read (its error is ignored), no record or an empty hash give null |
| `SyncRoute.SelectBackend` | src/app/api/blockchain/sync/route.ts:131-168 | the receipt always anchors this snapshot's hashes; it is simulated unless Polygon is configured and the call is mined, and then it is Polygon's |
| `SyncRoute.RecordRow` | src/app/api/blockchain/sync/route.ts:170-185 | the record row copies the receipt's hashes, previous hash, status and time with type BATCH_CREATED |
| `SyncRoute.SyncedRow` | src/app/api/blockchain/sync/route.ts:191-203 | the updated batch is SYNCED / BLOCKCHAIN_SYNCED with the receipt's hashes, time and network, with other columns kept |
| `SyncRoute.SyncWrites` | src/app/api/blockchain/sync/route.ts:170-234 | the writes add one record unless the insert fails, update only this batch (its verdict fields kept), add the QR code and verify URL only when one was generated and its update succeeded, and leave the other tables alone |
| `SyncRoute.RunBackend` | src/app/api/blockchain/sync/route.ts:131-168 | step 8 returns the receipt `SelectBackend` specifies, with Polygon's errors falling back to the simulated ledger |
| `SyncRoute.ApplySyncWrites` | src/app/api/blockchain/sync/route.ts:170-234 | steps 9-12, each of which can fail on its own (record insert, batch update, QR-code update), leave the tables `SyncWrites` specifies |
| `SyncRoute.Sync` | src/app/api/blockchain/sync/route.ts:15-265 | missing id is 400; a missing batch or failed batch read is 404; a SYNCED batch gets the already-synced reply; every reply but a completed sync leaves the tables; a completed sync is of an unsynced batch whose stages were read and whose snapshot passed the gate, reports the receipt of that snapshot's hashes, and writes `SyncWrites` |
| `SyncRoute.SyncPost` | src/app/api/blockchain/sync/route.ts:15-265 | the route, with failures of the batch, stage, verification and previous-record reads and of the three writes as parameters, returns the response and leaves the tables of the specification `Sync` |
| `SyncRoute.SyncWritesOnlyWhenSynced` | src/app/api/blockchain/sync/route.ts:24-120 | the corollary of `SyncRoute.Sync`'s contract that the later lemmas use: every refusal leaves the tables unchanged; a sync happens only for a named, existing, unsynced batch and writes exactly `SyncWrites` |
| `SyncRoute.SyncedTransaction` | src/app/api/blockchain/sync/route.ts:112-168 | a sync happened only after the stages were read and the snapshot passed the readiness gate, and its receipt is the backend's for that snapshot |
| `SyncRoute.UnsyncedBatchReachesGate` | src/app/api/blockchain/sync/route.ts:55-120 | an existing unsynced batch fails only on the stage read, or is refused as not ready, or is synced |
| `SyncRoute.AlreadySyncedIgnoresBackend` | src/app/api/blockchain/sync/route.ts:45-53 | an already-synced batch is answered from its row alone: the already-synced reply with its stored hash and its explorer link, and no writes, whatever the ledger, the clocks and the faults after the batch read; a failed batch read gives 404 instead |
| `SyncRoute.NotReadyReportsReasons` | src/app/api/blockchain/sync/route.ts:112-120 | a batch that is not ready is refused with the readiness reasons (at least one) and nothing is written |
| `SyncRoute.FakeImageStopsSync` | src/app/api/blockchain/sync/route.ts:83-120 | when the batch, stage and verification reads succeed, one FAKE verdict on a stage keeps an unsynced batch off the ledger and the tables unchanged (see `LostVerificationsSyncFakeImage` for a failed verification read) |
| `SyncRoute.LostVerificationsSyncFakeImage` | src/app/api/blockchain/sync/route.ts:69-120 | as written, when the verification read fails, an unsynced batch with images on every stage is anchored even with a FAKE verdict on one of its images |
| `SyncRoute.SyncAnchorsSnapshot` | src/app/api/blockchain/sync/route.ts:170-207 | a sync anchors the hashes of a ready snapshot; the new record and the batch row carry them unless their writes fail |
| `SyncRoute.SyncChainsRecords` | src/app/api/blockchain/sync/route.ts:122-189 | on the simulated ledger each receipt links back to the previous record's data hash when that read succeeds and the hash is non-empty, and to null when the read fails; the new record becomes the newest |
| `SyncRoute.PolygonFallback` | src/app/api/blockchain/sync/route.ts:137-161 | with the real ledger on but unconfigured, or the call rejected, the simulated receipt with the previous hash is used |
| `SyncRoute.SyncTwice` | src/app/api/blockchain/sync/route.ts:45-53 | a second sync of a synced batch changes nothing and reports the first transaction |
| `VerifyRoute.TransactionRecord` | src/app/api/blockchain/verify/route.ts:49-63 | a record is found only for the batch's own transaction hash, and only when exactly one row matches |
| `VerifyRoute.VerificationResultJson` | src/app/api/blockchain/verify/route.ts:133 | the logged details keep the result's key order and carry mismatchDetails only when present |
| `VerifyRoute.LogRow` | src/app/api/blockchain/verify/route.ts:123-134 | the log row names the batch and transaction, the automated system verifier, and PASSED iff verified |
| `VerifyRoute.CheckedResponse` | src/app/api/blockchain/verify/route.ts:136-158 | the reply reports the verdict with its message, the explorer link of the record, and `match` iff current equals on-chain hash |
| `VerifyRoute.VerifySnapshot` | src/app/api/blockchain/verify/route.ts:65-111 | the check rebuilds the batch at its own clock, stamped with the row's sync time (or the clock's when absent): the tables' snapshot when the reads succeed, no stages when the stage read fails |
| `VerifyRoute.CheckResult` | src/app/api/blockchain/verify/route.ts:113-121 | the rebuilt snapshot is verified iff its data hash and Merkle root both equal the record's; the reply carries the rebuilt and recorded data hashes and the check's date |
| `VerifyRoute.Verify` | src/app/api/blockchain/verify/route.ts:14-167 | a missing id is 400; 404 iff the batch is absent or its read fails; not synced iff a found batch is not SYNCED, reporting its status or NOT_SYNCED; for a found SYNCED batch, record-not-found iff the record read fails or no single record has its transaction hash, and checked otherwise; a checked reply is `CheckedResponse` of `CheckResult` for that record; every other reply leaves the tables, a check appends at most one log row and changes nothing else |
| `VerifyRoute.VerifyGet` | src/app/api/blockchain/verify/route.ts:14-167 | the route, with failures of the batch, record, stage and verification reads and of the log insert as parameters, returns the response and leaves the tables of the specification `Verify` |
| `VerifyRoute.CheckAndLog` | src/app/api/blockchain/verify/route.ts:113-158 | steps 6-7 reply as `CheckedResponse` and append exactly one log row unless the insert fails |
| `VerifyRoute.NotSyncedWritesNothing` | src/app/api/blockchain/verify/route.ts:40-47 | an unsynced batch is reported as not synced (NOT_SYNCED when it has no status), and nothing is logged |
| `VerifyRoute.CheckLogsOnce` | src/app/api/blockchain/verify/route.ts:113-134 | a check is verified iff both recomputed hashes equal the record's; it appends one log of the batch, PASSED iff verified, and changes nothing else |
| `VerifyRoute.VerifyWritesOnlyWhenChecked` | src/app/api/blockchain/verify/route.ts:19-63 | only an actual check writes anything |
| `VerifyRoute.SyncWritesKeepSnapshot` | src/app/api/blockchain/verify/route.ts:65-111 | the sync's writes do not change the snapshot the tables give of the batch |
| `VerifyRoute.NewTransactionRecord` | src/app/api/blockchain/verify/route.ts:50-55 | a freshly inserted record with a new transaction hash is the one the lookup finds |
| `VerifyRoute.SyncThenVerify` | src/app/api/blockchain/verify/route.ts:14-158 | right after a sync that wrote its record and row, the verify route finds the record and checks the batch; it passes iff the batch rebuilt at the check's clock and stamped with the receipt's time hashes as the sync's snapshot, and otherwise reports the modified-data message |
| `VerifyRoute.SyncWritesAreFound` | src/app/api/blockchain/verify/route.ts:49-111 | after the sync's writes the batch is SYNCED, its record is found by its transaction hash, the receipt's time is the receipt clock's, and the check rebuilds the tables' batch at its own clock, stamped with that time |
| `VerifyRoute.SyncThenVerifyFailsAsWritten` | src/app/api/blockchain/verify/route.ts:100-121 | as written, with collision-free primitives and a receipt time text different from the snapshot time text, a check right after a sync reports the batch modified, with the modified-data message; the source does not force the two texts apart, so `ImageSaltsFailCheck` gives the cause that holds without that hypothesis |
| `VerifyRoute.ReceiptStampSeparates` | src/app/api/blockchain/verify/route.ts:100-111 | with collision-free primitives, the batch stamped with a receipt time different from the snapshot time hashes differently from the anchored snapshot |
| `VerifyRoute.ImageSaltsFailCheck` | src/app/api/blockchain/verify/route.ts:64-121 | as written, with collision-free primitives, a check right after a sync reports the unchanged batch modified, with the modified-data message, whenever the check's `Date.now()` differs from the sync's, whatever the two timestamps: every image hash is salted again |
| `VerifyRoute.ImageSaltsSeparate` | src/app/api/blockchain/verify/route.ts:64-111 | the snapshot the check rebuilds at another millisecond hashes apart from the ready snapshot the sync anchored, whatever their timestamps |
| `BlockchainService.SaltSeparatesHashes` | src/lib/blockchain/blockchain-service.ts:118-150 | two snapshots whose images were hashed at different milliseconds, the first with at least one image, have different data hashes under collision-free primitives, whatever else they hold |
| `Snapshot.ReadSnapshotSalted` | src/app/api/blockchain/sync/route.ts:76-97 | every image hash of a rebuilt snapshot is `hashImage` of its own URL at the rebuilding request's `Date.now()` |
| `VerifyRoute.IntendedCheckResult` | src/app/api/blockchain/verify/route.ts:100-121 | (corrected) the check rebuilds the batch at the anchoring reading of the sync, so the timestamp and the image salts are those that were hashed; verified iff both hashes equal the record's |
| `VerifyRoute.IntendedSyncThenVerify` | src/app/api/blockchain/verify/route.ts:14-158 | (corrected) right after a sync that wrote its record and its row, the check of unchanged data finds the record and passes, whatever the clocks of the ledger call and of the check |
| `StatusRoute.ToRecordView` | src/app/api/blockchain/status/route.ts:124-136 | a listed record keeps its id, type, data hash, Merkle root, transaction hash, block number, gas, network, status and sync time, and gets the explorer link of its own transaction |
| `StatusRoute.ChainStatusOf` | src/app/api/blockchain/status/route.ts:111-122 | synced iff the status is SYNCED; NOT_SYNCED for no status; verified iff stored true; an explorer link iff there is a transaction hash |
| `StatusRoute.LogsRead` | src/app/api/blockchain/status/route.ts:47-53 | the history is the batch's ten newest logs, newest first, or none when the read fails |
| `StatusRoute.LastVerified` | src/app/api/blockchain/status/route.ts:147 | lastVerified is the first listed log's time when there is one with a non-empty time, else null |
| `StatusRoute.Status` | src/app/api/blockchain/status/route.ts:14-158 | a missing id is 400; 404 iff the batch is absent or its read fails; a report shows the batch row, its chain status, readiness exactly while unsynced (the report of the current snapshot), every record of the batch newest first as its own view when the record read succeeds, at most ten logs, and counts equal to the lists shown |
| `StatusRoute.StatusGet` | src/app/api/blockchain/status/route.ts:14-158 | the route replies as the specification `Status` says, and writes nothing |
| `StatusRoute.StatusRecordsNewestFirst` | src/app/api/blockchain/status/route.ts:40-45 | every record of the batch is listed once and counted, the newest first, each as its own view with its own explorer link (lines 124-136) |
| `StatusRoute.StatusHistoryNewestFirst` | src/app/api/blockchain/status/route.ts:137-148 | the history lists at most ten logs (all of them when there are at most ten), newest first; it counts them; lastVerified is the newest log's time |
| `StatusRoute.HistoryViewNewestFirst` | src/app/api/blockchain/status/route.ts:47-53 | the same, for the views of the logs that were read |
| `StatusRoute.ReadinessOnlyWhenUnsynced` | src/app/api/blockchain/status/route.ts:55-102 | readiness is reported iff the batch is not SYNCED, and it is the readiness rule applied to the snapshot |
| `StatusRoute.StatusPredictsSync` | src/app/api/blockchain/status/route.ts:55-102 | for any clocks and primitives, when the reads succeed and the verification reads agree, the status report's readiness predicts the sync route: refused with the same reasons, or synced |
| `StatusRoute.StatusOfAnchoredBatch` | src/app/api/blockchain/status/route.ts:104-149 | for a synced batch whose newest record is given, the report has no readiness, lists that record first and counts it |
| `StatusRoute.StatusAfterSync` | src/app/api/blockchain/status/route.ts:111-145 | after a successful sync the status reports synced and verified with the new transaction, the new record first, and one more record |
| `ImageVerificationRoute.ValidationError` | src/app/api/image-verification/route.ts:22-43 | missing fields are refused first, then FAKE without a reason, then a status other than REAL or FAKE; nothing is refused otherwise |
| `ImageVerificationRoute.AsWrittenRemovalKey` | src/app/api/image-verification/route.ts:49-51 | as written, the key is the URL's tail after the public marker, or nothing when the marker is absent |
| `ImageVerificationRoute.RemovalKey` | src/app/api/image-verification/route.ts:45-65 | (corrected) the key is that tail with `batch-images/` taken off and then `decodeURI` applied, and is absent when the URL is not an object of that bucket or the tail does not decode |
| `ImageVerificationRoute.Updated` | src/app/api/image-verification/route.ts:77-100 | an update keeps the row's identity, image, stage, batch and farmer; sets the verdict, verifier and times; keeps the reason for FAKE and clears it for REAL |
| `ImageVerificationRoute.Inserted` | src/app/api/image-verification/route.ts:104-125 | a new row carries the request's image, stage, batch, farmer, verdict and verifier, the time, and the reason only for FAKE |
| `ImageVerificationRoute.UpdateImageRows` | src/app/api/image-verification/route.ts:94-98 | the update touches exactly the rows of this image in this stage |
| `ImageVerificationRoute.NotificationFor` | src/app/api/image-verification/route.ts:156-186 | REAL notifies IMAGE_VERIFIED; FAKE notifies IMAGE_FLAGGED quoting the reason, or the generic message without one; other statuses set no type, title or message |
| `ImageVerificationRoute.BucketsAfterVerdict` | src/app/api/image-verification/route.ts:45-65 | as written, a FAKE verdict removes the object at `AsWrittenRemovalKey` from `batch-images` unless the removal fails; nothing else in storage changes |
| `ImageVerificationRoute.IntendedBucketsAfterVerdict` | src/app/api/image-verification/route.ts:45-65 | (corrected) the same, with the bucket-relative `RemovalKey` |
| `ImageVerificationRoute.RecordVerdict` | src/app/api/image-verification/route.ts:67-144 | a failed write is a 500 that changes nothing; otherwise the reply has the request's image, stage, verdict, verifier, time and reason, at most one verification row is added, at most one notification is appended, and only those two tables change |
| `ImageVerificationRoute.Post` | src/app/api/image-verification/route.ts:9-153 | a refused request changes neither tables nor storage; an accepted one changes only `batch-images` storage (and only for FAKE) and the verification and notification tables, fails exactly on a failed write, and records the request's verdict |
| `ImageVerificationRoute.Delete` | src/app/api/image-verification/route.ts:255-295 | both ids are required; a failed delete changes nothing; a reset removes exactly the verifications of that image in that stage and keeps every other row |
| `ImageVerificationRoute.VerificationPost` | src/app/api/image-verification/route.ts:9-153 | the route returns the response and leaves the tables and buckets of the specification `Post` |
| `ImageVerificationRoute.RemoveFlaggedImage` | src/app/api/image-verification/route.ts:45-65 | the storage step leaves the buckets `BucketsAfterVerdict` specifies, ignoring a failed removal |
| `ImageVerificationRoute.StoreVerdict` | src/app/api/image-verification/route.ts:67-144 | the table step replies and writes as `RecordVerdict` specifies |
| `ImageVerificationRoute.VerificationsGet` | src/app/api/image-verification/route.ts:208-253 | the listing needs a stage or a batch; it filters by stage when one is given, else by batch, and returns exactly the matching rows |
| `ImageVerificationRoute.VerificationDelete` | src/app/api/image-verification/route.ts:255-295 | the route returns the response and leaves the tables of the specification `Delete` |
| `ImageVerificationRoute.RefusedPostChangesNothing` | src/app/api/image-verification/route.ts:22-43 | a refused verdict touches neither the tables nor storage |
| `ImageVerificationRoute.PostRecordsVerdict` | src/app/api/image-verification/route.ts:67-129 | a recorded verdict is in the table with the request's image, stage, verdict, verifier, time and reason, and is what `.single()` finds for the image afterwards |
| `ImageVerificationRoute.UpdateKeepsOnlyRow` | src/app/api/image-verification/route.ts:94-100 | with one row for the image, the update returns that row updated |
| `ImageVerificationRoute.NoRowOfImage` | src/app/api/image-verification/route.ts:68-73 | under unique image pairs, `.single()` finding nothing means the image has no row |
| `ImageVerificationRoute.RecordVerdictKeepsUniquePairs` | src/app/api/image-verification/route.ts:77-129 | updating or inserting keeps at most one verification per image of a stage |
| `ImageVerificationRoute.LostExistenceReadDuplicates` | src/app/api/image-verification/route.ts:68-98 | as written, when the existence read fails for an image that already has a verification, a second row for the same image and stage is inserted |
| `ImageVerificationRoute.PostKeepsUniquePairs` | src/app/api/image-verification/route.ts:9-153 | POST keeps at most one verification per image of a stage |
| `ImageVerificationRoute.PostNotifiesFarmer` | src/app/api/image-verification/route.ts:131-144 | a recorded verdict appends one notification for the farmer that references the verification: IMAGE_VERIFIED iff REAL; a FAKE one quotes the reason; the generic message is never sent |
| `ImageVerificationRoute.FakeVerdictStopsSync` | src/app/api/image-verification/route.ts:104-129 | after a FAKE verdict on a stage of an unsynced batch, the sync route refuses the batch as not ready |
| `ImageVerificationRoute.DeleteResetsImage` | src/app/api/image-verification/route.ts:268-286 | a reset removes every verification of the image in the stage, keeps every other row and changes no other table |
| `ImageVerificationRoute.DeleteUndoesInsert` | src/app/api/image-verification/route.ts:255-295 | resetting a verdict that was just inserted restores the verification table |
| `ImageVerificationRoute.PublicUrlTail` | src/app/api/image-verification/route.ts:49-51 | the public URL of a `batch-images` object splits into `batch-images/<encoded path>` |
| `ImageVerificationRoute.AsWrittenKeepsFakeImage` | src/app/api/image-verification/route.ts:49-54 | as written, the removal key of an uploaded image is `batch-images/<encoded path>`, not its key, so after a FAKE verdict the object is still in `batch-images`, both under `BucketsAfterVerdict` and under `Post` |
| `ImageVerificationRoute.FakeVerdictRemovesImage` | src/app/api/image-verification/route.ts:45-65 | (corrected) with the bucket-relative, decoded key, a FAKE verdict removes the uploaded object, whatever characters its path holds |
| `UploadRoute.ValidateFile` | src/app/api/upload/route.ts:5-21 | valid iff the type is allowed and the size within the limit; the type is tested first; each refusal has its message |
| `UploadRoute.SanitizeFolderName` | src/app/api/upload/route.ts:53-54 | an empty or missing name becomes `unknown`; otherwise each character is lower-cased if allowed and becomes `-` if not |
| `UploadRoute.Extension` | src/app/api/upload/route.ts:48 | the extension is the dot-free tail of the file name |
| `UploadRoute.Upload` | src/app/api/upload/route.ts:23-106 | no file is 400, an invalid file 400 with the validation error; every refusal leaves storage; a stored file is valid, goes under a new path into the configured bucket with its type and size, and its public URL is reported |
| `UploadRoute.DeleteFile` | src/app/api/upload/route.ts:109-143 | a file name is required; a failed removal changes nothing; a removal deletes only that file, keeps every other file of the bucket and every other bucket |
| `UploadRoute.UploadPost` | src/app/api/upload/route.ts:23-106 | the route returns the response and leaves the buckets of the specification `Upload` |
| `UploadRoute.FileDelete` | src/app/api/upload/route.ts:109-143 | the route returns the response and leaves the buckets of the specification `DeleteFile` |
| `UploadRoute.FolderNameIsSafe` | src/app/api/upload/route.ts:53-61 | a sanitised folder name is non-empty, contains no `/` and uses only allowed characters |
| `UploadRoute.SanitizeIdempotent` | src/app/api/upload/route.ts:53-54 | sanitising a sanitised name changes nothing |
| `UploadRoute.SafeNameKept` | src/app/api/upload/route.ts:53-54 | a non-empty name of lower-case allowed characters is kept |
| `UploadRoute.NoDotExtension` | src/app/api/upload/route.ts:48 | a file name without a dot is its own extension |
| `UploadRoute.UploadStoresFile` | src/app/api/upload/route.ts:42-97 | a successful upload passed validation; it stores the file under the free path `farmer/batch/stage/<time>-<random>.<ext>`, whose three folder names contain no `/`, and keeps every other object |
| `UploadRoute.DeleteUndoesUpload` | src/app/api/upload/route.ts:109-134 | deleting the reported file name restores the buckets as they were |
| `UploadBatchImageRoute.SanitizeName` | src/app/api/upload-batch-image/route.ts:37-38 | every disallowed character becomes `_`, allowed ones are kept as they are, and the length is kept |
| `UploadBatchImageRoute.BatchImageUpload` | src/app/api/upload-batch-image/route.ts:10-76 | no file is 400, missing names 400; every refusal leaves storage; a stored image goes, under `user/stage/<time>-<name>` and not over an existing object, into `batch-images` and its public URL is reported |
| `UploadBatchImageRoute.BatchImagePost` | src/app/api/upload-batch-image/route.ts:10-76 | the route returns the response and leaves the buckets of the specification `BatchImageUpload` |
| `UploadBatchImageRoute.SanitizeNameKeepsSafeNames` | src/app/api/upload-batch-image/route.ts:37-38 | a name of allowed characters is kept |
| `UploadBatchImageRoute.FolderShape` | src/app/api/upload-batch-image/route.ts:35-39 | the folder is the two sanitised names around its only `/`, and the stored path lies inside it |
| `UploadBatchImageRoute.BatchImageStoresFile` | src/app/api/upload-batch-image/route.ts:42-67 | a successful upload stores the file under the free path it reports, adds only that key, and reports the public URL and the enclosing folder |
| `UploadBatchImageRoute.FlaggedUploadIsRemoved` | src/app/api/upload-batch-image/route.ts:57-67 | (corrected) the URL this route reports, flagged FAKE, has its object removed under the bucket-relative, decoded key, also for a file name that `encodeURI` changes |
| `UploadBatchImageRoute.FlaggedUploadStaysAsWritten` | src/app/api/upload-batch-image/route.ts:57-67 | as written, the URL this route reports, flagged FAKE, keeps its object in storage |
| `BatchesRoute.BatchCode` | src/app/api/batches/route.ts:27 | the code is `FB` followed by digits whose value is the count plus one, padded with zeros to exactly three digits or the digit count when longer |
| `BatchesRoute.BatchCodeInjective` | src/app/api/batches/route.ts:27 | distinct counts give distinct codes |
| `BatchesRoute.BatchCodeExamples` | src/app/api/batches/route.ts:27 | examples only: count 0 gives FB001; count 999 gives FB1000 |
| `BatchesRoute.NewBatchRow` | src/app/api/batches/route.ts:30-51 | a new batch has the given name, the parsed area, the category as crop type, the sowing date (or now) as both dates, farmer name `Farmer`, quantity 0, the description or `""`, the location or `Farm Location, India`, no images; it is ACTIVE, unverified and PENDING, with no ledger data or QR code |
| `BatchesRoute.Create` | src/app/api/batches/route.ts:10-71 | name, category, area and farmer are required (400); a failed or colliding insert is 500; refusals change nothing; a created row is new, PENDING and unsynced, with the code after the batch count, and is the only change |
| `BatchesRoute.CreateBatch` | src/app/api/batches/route.ts:10-71 | the route returns the response and leaves the tables of the specification `Create` |
| `BatchesRoute.CreateInserts` | src/app/api/batches/route.ts:15-53 | a created batch had the four required fields, got the next code, and is the only change to the tables |
| `BatchesRoute.CreatedBatchReachesGate` | src/app/api/batches/route.ts:43-51 | a freshly created batch is never "already synced": the sync route takes it to the readiness gate |
| `BatchesRoute.SuccessiveCodesDiffer` | src/app/api/batches/route.ts:22-27 | two successive creations with a working count get different codes |
| `BatchesRoute.WithVerdict` | src/app/api/batches/route.ts:121-128 | the review sets verified, VERIFIED or REJECTED, the time, and the admin when one is given, and changes no other column |
| `BatchesRoute.Review` | src/app/api/batches/route.ts:109-189 | id and verdict are required (400); a failed update or absent batch is 500; both change nothing; a reviewed batch carries the verdict; only an approval with a reachable sync can be reported synced; a rejection writes only the verdict |
| `BatchesRoute.ReviewBatch` | src/app/api/batches/route.ts:109-189 | the route returns the response and leaves the tables of the specification `Review` |
| `BatchesRoute.ReviewWithoutSync` | src/app/api/batches/route.ts:121-181 | a rejection, or an approval whose sync cannot be reached, updates only the batch's verdict and returns the updated row |
| `BatchesRoute.ApprovalSyncs` | src/app/api/batches/route.ts:141-171 | an approval followed by a successful sync leaves the batch VERIFIED and SYNCED with the reported transaction hash |
| `BatchesRoute.ReviewKeepsOtherBatches` | src/app/api/batches/route.ts:121-131 | a review changes no other batch |
| `CertificateRoute.CertificateExplorerUrl` | src/app/api/certificate/generate/route.ts:59-61 | Amoy's Polygonscan for `polygon-amoy`, the old testnet's Polygonscan for any other network |
| `CertificateRoute.CertifiedStageOf` | src/app/api/certificate/generate/route.ts:95-101 | a listed stage keeps its name, order and date, counts its images and is marked verified |
| `CertificateRoute.CertifiedStages` | src/app/api/certificate/generate/route.ts:47-56 | the stages listed are those of the batch in order, or none when the read fails |
| `CertificateRoute.IssueCertificate` | src/app/api/certificate/generate/route.ts:18-104 | 404 iff the batch is named but absent or its read fails; a certificate is issued iff the batch is found, approved and has a transaction hash; it has the id `CERT-<code>-<ms>` and the clock's date; it carries the batch id, code, quantity (0 when absent), farmer and location, the verdict, the ledger anchor with the explorer link of its network, the stage list as read, and the QR data of that row |
| `CertificateRoute.CertificateGet` | src/app/api/certificate/generate/route.ts:13-115 | the route replies as the specification `IssueCertificate` says, and writes nothing |
| `CertificateRoute.CertificateIdsDiffer` | src/app/api/certificate/generate/route.ts:65 | certificates of a batch issued at different milliseconds have different ids |
| `CertificateRoute.StagesFailureOnlyEmptiesStages` | src/app/api/certificate/generate/route.ts:54-56 | a failed stage read still issues the certificate, with no stages and nothing else changed |
| `CertificateRoute.SyncedApprovedBatchIsCertified` | src/app/api/certificate/generate/route.ts:39-94 | an approved batch, once synced and read back, is certified iff the ledger returned a non-empty hash, with the sync's transaction, data hash, time, network and QR code, and an Amoy link for Amoy |
| `CertificateRoute.AmoyLinkMatchesReceipt` | src/app/api/certificate/generate/route.ts:59-61 | a transaction mined on Amoy gets the same explorer link on the certificate as in its receipt |
| `Text.NatToString` | src/app/api/certificate/generate/route.ts:65 | `String(n)`: decimal digits whose value is n, with no leading zero |
| `Text.PadStart` | src/lib/blockchain/polygon-blockchain-service.ts:86 | `padStart`: the fill characters then the string, padded to at least the width |
| `Text.SplitSecond` | src/app/api/image-verification/route.ts:49-51 | `split(sep)[1]`: the text between the first and the second separator, absent when there is no separator |
| `Text.AfterLast` | src/app/api/upload/route.ts:48 | `split('.').pop()`: the tail after the last dot, or the whole string when there is none |
| `Text.ReplaceDisallowed` | src/app/api/upload-batch-image/route.ts:37 | `replace(/[^a-zA-Z0-9-_]/g, c)`: every disallowed character becomes c |
| `Text.ToLowerAscii` | src/app/api/upload/route.ts:54 | `toLowerCase()` on the sanitised names (ASCII only) |
| `Text.Join` | src/app/api/upload/route.ts:9 | `join(sep)`: no parts give the empty string, one part is itself; the result starts with the first part followed, when there are two parts or more, by the separator, and ends with the last part |
| `Sorting.SortByCorrect` | src/lib/blockchain/blockchain-service.ts:144 | the stage sort returns a sorted permutation of its input |
| `Sorting.SortStringsCorrect` | src/lib/blockchain/blockchain-service.ts:139 | the string sort returns a sorted permutation of its input |
| `Sorting.SortByPermutation` | src/lib/blockchain/blockchain-service.ts:137-144 | with distinct keys, sorting two permutations of a list gives the same list |
| `Sorting.SortByStableOnTies` | src/lib/blockchain/blockchain-service.ts:144 | in the two-element case: two elements with equal keys keep their input order |
| `Sorting.SortByStable` | src/lib/blockchain/blockchain-service.ts:144 | the sort is stable: for every key, the elements with that key appear in the output in their input order |

## Left out

- **I/O.** Network, Supabase and ethers.js calls are not modelled. Each request's outcome is a parameter of the context datatype of its route: a failure flag, the id or time the table assigns, or the contract's answer.
- **Outside code.** `console` logging, the 1-second delay of the simulated ledger and the QR-code library are not modelled. The generated QR data URL is a parameter, with `""` when generation throws.
- **Values without a model.** SHA-256 and `JSON.stringify` are uninterpreted functions. Their outputs are not assumed to have any shape. The lemmas that need distinct inputs to give distinct outputs state this as the hypothesis `BlockchainService.CollisionFree`. `Math.random` (gas, the upload's random string), `Date.now()` and `toISOString()` are parameters.
- **Clock readings.** The model takes one clock reading per phase of a request, though the source calls `Date` several times:
  - the sync route takes one reading for the snapshot and one for the receipt and certificate;
  - the certificate route reads once for its id and its date;
  - the batches POST reads `new Date()` once for both of the default sowing and harvest dates, where the source reads it twice.
- **`hashImage`.** It salts with `Date.now()`. The time is a parameter, the same for all images of one snapshot.
- **Sequential requests.** The body of a route is modelled as one step. Concurrent requests and interleavings are out of scope. The farmer's notification, sent without waiting in the source, is modelled as part of the step, and a failure only leaves it unwritten.
- Persistence.StagesOf: returns the stage rows in stored order; `.order('order')` is not modelled. The Merkle root is proved independent of stage order. The data hash is too, when stage names are distinct. Only the certificate's stage list shows that order.
- **Read and write failures.** Each Supabase or storage request whose outcome a route looks at, or ignores, is a flag of that route's context:
  - sync: the batch, stage, verification and previous-record reads, and the record insert, batch update and QR-code update;
  - verify: the batch, record, stage and verification reads, and the log insert;
  - status: the batch, record, log, stage and verification reads;
  - certificate: the batch and stage reads;
  - image verification: on POST the existence read, the write, the notification and the storage removal; on GET the read; on DELETE the delete;
  - batches: on POST the count read and the insert; on PATCH the update and the auto-sync call;
  - upload: the storage upload and the storage removal;
  - batch image upload: the storage upload.

  An ignored read yields what the source's fallback gives: `[]` for `data || []`, and null for a `.single()` lookup.
- **Malformed request bodies.** A body that is not JSON, or not form data, makes `request.json()` or `request.formData()` throw, and the route's outer `catch` answers 500. These sites are src/app/api/blockchain/sync/route.ts:19 and 258-264, src/app/api/image-verification/route.ts:11 and 146-152, src/app/api/batches/route.ts:12 and 64-70, src/app/api/batches/route.ts:111 and 182-188, src/app/api/upload/route.ts:31 and 99, and src/app/api/upload-batch-image/route.ts:12 and 69. The model takes each body as already parsed, so these 500 replies are not modelled.
- **Nullable text columns.** They are strings or `Option<string>` by the way the routes test them. The `.eq` semantics of SQL `NULL` are not modelled. A JSON `null` admin id is folded into an absent one.
- **Non-boolean `verified`.** In a PATCH the body's `verified` is modelled as an optional boolean; other JSON values are not.
- **Auto-sync call.** The PATCH auto-sync is modelled by calling the sync route's specification directly. A non-JSON or failing reply is one `syncUnreachable` flag.
- **Upload configuration.** `src/lib/supabase-config.ts` is not part of this model. `STORAGE_BUCKET` and `UPLOAD_CONFIG` are parameters. `getPublicUrl` is not a parameter: both upload routes use `Persistence.PublicUrl`, which is how Supabase's storage client builds it: `encodeURI` of `<project>/storage/v1/object/public/<bucket>/<path>`. Only the project URL is a parameter. The removal-key finding below depends on this format. So is the text of `maxSize / 1024 / 1024`, since floating-point division is not modelled. `parseFloat(area)` is a parameter too.
- **Sort order.** `localeCompare` and the default `.sort()` are modelled as one lexicographic order on characters. Locale collation and UTF-16 code-unit order are not distinguished.
- Uri.EncodeUri, Uri.DecodeUri: work on Unicode scalar values, so the `URIError` that `encodeURI` throws on a lone UTF-16 surrogate has no counterpart.
- **Fractional quantities.** A batch's `quantity` is a JavaScript `number`, and it goes into `JSON.stringify` for the data hash. The model holds it as an integer, and `JNumber` holds an `int`. Fractional quantities and the number-to-text rules of `JSON.stringify` are not modelled.
- Text.ReplaceDisallowed, Text.ToLowerAscii: work on Unicode scalar values, while the JavaScript regex and `toLowerCase` work on UTF-16 code units. A character outside the Basic Multilingual Plane becomes two `_` (or `-`) in the source and one in the model.
- **Non-string JSON fields.** The image-verification body's fields are modelled as optional strings, and any other JSON value as absent. So a non-string field gives `MissingFields` in the model. In the source a truthy non-string `verificationStatus` gives the invalid-status error, and other truthy non-string fields pass validation.
- **Clock text.** A clock reading's `toISOString()` text is a parameter not tied to its milliseconds. The lemmas about two readings state what they need of their texts.
- **Unmodelled members.**
  - The batches `GET` listing (src/app/api/batches/route.ts:73-106) is not modelled: it is a plain query.
  - `getBalance`, `getAddress` and `getNetworkInfo` of the Polygon service are not modelled: they only read the wallet.
  - `createPolygonService` (src/lib/blockchain/polygon-blockchain-service.ts:289-299) is not modelled. It refers to an undefined `POLYGON_MUMBAI_RPC` and is not called by the modelled routes.
- **Ledger hashes.** They may be empty strings. The lemmas that depend on a non-empty hash say so.
- **Undefined fields.** JSON output drops `undefined` fields; the model writes them as optional fields.

## Findings

| source | as written | input that shows it | evidently intended | confidence | as-written member | corrected member |
|---|---|---|---|---|---|---|
| src/lib/blockchain/polygon-blockchain-service.ts:197-205 | both sides are cleaned with `replace(/^0x0+/, '')`. The on-chain value is `0x`-prefixed bytes32; the current digest is bare hex. The pattern strips `0x` only when a zero follows it, and the bare digest never matches it. | the digest `a` followed by 63 zeros: the on-chain form `0xa000…0` is left as it is and differs from `a000…0`. Every 64-digit digest fails the same way. | compare both hashes without `0x` and without leading zeros | not executed | `PolygonService.AsWrittenRejectsOwnEncoding` | `PolygonService.CanonicalHexOfBytes32` |
| src/lib/blockchain/polygon-blockchain-service.ts:39-42 | `{ rpcUrl: POLYGON_AMOY_RPC, ...config }`. The sync route passes `rpcUrl: process.env.POLYGON_RPC_URL` (src/app/api/blockchain/sync/route.ts:146-151). When that variable is unset, the spread copies `undefined` over the default. | `USE_REAL_BLOCKCHAIN=true` with `POLYGON_RPC_URL` unset: the merged `rpcUrl` is `undefined` | fall back to the Amoy RPC URL when none is given | not executed | `PolygonService.SpreadRpcUrlErasesDefault` | `PolygonService.ResolveRpcUrlAgrees` |
| src/app/api/blockchain/verify/route.ts:100-121 | the check rebuilds the snapshot and calls `hashImage` again for every image. `hashImage` salts with a fresh `Date.now()` (src/lib/blockchain/blockchain-service.ts:118-121), so the image hashes are not the ones the sync anchored. The check also stamps the snapshot with `blockchainSyncedAt`, the receipt's time (src/lib/blockchain/blockchain-service.ts:201, src/app/api/blockchain/sync/route.ts:197). That time is read after the previous-record query (src/app/api/blockchain/sync/route.ts:123-129), not after the ledger delay. The sync hashed a snapshot stamped with its own `new Date()` (src/app/api/blockchain/sync/route.ts:108-109). The two texts may differ, but the source does not force it. | a successful sync on the simulated ledger followed by a check of the unchanged batch. The sync waits one second (src/lib/blockchain/blockchain-service.ts:209) after its snapshot reading and before it replies. So the check's `Date.now()` is later, every image hash differs, and a ready batch has at least one image. The data hashes differ, and the batch is reported modified. A differing timestamp text separates them too. | rebuild the check's snapshot at the reading the sync anchored: the same timestamp and the same image salts | not executed | `VerifyRoute.ImageSaltsFailCheck` | `VerifyRoute.IntendedSyncThenVerify` |
| src/app/api/image-verification/route.ts:49-54 | a FAKE image is removed with the key `imageUrl.split('/storage/v1/object/public/')[1]`, inside bucket `batch-images`. That tail begins with the bucket's own name. | the URL `<project>/storage/v1/object/public/batch-images/u/s/1-a.jpg` gives the key `batch-images/u/s/1-a.jpg`. The object's key, `u/s/1-a.jpg`, stays in storage. With a space in the file name the removed key also carries `%20`. | remove the object's key: the bucket's name taken off and the `encodeURI` of `getPublicUrl` undone with `decodeURI`, so names with spaces or non-ASCII characters are found too | not executed | `ImageVerificationRoute.AsWrittenKeepsFakeImage` | `ImageVerificationRoute.FakeVerdictRemovesImage` |
