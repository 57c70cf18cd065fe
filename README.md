# librepods-ng core, modelled in Dafny

This project models the core library of librepods-ng (`crates/core/src`), an
open re-implementation of the AirPods accessory protocol together with the
record-keeping that the project uses to track its upstream, plan merges and
check its legal standing. Each source file of the core is one Dafny module of
the same name (`protocol.rs` is `module Protocol` in `protocol.dfy`, `lib.rs`'s
`Engine` is `module Engines` in `engine.dfy`, `error.rs` is `module Errors`,
`state.rs` is `module States`).
Three modules hold what the others share: `Wrappers` (`Option`, `Result`, the
integer widths), `Seqs` (order-preserving filters, sums over sequences and
maps, and the loop that walks a `HashMap` in an order left open) and `Text`
(the pieces of the Rust `str` API the scanners use).

What is modelled, in the system's own terms:

- **The accessory protocol.** A frame is an opcode byte, a length byte, the
  payload and a big-endian CRC-16/X.25 (reflected polynomial 0x1021, initial
  value and final XOR 0xFFFF, the FCS of RFC 1662 appendix C), computed bit by
  bit. `Message::parse` checks the CRC; the nom reader `parse_message` checks
  the bounds but never the CRC. Both are proved to invert `serialize` for
  payloads of at most 255 bytes, the bound is shown to be tight, and the
  corrupted frames that the nom reader accepts are exhibited.
- **Replay protection and key material.** The 128-bit sliding window of
  `ReplayWindow::check` is an imperative class over a 128-bit word whose
  invariant ties every bit to the set of nonces accepted so far; it accepts a
  nonce at most once. `constant_time_eq` is a loop over a byte accumulator,
  proved equal to equality. The HKDF, AES-GCM and BLAKE3 primitives are
  function parameters; only the length guards around them are stated.
- **Devices and registries.** `Device` is a class (the engine and the manager
  hold references to it) whose capability list stays free of duplicates. The
  engine and the manager are classes over a map from id to device in which
  every device sits under its own id.
- **Protocol drift.** The known tables of the analyzer, the partitions of
  incoming opcodes, UUIDs and features, the per-key comparisons of an upstream
  protocol against the base, and the drift report whose counters and severity
  follow the drift lists. Iteration over a `HashMap` is modelled with the order
  left open, and every result of such a loop is stated per key.
- **Upstream ingestion and firmware tables.** The upstream snapshot and the
  engine that fills it, the firmware version tables and the change lists
  between two version lists.
- **Legal scans.** The DMCA, GPL, trademark and firmware scanners, described
  by the substrings they look for; the legal scan result whose overall risk
  only rises.
- **Merging.** The diff report and its counters, the merge planner's
  decisions, priorities, categories and sorted plan, and the three-way
  comparison with its conflict regions and merged text.
- **Project record-keeping.** Sprint plans, change logs, verification
  reports, CI pipelines, test suites, coverage reports, releases, SBOMs and
  release notes: each keeps counters that the model ties, as an invariant, to
  the list they count, and each store keeps its records under their own ids.

Conventions of the model:

- A Rust struct whose methods update it through `&mut self` and that other
  objects hold is a class; a record owned by one map entry (a test suite in
  the runner, a report in the verifier) is a datatype value, and its
  operations are functions from the old value to the new one. Where the
  source hands back a `&mut` into such an entry (`create_release`,
  `create_sbom`, `create_notes`), the model hands back a copy (and, for
  `create_release`, the key of the entry), and the updates made through the
  reference are methods of the store that update the entry under that key.
- Every class has a `Valid()` invariant that its constructor establishes and
  its methods keep; methods require it because every object built through the
  modelled operations meets it. The exceptions are the status and progress
  updates of a sprint plan, which promise only to keep it, so that they also
  cover a plan whose counters the as-written `add_task` has left behind.
- `u8`, `u32` and `u64` are subset types of `int`; where the source wraps
  (`len() as u8`) or saturates (`saturating_sub`), the model writes it out.
- `f32` values are `real`: a rate is the exact quotient.
- Strings are sequences of characters. `to_lowercase` is ASCII lowercasing
  (see Text.ToLower under Left out).
  `trim` and `split_whitespace` use the Unicode White_Space characters.
  `str::lines` splits on '\n', drops one '\r' before it and yields no empty
  last line.
- The unit tests of each source file are scenarios: methods or lemmas whose
  contracts state what the test asserts, or, where the test disagrees with the
  code, what the code gives.
- Several one-line predicates, such as `has_capability`, `is_repository_safe`
  and `has_critical_issues`, are stated through the lemmas and methods about
  them rather than through contracts of their own; their rows below name
  those members. `get_total_size` appears in the rows of the artifact
  additions, and `get_device_mut` returns the same reference as `get_device`.
- Two inline tests disagree with the code. The test of `update_severity`
  (`crates/core/src/protocol_drift.rs:214-228`) expects `Moderate` for five
  non-breaking drifts, but the rule gives `Minor`, since Moderate needs more
  than five changes. The test of `get_completion_percentage`
  (`crates/core/src/implementation_executor.rs:222-240`) expects 50, but the
  code gives 0. The model follows the code; the second case is also a finding
  below. A third test, `test_release_notes_markdown`
  (`crates/core/tests/phase7_release.rs:291-308`), looks for "âœ¨ Features",
  the UTF-8 bytes of "✨ Features" read back as Windows-1252. The code
  (`crates/core/src/release_notes.rs:109`) writes "✨ Features", so read as
  text the test cannot pass. The model follows the code.

## Model

| member | source | states |
|---|---|---|
| Protocol.TypeByte | crates/core/src/protocol.rs:9-25 | every discriminant lies in 0x01 to 0x0F |
| Protocol.AllTypesDiscriminants | crates/core/src/protocol.rs:9-25 | the i-th variant has discriminant i + 1 |
| Protocol.FromU8 | crates/core/src/protocol.rs:28-47 | decodes exactly the bytes 0x01 to 0x0F, to the variant of that discriminant, and rejects every other byte with UnknownMessageType of it |
| Protocol.FromU8TypeByte | crates/core/src/protocol.rs:28-47 | every variant survives the trip through its discriminant |
| Protocol.CrcUpdateAppend | crates/core/src/protocol.rs:101-104 | feeding a concatenation to the CRC register is feeding its parts in turn |
| Protocol.Crc16 | crates/core/src/protocol.rs:101-104 | `calculate_crc`: CRC-16/X.25 of the data, as a `u16`; its check value and its good-FCS residue are proved by Crc16CheckValue and Crc16GoodResidue |
| Protocol.Crc16CheckValue | crates/core/src/protocol.rs:101-104 | the CRC of the ASCII bytes "123456789" is 0x906E, the catalogued check value of CRC-16/X.25 |
| Protocol.CheckValueBytesFirst | crates/core/src/protocol.rs:101-104 | the register after each of the first three bytes of "123456789" |
| Protocol.CheckValueBytesMiddle | crates/core/src/protocol.rs:101-104 | the register after each of the middle three bytes of "123456789" |
| Protocol.CheckValueBytesLast | crates/core/src/protocol.rs:101-104 | the register after each of the last three bytes of "123456789" |
| Protocol.CrcUpdateThree | crates/core/src/protocol.rs:101-104 | feeding three bytes is three single-byte steps |
| Protocol.CheckValueRegister | crates/core/src/protocol.rs:101-104 | the register after "123456789" is 0x6F91, whose complement is the check value |
| Protocol.Crc16GoodResidue | crates/core/src/protocol.rs:101-104 | appending the complemented CRC low byte first and running the register over the result leaves the good-FCS residue 0xF0B8 of appendix C.2 of RFC 1662, for all data |
| Protocol.ResidueOfRegister | crates/core/src/protocol.rs:101-104 | the sixteen-bit core of the residue property, for every register value |
| Protocol.FromBeBytes | crates/core/src/protocol.rs:80 | the big-endian value of two bytes has those bytes as its high and low byte |
| Protocol.FromBeBytesOfParts | crates/core/src/protocol.rs:80-97 | reading back the two big-endian bytes of a CRC gives the CRC |
| Protocol.LengthByte | crates/core/src/protocol.rs:95 | the length byte is the payload length modulo 256 |
| Protocol.Serialize | crates/core/src/protocol.rs:94-99 | the frame is four bytes longer than the payload, and its length byte is the payload length modulo 256 |
| Protocol.SerializeLayout | crates/core/src/protocol.rs:94-99 | the frame holds the discriminant, then the payload, then the stored CRC big-endian |
| Protocol.ParseAsWritten | crates/core/src/protocol.rs:67-92 | as written, parsing panics exactly on input of a known opcode that is exactly three bytes longer than the announced payload |
| Protocol.ParseAsWrittenPanicsOnShortFrame | crates/core/src/protocol.rs:75-80 | [0x01, 0x00, 0x00] passes the length guard and panics on the CRC read |
| Protocol.Parse | crates/core/src/protocol.rs:67-92 | InvalidLength for fewer than three bytes or fewer than the announced frame, UnknownMessageType for an unknown opcode, CrcMismatch exactly when the payload's CRC differs from the stored one, and otherwise a message carrying its payload's CRC |
| Protocol.ParseInverse | crates/core/src/protocol.rs:67-99 | a parsed message serializes back to exactly the frame it was read from |
| Protocol.ParseAsWrittenAgrees | crates/core/src/protocol.rs:67-92 | wherever the as-written parser returns, it returns what the corrected one does, and where it panics the corrected one reports InvalidLength |
| Protocol.ParseIgnoresTrailing | crates/core/src/protocol.rs:67-92 | bytes after the announced frame do not change the result |
| Protocol.RoundTrip | crates/core/src/protocol.rs:58-99 | a message made by `Message::new` with at most 255 payload bytes parses back to itself, with either parser |
| Protocol.LongPayloadDoesNotRoundTrip | crates/core/src/protocol.rs:94-99 | above 255 payload bytes the length byte wraps and the round trip fails, so the bound is tight |
| Parser.ParseMessage | crates/core/src/parser.rs:12-28 | fails exactly for empty input, an unknown opcode or input shorter than the frame its length byte announces; an unknown opcode fails with Verify on the input after it; a read consumes one frame |
| Parser.ParseMessageConsumes | crates/core/src/parser.rs:12-28 | a successful read is one serialized frame followed by the untouched rest |
| Parser.ParseMessageAnyCrc | crates/core/src/parser.rs:12-28 | every serialized frame is read back whole, whatever CRC it carries, leaving what followed it |
| Parser.ParseMessageAgreesWithParse | crates/core/src/parser.rs:12-28 | on a frame of a message made by `Message::new` this reader and the checking parser give the same message, with nothing left over |
| Parser.CorruptedFrameAccepted | crates/core/src/parser.rs:12-28 | a frame with a wrong CRC is rejected by the checking parser and accepted by this reader |
| Parser.ParseBatteryStatus | crates/core/src/parser.rs:31-36 | InvalidLength exactly for fewer than three bytes, otherwise the first three bytes as left, right and case |
| Parser.BatteryStatusIgnoresExtra | crates/core/src/parser.rs:31-36 | bytes after the third do not change the result |
| Security.Zero | crates/core/src/security.rs:9-14 | the 128-bit window with no bit set |
| Wrappers.SaturatingSub | crates/core/src/security.rs:17-19 | `u64::saturating_sub`: never more than the first operand, the difference when it is not negative, and 0 otherwise |
| Security.ShiftLeft | crates/core/src/security.rs:20-26 | `window << diff` on 128 bits: bits move up, the low ones become 0 and those past bit 127 are lost |
| Security.SetBit | crates/core/src/security.rs:29-34 | `window \| (1 << j)`: bit j set and every other bit kept |
| Security.ReplayWindow.constructor | crates/core/src/security.rs:9-14 | an empty window with last nonce 0 and nothing accepted |
| Security.ReplayWindow.Check | crates/core/src/security.rs:16-36 | a nonce is accepted exactly when it is above the saturating `last - 128` and was not accepted before; a newer nonce shifts the window and becomes the last, an older one in range sets its bit, a stale one changes nothing, and the window keeps recording exactly the accepted nonces |
| Security.DuplicateNonceScenario | crates/core/src/security.rs:75-80 | 10 is accepted, 10 again is refused and 11 is accepted |
| Security.OutOfOrderScenario | crates/core/src/security.rs:16-36 | an older nonce inside the window is accepted once |
| Security.StaleNonceScenario | crates/core/src/security.rs:16-36 | a fresh window refuses 0, and a nonce 128 or more below the last is refused even if never seen |
| Security.XorZero | crates/core/src/security.rs:39-47 | the XOR of two values is zero exactly when they are equal |
| Security.OrZero | crates/core/src/security.rs:43-47 | the OR of two values is zero exactly when both are |
| Security.BitwiseBounded | crates/core/src/security.rs:43-46 | the XOR and the OR of two bytes are bytes, so the `u8` accumulator never overflows |
| Security.ConstantTimeEq | crates/core/src/security.rs:39-48 | true exactly when the two byte strings are equal |
| Security.ConstantTimeEqExamples | crates/core/src/security.rs:83-86 | "hello" equals itself and differs from "world" |
| Security.SecureBuffer.constructor | crates/core/src/security.rs:55-57 | the buffer holds the given bytes |
| Security.SecureBuffer.AsSlice | crates/core/src/security.rs:59-61 | the bytes held, as many as the length |
| Security.SecureBuffer.Drop | crates/core/src/security.rs:65-67 | every byte of the allocation becomes 0 and the buffer is left empty |
| Security.SecureBufferScenario | crates/core/src/security.rs:89-92 | the buffer of [1, 2, 3, 4, 5] returns those bytes, and nothing after the drop |
| Crypto.LabelIsAscii | crates/core/src/crypto.rs:13 | the HKDF info label is the 16 ASCII bytes of "librepods-v1.0.0" |
| Crypto.DeriveKey | crates/core/src/crypto.rs:10-16 | the result is an error, and then CryptoError, exactly when the HKDF expansion of (salt, password, label) to 32 bytes fails; otherwise it is those 32 output bytes |
| Crypto.DeriveKeyDeterministic | crates/core/src/crypto.rs:10-16 | two derivations from the same password and salt give the same result |
| Crypto.Guarded | crates/core/src/crypto.rs:27-53 | a key that is not 32 bytes or a nonce that is not 12 bytes gives CryptoError; a success is the cipher's output; every failure is CryptoError |
| Crypto.Encrypt | crates/core/src/crypto.rs:27-39 | a wrong key length or nonce length is CryptoError; a success passed both guards and is what the cipher sealed; when the guards pass and the cipher succeeds, so does encrypt |
| Crypto.Decrypt | crates/core/src/crypto.rs:41-53 | the same guards in the same order; a success is what the cipher opened, and a cipher success with valid lengths is a decrypt success |
| Crypto.GuardsPrecedeCipher | crates/core/src/crypto.rs:28-33 | with a rejected key or nonce, encrypt and decrypt give CryptoError whatever the cipher |
| Crypto.VerifyHash | crates/core/src/crypto.rs:22-25 | true exactly when the given hash equals the digest of the data, which is then 32 bytes long |
| Crypto.ConstantTimeEq | crates/core/src/crypto.rs:56-65 | true exactly when the two byte strings are equal |
| Crypto.SecureKeyScenario | crates/core/src/crypto.rs:72-84 | a key built from some bytes returns those bytes, and after the drop it holds none |
| States.NewDeviceStateInfo | crates/core/src/state.rs:38-46 | `DeviceStateInfo::new`: a disconnected device with no battery, noise-control mode or firmware version known, stamped 0 |
| Devices.WithCapabilityMembers | crates/core/src/device.rs:86-90 | after adding, a capability is present exactly when it is the added one or was present before |
| Devices.WithCapabilityDistinct | crates/core/src/device.rs:86-90 | adding keeps the list free of duplicates and leaves the earlier entries first, in their order |
| Devices.WithCapabilityIdempotent | crates/core/src/device.rs:86-90 | adding the same capability twice gives the list that adding it once gives |
| Devices.Device.constructor | crates/core/src/device.rs:47-56 | a new device has the id, name and model, is Disconnected, and has no capabilities and no metadata |
| Devices.Device.SetName | crates/core/src/device.rs:66-68 | the name is replaced and the state, capabilities and metadata stay |
| Devices.Device.SetState | crates/core/src/device.rs:78-80 | any state may follow any state; the name, capabilities and metadata stay |
| Devices.Device.AddCapability | crates/core/src/device.rs:86-90 | the capability is pushed unless already present, so the list stays free of duplicates; everything else stays |
| Devices.Device.HasCapability | crates/core/src/device.rs:92-94 | whether the capability is on the device's list; by WithCapabilityMembers it holds after `add_capability` exactly for the added capability and those present before |
| Devices.Device.SetMetadata | crates/core/src/device.rs:96-98 | the key is inserted or overwritten with the value and nothing else changes |
| Devices.Device.GetMetadata | crates/core/src/device.rs:100-102 | a value is found exactly when the key is present, and it is the stored value |
| Devices.CapabilityScenario | crates/core/tests/integration_tests.rs:45-59 | a new device lacks a capability; after adding battery monitoring and noise control both are reported and heart rate is not; adding one again leaves two |
| Devices.MetadataScenario | crates/core/tests/integration_tests.rs:78-87 | a written key reads back, an unwritten key is absent and the second write to a key wins |
| Devices.StateScenario | crates/core/tests/integration_tests.rs:61-76 | two successive states are each reported after being set, and the id stays |
| Devices.KeyedTableSize | crates/core/src/manager.rs:43-45 | a table whose keys are the ids of their devices lists as many devices as it has keys |
| Engines.Engine.constructor | crates/core/src/lib.rs:57-62 | a new engine has an empty device table in which every device sits under its own id |
| Engines.Engine.RegisterDevice | crates/core/src/lib.rs:75-77 | the device is stored under its id, replacing any device with that id, so the table grows by one only for a new id |
| Engines.Engine.GetDevice | crates/core/src/lib.rs:80-82 | a device is returned exactly when one is registered under the id, and it carries that id |
| Engines.Engine.Devices | crates/core/src/lib.rs:90-92 | every registered device is listed, and there are as many as registered ids |
| Engines.EngineScenario | crates/core/tests/integration_tests.rs:3-36 | a new engine has no device; after one registration it has one, found under "test_001" with the name "Test AirPods" |
| Manager.DeviceManager.constructor | crates/core/src/manager.rs:14-19 | a new manager has no devices |
| Manager.DeviceManager.AddDevice | crates/core/src/manager.rs:22-25 | always succeeds and stores the device under its id, replacing any device with that id |
| Manager.DeviceManager.RemoveDevice | crates/core/src/manager.rs:28-30 | succeeds, removes the id, and hands back the device stored there exactly when there was one |
| Manager.DeviceManager.GetDevice | crates/core/src/manager.rs:33-35 | a device is returned exactly when one is stored under the id, and it carries that id |
| Manager.DeviceManager.ListDevices | crates/core/src/manager.rs:43-45 | every stored device, as many as there are ids |
| Manager.DeviceManager.ConnectedDevices | crates/core/src/manager.rs:48-53 | exactly the stored devices whose state is Connected |
| Manager.DeviceManager.UpdateDeviceState | crates/core/src/manager.rs:56-63 | for a stored id the device gets the state and keeps its name, capabilities and metadata; an unknown id is a DeviceNotConnected error; no other device's state changes |
| Manager.ManagerScenario | crates/core/src/manager.rs:77-92 | a new manager lists nothing and an added device is listed; connecting it makes it the only connected device, and an unknown id is refused |
| ProtocolAnalyzer.KnownTypesAreTheVariants | crates/core/src/protocol_analyzer.rs:21-64 | a byte is a known message type exactly when it is one of 0x01 to 0x0F, exactly when the protocol's opcode decoder accepts it, and its table name is that of the variant it decodes to |
| ProtocolAnalyzer.EveryVariantKnown | crates/core/src/protocol_analyzer.rs:21-64 | every variant's discriminant is known under the variant's own name |
| ProtocolAnalyzer.MessageTypeName | crates/core/src/protocol_analyzer.rs:111-113 | a name is found exactly for a known opcode, and it is the table's |
| ProtocolAnalyzer.UuidName | crates/core/src/protocol_analyzer.rs:115-117 | a name is found exactly for a known UUID, and it is the table's |
| ProtocolAnalyzer.Partition | crates/core/src/protocol_analyzer.rs:66-79 | the loop puts each item in the known or the unknown part, keeping the input order |
| ProtocolAnalyzer.PartitionSplits | crates/core/src/protocol_analyzer.rs:66-109 | the two parts together are a permutation of the input, and an item is in the known part exactly when it is in the input and known |
| ProtocolAnalyzer.AnalyzeMessageTypes | crates/core/src/protocol_analyzer.rs:66-79 | the known and the unknown opcodes in input order, together as many as the input |
| ProtocolAnalyzer.AnalyzeUuids | crates/core/src/protocol_analyzer.rs:81-94 | the known and the unknown UUIDs in input order, together as many as the input |
| ProtocolAnalyzer.AnalyzeFeatures | crates/core/src/protocol_analyzer.rs:96-109 | the known and the unknown features in input order, together as many as the input |
| ProtocolAnalyzer.Entries | crates/core/src/protocol_analyzer.rs:131-143 | the pairs of a table, each of its own entry, one per key and every key present |
| ProtocolAnalyzer.GetAllMessageTypes | crates/core/src/protocol_analyzer.rs:131-136 | every known opcode once, each with its name |
| ProtocolAnalyzer.GetAllUuids | crates/core/src/protocol_analyzer.rs:138-143 | every known UUID once, each with its name |
| ProtocolAnalyzer.GetAllFeatures | crates/core/src/protocol_analyzer.rs:145-147 | every known feature once, and nothing else |
| ProtocolAnalyzer.UnknownEmpty | crates/core/src/protocol_analyzer.rs:149-154 | the unknown part is empty exactly when every item is known |
| ProtocolAnalyzer.DetectDrift | crates/core/src/protocol_analyzer.rs:149-154 | drift exactly when some incoming opcode or UUID is not known |
| ProtocolAnalyzer.ReportDriftAsWritten | crates/core/src/protocol_analyzer.rs:187 | the report's drift line, computed from the known parts, is never true |
| ProtocolAnalyzer.ReportMissesDrift | crates/core/src/protocol_analyzer.rs:149-187 | for the opcodes 0x01 and 0xFF drift is detected but the report says there is none |
| ProtocolAnalyzer.ReportDrift | crates/core/src/protocol_analyzer.rs:187 | the corrected report line: drift exactly when some incoming opcode or UUID is unknown |
| ProtocolAnalyzer.UuidTableSize | crates/core/src/protocol_analyzer.rs:204-209 | four UUIDs are known |
| ProtocolAnalyzer.KnownTypesScenario | crates/core/src/protocol_analyzer.rs:212-218 | 0x01, 0x02 and 0x03 are three known opcodes and no unknown one |
| ProtocolAnalyzer.UnknownTypesScenario | crates/core/src/protocol_analyzer.rs:221-227 | of 0x01, 0xFF and 0xFE one is known and two are not |
| ProtocolAnalyzer.DriftScenario | crates/core/src/protocol_analyzer.rs:230-253 | 0x01 is named "BatteryStatus"; known opcodes with a table UUID are no drift, and an unknown opcode with an unknown UUID is |
| ProtocolComparator.BaseIsKnownProtocol | crates/core/src/protocol_comparator.rs:21-64 | the comparator's base opcodes, UUIDs and features are exactly the protocol analyzer's known tables |
| ProtocolComparator.TypeDriftKinds | crates/core/src/protocol_comparator.rs:66-110 | an opcode is Added exactly when only upstream has it, Modified exactly when both have it under different names (keeping the base name as previous version), Removed exactly when only the base has it; only Added is not breaking |
| ProtocolComparator.TypeDriftIffTablesDiffer | crates/core/src/protocol_comparator.rs:66-110 | some opcode drifts exactly when the upstream table differs from the base table |
| ProtocolComparator.TypeComparisonOfParts | crates/core/src/protocol_comparator.rs:66-110 | the upstream pass followed by the pass over base opcodes missing upstream lists every opcode's drift exactly once |
| ProtocolComparator.UuidDriftKinds | crates/core/src/protocol_comparator.rs:112-140 | a UUID drifts exactly when one side alone has it: Added, not breaking, when upstream has it, else Removed and breaking; a renamed UUID is no drift |
| ProtocolComparator.UuidDriftIffKeysDiffer | crates/core/src/protocol_comparator.rs:112-140 | some UUID drifts exactly when the two key sets differ |
| ProtocolComparator.UuidComparisonOfParts | crates/core/src/protocol_comparator.rs:112-140 | the two passes together list every UUID's drift exactly once |
| ProtocolComparator.FeatureDriftKinds | crates/core/src/protocol_comparator.rs:142-168 | a feature is Added exactly when only upstream has it and Removed, and breaking, exactly when only the base has it |
| ProtocolComparator.FeatureComparisonOfParts | crates/core/src/protocol_comparator.rs:142-168 | the two passes together list every feature's drift exactly once |
| ProtocolComparator.ProtocolComparator.constructor | crates/core/src/protocol_comparator.rs:11-19 | the comparator starts with the base tables |
| ProtocolComparator.ProtocolComparator.CompareMessageTypes | crates/core/src/protocol_comparator.rs:66-110 | the result is a comparison of the upstream opcodes against the base: each drifting opcode once, with its kind |
| ProtocolComparator.ProtocolComparator.DetectProtocolDrift | crates/core/src/protocol_comparator.rs:206-208 | drift exactly when the upstream opcode table differs from the base |
| ProtocolComparator.ProtocolComparator.CompareUuids | crates/core/src/protocol_comparator.rs:112-140 | the result is a comparison of the upstream UUIDs against the base |
| ProtocolComparator.ProtocolComparator.CompareFeatures | crates/core/src/protocol_comparator.rs:142-168 | the result is a comparison of the upstream features against the base |
| ProtocolComparator.ProtocolComparator.GenerateDriftReport | crates/core/src/protocol_comparator.rs:170-204 | a new valid report with the versions and the three comparisons, then the breaking-changes recommendation exactly when something breaks and the significant-changes one exactly when there are more than five changes |
| ProtocolComparator.BuildReport | crates/core/src/protocol_comparator.rs:178-202 | a new valid report holding the given drifts in order, with the two recommendations by the same rule |
| ProtocolComparator.AddRecommendations | crates/core/src/protocol_comparator.rs:194-200 | the recommendations are added by that rule and nothing else changes |
| ProtocolComparator.AddAllMessageTypeDrifts | crates/core/src/protocol_comparator.rs:180-182 | the drifts are appended in order, the report stays valid and nothing else changes |
| ProtocolComparator.AddAllUuidDrifts | crates/core/src/protocol_comparator.rs:185-187 | the drifts are appended in order, the report stays valid and nothing else changes |
| ProtocolComparator.AddAllFeatureDrifts | crates/core/src/protocol_comparator.rs:190-192 | the drifts are appended in order, the report stays valid and nothing else changes |
| ProtocolComparator.ComparisonReports | crates/core/src/protocol_comparator.rs:66-110 | a comparison of the opcode tables lists the drift of every opcode that drifts |
| ProtocolComparator.ComparatorScenario | crates/core/src/protocol_comparator.rs:242-265 | the base table against itself gives no drift; with 0x20 added upstream some drift is Added, and with 0x01 removed some drift is Removed |
| ProtocolDrift.SeverityMonotone | crates/core/src/protocol_drift.rs:120-132 | more breaking changes and more changes never lower the severity |
| ProtocolDrift.SeverityLevels | crates/core/src/protocol_drift.rs:120-132 | the severity is None exactly without changes, Major or Critical exactly from two breaking changes, Moderate exactly with at most one breaking change and more than five changes |
| ProtocolDrift.ProtocolDriftReport.BreakingAtMostTotal | crates/core/src/protocol_drift.rs:90-118 | the breaking counter never exceeds the total counter |
| ProtocolDrift.ProtocolDriftReport.constructor | crates/core/src/protocol_drift.rs:74-88 | a new report has no drifts, zero counters, no drift flag, severity None and no recommendations |
| ProtocolDrift.ProtocolDriftReport.AddMessageTypeDrift | crates/core/src/protocol_drift.rs:90-98 | the drift is appended and counted, breaking ones also as breaking; the flag is set, the severity is recomputed and does not fall |
| ProtocolDrift.ProtocolDriftReport.AddUuidDrift | crates/core/src/protocol_drift.rs:100-108 | the drift is appended and counted, breaking ones also as breaking; the flag is set, the severity is recomputed and does not fall |
| ProtocolDrift.ProtocolDriftReport.AddFeatureDrift | crates/core/src/protocol_drift.rs:110-118 | the drift is appended and counted, breaking ones also as breaking; the flag is set, the severity is recomputed and does not fall |
| ProtocolDrift.ProtocolDriftReport.AddRecommendation | crates/core/src/protocol_drift.rs:134-136 | the recommendation is appended |
| ProtocolDrift.FiveNonBreakingScenario | crates/core/src/protocol_drift.rs:214-228 | five non-breaking drifts make five changes of severity Minor, not the Moderate the test expects |
| ProtocolDrift.ReportScenario | crates/core/src/protocol_drift.rs:190-211 | a new report has no drift; one breaking drift is one change and one breaking change |
| Upstream.BreakingIsDrift | crates/core/src/upstream.rs:140-146 | more than two new message types or more than one new UUID is always drift, no drift is never breaking, and one new type is drift without being breaking |
| Upstream.UpstreamDiff.constructor | crates/core/src/upstream.rs:89-122 | an empty repository and protocol, every list and table empty, no drift and nothing breaking |
| Upstream.UpstreamDiff.AddCommit | crates/core/src/upstream.rs:124-126 | the commit is appended and nothing else changes |
| Upstream.UpstreamDiff.AddRelease | crates/core/src/upstream.rs:128-130 | the release is appended and nothing else changes |
| Upstream.UpstreamDiff.AddTag | crates/core/src/upstream.rs:132-134 | the tag is appended and nothing else changes |
| Upstream.UpstreamDiff.AddFirmware | crates/core/src/upstream.rs:136-138 | the firmware is appended and nothing else changes |
| Upstream.UpstreamDiff.DetectProtocolDrift | crates/core/src/upstream.rs:140-142 | drift exactly when some new message type or some new UUID was recorded |
| Upstream.UpstreamDiff.HasBreakingChanges | crates/core/src/upstream.rs:144-146 | breaking exactly for more than two new message types or more than one new UUID, and a breaking diff always has drift |
| Upstream.UpstreamScenario | crates/core/src/upstream.rs:164-201 | a new diff has no drift; one new type is drift; three new types are breaking; a commit is recorded |
| Ingestion.LastWithVersion | crates/core/src/ingestion.rs:78-84 | None exactly when no entry has the version, otherwise an entry of the batch with that version |
| Ingestion.LastWithVersionIsLast | crates/core/src/ingestion.rs:78-84 | the entry chosen for a version is followed by no other entry with that version, as successive inserts under one key leave it |
| Ingestion.LastWithVersionSnoc | crates/core/src/ingestion.rs:78-84 | one more entry decides its own version and leaves every other version's entry as it was |
| Ingestion.LastWithVersionAppend | crates/core/src/ingestion.rs:78-84 | after a second batch a version the batch mentions is found in it, and any other keeps its earlier entry |
| Ingestion.DataIngestionEngine.constructor | crates/core/src/ingestion.rs:12-18 | a new engine has an empty diff with the fixed sync time and empty caches |
| Ingestion.DataIngestionEngine.IngestRepositoryMetadata | crates/core/src/ingestion.rs:20-50 | succeeds and replaces the repository record, leaving every other part of the diff as it was |
| Ingestion.DataIngestionEngine.IngestCommits | crates/core/src/ingestion.rs:52-57 | succeeds and appends the commits, leaving every other part of the diff as it was |
| Ingestion.DataIngestionEngine.IngestReleases | crates/core/src/ingestion.rs:59-64 | succeeds and appends the releases, leaving every other part of the diff as it was |
| Ingestion.DataIngestionEngine.IngestTags | crates/core/src/ingestion.rs:66-71 | succeeds and appends the tags, leaving every other part of the diff as it was |
| Ingestion.DataIngestionEngine.IngestProtocolDefinitions | crates/core/src/ingestion.rs:73-76 | succeeds and replaces the protocol definitions, leaving every other part of the diff as it was |
| Ingestion.DataIngestionEngine.IngestFirmwareVersions | crates/core/src/ingestion.rs:78-84 | succeeds, appends the entries, and afterwards each version the batch mentions is found as its last entry there while other versions are found as before |
| Ingestion.DataIngestionEngine.DetectNewMessageTypes | crates/core/src/ingestion.rs:86-89 | succeeds and replaces the new message types, leaving every other part of the diff as it was |
| Ingestion.DataIngestionEngine.DetectNewUuids | crates/core/src/ingestion.rs:91-94 | succeeds and replaces the new UUIDs, leaving every other part of the diff as it was |
| Ingestion.DataIngestionEngine.DetectNewFeatures | crates/core/src/ingestion.rs:96-99 | succeeds and replaces the new features, leaving every other part of the diff as it was |
| Ingestion.DataIngestionEngine.IngestDependencyChanges | crates/core/src/ingestion.rs:101-104 | succeeds and replaces the dependency changes, leaving every other part of the diff as it was |
| Ingestion.DataIngestionEngine.GetLatestCommit | crates/core/src/ingestion.rs:106-108 | None exactly without commits, otherwise the first commit ingested |
| Ingestion.DataIngestionEngine.GetLatestRelease | crates/core/src/ingestion.rs:110-112 | None exactly without releases, otherwise the first release ingested |
| Ingestion.DataIngestionEngine.GetFirmwareByVersion | crates/core/src/ingestion.rs:114-116 | a firmware entry is found exactly when the cache has the version, and it is the cached entry |
| Ingestion.DataIngestionEngine.FirmwareLookupIsLastIngested | crates/core/src/ingestion.rs:114-116 | the firmware found for a version is the last entry ever ingested with it, and none is found for a version never ingested |
| Ingestion.DataIngestionEngine.HasProtocolDrift | crates/core/src/ingestion.rs:118-120 | the drift of the engine's upstream diff |
| Ingestion.DataIngestionEngine.HasBreakingChanges | crates/core/src/ingestion.rs:122-124 | the breaking changes of the engine's upstream diff |
| Ingestion.DataIngestionEngine.GenerateIngestionReport | crates/core/src/ingestion.rs:140-189 | the report starts with the title line "=== UPSTREAM DATA INGESTION REPORT ===" and a blank line, which is what the report test checks, and goes on with the sections in the order the source writes them |
| Ingestion.IngestionScenario | crates/core/src/ingestion.rs:230-271 | two ingested commits are kept with the first as latest; one new type is drift but not breaking, three are breaking; a dependency is stored as given; a version ingested twice is found with its later entry |
| FirmwareAnalyzer.InfoOf | crates/core/src/firmware_analyzer.rs:49-56 | the record built from a table row carries the row's version, device model, date and features |
| FirmwareAnalyzer.InitialVersionsDistinct | crates/core/src/firmware_analyzer.rs:37-47 | the five built-in rows have five different versions |
| FirmwareAnalyzer.StrLeRefl | crates/core/src/firmware_analyzer.rs:72-74 | the string order used to compare release dates is reflexive |
| FirmwareAnalyzer.LatestByDate | crates/core/src/firmware_analyzer.rs:72-74 | the maximum by date is None exactly for an empty map, and otherwise an entry of the map whose date no other entry exceeds |
| FirmwareAnalyzer.InsertRows | crates/core/src/firmware_analyzer.rs:48-57 | inserting rows with distinct versions gives one entry per row, stored under its version, and nothing else |
| FirmwareAnalyzer.FirmwareAnalyzer.constructor | crates/core/src/firmware_analyzer.rs:19-35 | a new analyzer knows exactly the five built-in versions, each under its version with its row's record, and the eight device models |
| FirmwareAnalyzer.FirmwareAnalyzer.GetFirmwareInfo | crates/core/src/firmware_analyzer.rs:60-62 | a record is found exactly for a known version, and it is the one stored, carrying that version |
| FirmwareAnalyzer.FirmwareAnalyzer.AddFirmwareVersion | crates/core/src/firmware_analyzer.rs:64-66 | the record is stored under its version, replacing any earlier one, and the device models are unchanged |
| FirmwareAnalyzer.FirmwareAnalyzer.IsKnownVersion | crates/core/src/firmware_analyzer.rs:68-70 | whether the version is a key of the table; AddedVersionIsKnown states it after an addition |
| FirmwareAnalyzer.FirmwareAnalyzer.AddedVersionIsKnown | crates/core/src/firmware_analyzer.rs:64-70 | after an addition the version is known and its record found, and every other version is known exactly when it was before |
| FirmwareAnalyzer.FirmwareAnalyzer.GetLatestVersion | crates/core/src/firmware_analyzer.rs:72-74 | None exactly without versions, otherwise a stored record whose release date no other record exceeds |
| FirmwareAnalyzer.FirmwareAnalyzer.GetVersionsForModel | crates/core/src/firmware_analyzer.rs:76-81 | exactly the stored records of that device model, each once |
| FirmwareAnalyzer.FirmwareAnalyzer.DetectVersionChanges | crates/core/src/firmware_analyzer.rs:83-91 | the added versions are those new and not old, the removed ones those old and not new, each once |
| FirmwareAnalyzer.FirmwareAnalyzer.ExtractFeaturesFromVersion | crates/core/src/firmware_analyzer.rs:93-97 | the stored features of a known version, and none for an unknown one |
| FirmwareAnalyzer.FirmwareAnalyzer.IsValidDeviceModel | crates/core/src/firmware_analyzer.rs:99-101 | whether the model is one of the eight device model names; LookupScenario checks "AirPods2" and "UnknownModel" |
| FirmwareAnalyzer.FirmwareAnalyzer.GetAllKnownVersions | crates/core/src/firmware_analyzer.rs:107-109 | every known version, each once, and no other |
| FirmwareAnalyzer.TableSizeScenario | crates/core/src/firmware_analyzer.rs:151-155 | the built-in table has five versions and eight device models |
| FirmwareAnalyzer.LookupScenario | crates/core/src/firmware_analyzer.rs:158-208 | "5E135" is an AirPodsProGen2 firmware with three features, "UNKNOWN" is not known, "AirPods2" is a valid model and "UnknownModel" is not |
| FirmwareAnalyzer.FirstDateIsLatest | crates/core/src/firmware_analyzer.rs:37-47 | the first built-in row's release date is strictly later than every other row's |
| FirmwareAnalyzer.FirstOfDatesIsLatest | crates/core/src/firmware_analyzer.rs:37-47 | of the five built-in release dates the first is strictly the latest |
| FirmwareAnalyzer.LatestScenario | crates/core/src/firmware_analyzer.rs:173-177 | the latest built-in firmware is "5E135" |
| FirmwareAnalyzer.ChangesScenario | crates/core/src/firmware_analyzer.rs:187-194 | the test's version lists give one added and one removed version |
| FirmwareVersionAnalyzer.VersionTableDistinct | crates/core/src/firmware_version_analyzer.rs:46-68 | the built-in rows have pairwise different versions |
| FirmwareVersionAnalyzer.InsertRows | crates/core/src/firmware_version_analyzer.rs:46-68 | inserting rows with distinct versions gives one entry per row, stored under its version, and nothing else |
| FirmwareVersionAnalyzer.ChangeType | crates/core/src/firmware_version_analyzer.rs:117-131 | a version without a '.' is never Major, Minor or Patch |
| FirmwareVersionAnalyzer.NoDotIsUnknown | crates/core/src/firmware_version_analyzer.rs:117-131 | a version without a '.', such as every Apple build of the table, is of Unknown change type |
| FirmwareVersionAnalyzer.NumeralHasNoDot | crates/core/src/firmware_version_analyzer.rs:117-131 | a rendered decimal contains no '.' |
| FirmwareVersionAnalyzer.ChangeTypeOfSplit | crates/core/src/firmware_version_analyzer.rs:117-131 | with at least two pieces, the change type is decided by the first two pieces alone |
| FirmwareVersionAnalyzer.ChangeTypeOfPieces | crates/core/src/firmware_version_analyzer.rs:117-131 | for dot-free pieces joined by '.', the change type is decided by the first two pieces |
| FirmwareVersionAnalyzer.DottedChangeType | crates/core/src/firmware_version_analyzer.rs:117-131 | a version whose first two pieces are u32 numerals is Major for a non-zero first, else Minor for a non-zero second, else Patch |
| FirmwareVersionAnalyzer.AddedChanges | crates/core/src/firmware_version_analyzer.rs:85-98 | the first pass gives, for versions new and known only, non-breaking entries with old version "N/A" and the table's device model |
| FirmwareVersionAnalyzer.RemovedChanges | crates/core/src/firmware_version_analyzer.rs:100-112 | the second pass gives, for versions gone and known only, breaking entries of Unknown type with new version "N/A" |
| FirmwareVersionAnalyzer.AddedChangesComplete | crates/core/src/firmware_version_analyzer.rs:85-98 | every version that is new and known has its entry in the first pass |
| FirmwareVersionAnalyzer.RemovedChangesComplete | crates/core/src/firmware_version_analyzer.rs:100-112 | every version that is gone and known has its entry in the second pass |
| FirmwareVersionAnalyzer.AddedChangesKeepsDuplicates | crates/core/src/firmware_version_analyzer.rs:85-98 | a new version listed twice gets two entries: the pass does not deduplicate |
| FirmwareVersionAnalyzer.FeatureDifferenceMembers | crates/core/src/firmware_version_analyzer.rs:158-170 | the added features are exactly those new and not old, the removed ones those old and not new |
| FirmwareVersionAnalyzer.FeatureDifferenceOfSame | crates/core/src/firmware_version_analyzer.rs:158-170 | equal feature lists differ in nothing |
| FirmwareVersionAnalyzer.FeatureDifferenceOfOneMore | crates/core/src/firmware_version_analyzer.rs:158-170 | a list extended by one feature it lacks gains exactly that feature and loses none |
| FirmwareVersionAnalyzer.FirmwareVersionAnalyzer.constructor | crates/core/src/firmware_version_analyzer.rs:37-68 | a new analyzer knows exactly the built-in rows, each under its version, with an empty history |
| FirmwareVersionAnalyzer.FirmwareVersionAnalyzer.GetVersionInfo | crates/core/src/firmware_version_analyzer.rs:70-72 | a record is found exactly for a known version, and it is the one stored, carrying that version |
| FirmwareVersionAnalyzer.FirmwareVersionAnalyzer.AddVersion | crates/core/src/firmware_version_analyzer.rs:74-76 | the record is stored under its version, replacing any earlier one, and the history is unchanged |
| FirmwareVersionAnalyzer.FirmwareVersionAnalyzer.AddedVersionIsFound | crates/core/src/firmware_version_analyzer.rs:70-76 | after an addition the record is found under its version, and every other version is found exactly when it was before |
| FirmwareVersionAnalyzer.FirmwareVersionAnalyzer.DetectVersionChanges | crates/core/src/firmware_version_analyzer.rs:78-115 | the entries of the first pass over the new versions, then those of the second pass over the old ones |
| FirmwareVersionAnalyzer.FirmwareVersionAnalyzer.GetVersionsForModel | crates/core/src/firmware_version_analyzer.rs:133-138 | exactly the stored records of that device model, each once |
| FirmwareVersionAnalyzer.FirmwareVersionAnalyzer.GetLatestVersion | crates/core/src/firmware_version_analyzer.rs:140-142 | None exactly without versions, otherwise a stored record whose release date no other record exceeds |
| FirmwareVersionAnalyzer.FirmwareVersionAnalyzer.ExtractFeaturesFromVersion | crates/core/src/firmware_version_analyzer.rs:144-148 | the stored features of a known version, and none for an unknown one |
| FirmwareVersionAnalyzer.FirmwareVersionAnalyzer.CompareFeatureSets | crates/core/src/firmware_version_analyzer.rs:150-171 | the added features are those of the new version missing from the old one, and the removed ones the other way round |
| FirmwareVersionAnalyzer.FirstDateIsLatest | crates/core/src/firmware_version_analyzer.rs:46-68 | the first built-in row's release date is strictly later than every other row's |
| FirmwareVersionAnalyzer.LatestScenario | crates/core/src/firmware_version_analyzer.rs:140-142 | the latest built-in version is "5E135", with protocol version "1.0.0" |
| FirmwareVersionAnalyzer.FeatureScenario | crates/core/src/firmware_version_analyzer.rs:239-244 | from "5D134" to "5E135" exactly "SpatialAudio" is added and nothing is removed |
| FirmwareVersionAnalyzer.AddedOfPair | crates/core/src/firmware_version_analyzer.rs:85-98 | of two versions where only the second is new and known, the first pass gives one entry, for the second |
| FirmwareVersionAnalyzer.RemovedOfPair | crates/core/src/firmware_version_analyzer.rs:100-112 | of two versions where only the second is gone and known, the second pass gives one entry, for the second |
| FirmwareVersionAnalyzer.SwapChanges | crates/core/src/firmware_version_analyzer.rs:78-115 | replacing one known version by another dot-free known one gives a non-breaking Unknown entry for the added version, then a breaking one for the gone version |
| FirmwareVersionAnalyzer.ChangesScenario | crates/core/src/firmware_version_analyzer.rs:223-229 | the test's lists give a new entry for "5C133" (AirPodsMax) and a breaking entry for "5D134" (AirPodsProGen2), both of Unknown type |
| LegalScan.Rank | crates/core/src/legal_scan.rs:225-241 | the rank of a risk level is one of 0 to 4 |
| LegalScan.RiskOrderTotal | crates/core/src/legal_scan.rs:219-241 | the order of risk levels is total and strict, None < Low < Medium < High < Critical |
| LegalScan.MaxRisk | crates/core/src/legal_scan.rs:110-112 | the kept level is one of the two and at least both |
| LegalScan.LicenseConsistency | crates/core/src/legal_scan.rs:148-160 | the share of GPL-3.0 headers is a percentage between 0 and 100, and 0 without headers |
| LegalScan.ShareIsPercent | crates/core/src/legal_scan.rs:159 | a part of a positive whole is between 0 and 100 percent of it |
| LegalScan.AllConsistentIsFull | crates/core/src/legal_scan.rs:148-160 | headers that all carry the GPL-3.0 notice are 100% consistent |
| LegalScan.WholeIsFull | crates/core/src/legal_scan.rs:159 | a positive whole is 100 percent of itself |
| LegalScan.NoneConsistentIsZero | crates/core/src/legal_scan.rs:148-160 | headers none of which carries the notice are 0% consistent |
| LegalScan.LegalScanResult.constructor | crates/core/src/legal_scan.rs:78-96 | a new result has the fixed scan date, nothing recorded, clean firmware, risk None and is safe |
| LegalScan.LegalScanResult.HasCriticalIssues | crates/core/src/legal_scan.rs:142-146 | critical exactly with a DMCA notice, with a Critical GPL violation or with NDA-protected firmware; AddDmcaNotice ensures it |
| LegalScan.LegalScanResult.AddDmcaNotice | crates/core/src/legal_scan.rs:98-102 | the notice is appended, the risk becomes Critical, the result unsafe and critical, and nothing else changes; the risk does not fall |
| LegalScan.LegalScanResult.AddGplViolation | crates/core/src/legal_scan.rs:104-113 | the violation is appended, the risk rises to the greater of the two levels, and a Critical violation makes the result unsafe; the risk does not fall and an unsafe result stays unsafe |
| LegalScan.LegalScanResult.AddLicenseHeader | crates/core/src/legal_scan.rs:115-117 | the header is appended and nothing else changes |
| LegalScan.LegalScanResult.AddTrademarkUsage | crates/core/src/legal_scan.rs:119-124 | the usage is appended, with a finding naming the term exactly for a non-compliant usage |
| LegalScan.LegalScanResult.SetFirmwareAnalysis | crates/core/src/legal_scan.rs:126-132 | the analysis is stored; NDA or proprietary firmware makes the risk Critical and the result unsafe, other firmware leaves both as they were; the risk does not fall and an unsafe result stays unsafe |
| LegalScan.LegalScanResult.AddFinding | crates/core/src/legal_scan.rs:134-136 | the finding is appended and nothing else changes |
| LegalScan.LegalScanResult.AddRecommendation | crates/core/src/legal_scan.rs:138-140 | the recommendation is appended and nothing else changes |
| LegalScan.LegalScanResult.GetLicenseConsistency | crates/core/src/legal_scan.rs:148-160 | the consistency of the result's headers, between 0 and 100 |
| LegalScan.CreationScenario | crates/core/src/legal_scan.rs:249-253 | a new result has risk None and is safe |
| LegalScan.DmcaScenario | crates/core/src/legal_scan.rs:256-268 | a DMCA notice is recorded and makes the result Critical and unsafe |
| LegalScan.LicenseConsistencyScenario | crates/core/src/legal_scan.rs:271-288 | two GPL-3.0 headers are 100% consistent |
| LegalScan.TrademarkScenario | crates/core/src/legal_scan.rs:291-300 | a compliant usage is recorded without a finding |
| LegalScan.FirmwareScenario | crates/core/src/legal_scan.rs:303-313 | clean firmware keeps the result safe, and NDA firmware (beyond the test) makes it Critical and unsafe |
| LegalScan.GplScenario | crates/core/src/legal_scan.rs:316-327 | a High violation is recorded, raises the risk to High and keeps the result safe |
| DmcaScanner.KeywordNotices | crates/core/src/dmca_scanner.rs:43-52 | one Review notice per keyword the lowered description contains, in keyword order, and no other |
| DmcaScanner.ScanNoticesCount | crates/core/src/dmca_scanner.rs:31-55 | a scan gives one notice per keyword found plus the block-list notice, which comes first, exactly when the repository is blocked |
| DmcaScanner.KeywordNoticesMembers | crates/core/src/dmca_scanner.rs:43-52 | a keyword's notice is reported exactly when it is a keyword that the lowered text contains |
| DmcaScanner.DmcaScanner.constructor | crates/core/src/dmca_scanner.rs:11-29 | a new scanner has no notices, no blocked repositories and the five keywords, and calls every repository safe |
| DmcaScanner.DmcaScanner.ScanRepository | crates/core/src/dmca_scanner.rs:31-55 | the notices are the block-list notice when the repository is blocked, then the keyword notices of the lowered description |
| DmcaScanner.DmcaScanner.GetNotice | crates/core/src/dmca_scanner.rs:61-63 | a notice is found exactly when one is recorded for the repository, and it is that one |
| DmcaScanner.DmcaScanner.CheckForTakedown | crates/core/src/dmca_scanner.rs:57-59 | due for takedown exactly when a notice is recorded for the repository or it is on the block list |
| DmcaScanner.DmcaScanner.AddBlockedRepository | crates/core/src/dmca_scanner.rs:65-67 | the repository is appended to the block list, is then due for takedown and unsafe, and no other repository's safety changes |
| DmcaScanner.DmcaScanner.IsRepositorySafe | crates/core/src/dmca_scanner.rs:69-71 | safe exactly when not due for takedown; AddBlockedRepository ensures a blocked repository is unsafe |
| DmcaScanner.DmcaScanner.ScanCommitMessages | crates/core/src/dmca_scanner.rs:73-86 | the flagged messages are, in order, those whose lowercase form contains some keyword, each once |
| DmcaScanner.ContainsSomeKeyword | crates/core/src/dmca_scanner.rs:77-82 | the inner loop, stopping at the first keyword found, finds one exactly when the text contains some keyword |
| DmcaScanner.ScanCommitMessagesMembers | crates/core/src/dmca_scanner.rs:73-86 | never more flagged messages than messages, and a message is flagged exactly when it is given and its lowercase form contains a keyword |
| DmcaScanner.BlockScenario | crates/core/src/dmca_scanner.rs:117-141 | a fresh scanner calls two repositories safe, and a blocked repository is not safe |
| DmcaScanner.LowerNormalDescription | crates/core/src/dmca_scanner.rs:123-127 | the lowercase form of "A normal repository" is "a normal repository" |
| DmcaScanner.NormalDescriptionLacksProprietary | crates/core/src/dmca_scanner.rs:123-127 | "a normal repository" does not contain "proprietary" |
| DmcaScanner.NormalDescriptionLacksLetters | crates/core/src/dmca_scanner.rs:123-127 | neither 'c' nor 'd' occurs in "a normal repository" |
| DmcaScanner.NormalDescriptionLacksKeywords | crates/core/src/dmca_scanner.rs:123-127 | "a normal repository" contains none of the five keywords |
| DmcaScanner.NormalDescriptionIsClean | crates/core/src/dmca_scanner.rs:123-127 | no keyword is found in the lowered "A normal repository" |
| DmcaScanner.ProprietaryDescriptionIsFlagged | crates/core/src/dmca_scanner.rs:130-134 | some keyword is found in the lowered "This is proprietary code" |
| DmcaScanner.DescriptionScenario | crates/core/src/dmca_scanner.rs:123-134 | the plain description gives no notice and the one mentioning proprietary code gives at least one |
| DmcaScanner.FixBugNotFlagged | crates/core/src/dmca_scanner.rs:144-153 | "Fix bug" is not flagged |
| DmcaScanner.UpdateDocsNotFlagged | crates/core/src/dmca_scanner.rs:144-153 | "Update docs" is not flagged |
| DmcaScanner.ProprietaryCodeFlagged | crates/core/src/dmca_scanner.rs:144-153 | "Add proprietary code" is flagged |
| DmcaScanner.CommitMessagesFlagged | crates/core/src/dmca_scanner.rs:144-153 | of the three test messages only "Add proprietary code" is flagged |
| DmcaScanner.CommitScenario | crates/core/src/dmca_scanner.rs:144-153 | scanning the three test messages returns exactly ["Add proprietary code"] |
| GplChecker.CompatibleLicenses | crates/core/src/gpl_checker.rs:21-28 | exactly GPL-3.0, MIT, Apache-2.0 and BSD are compatible; GPL-2.0, Proprietary and every unlisted license are not |
| GplChecker.HeaderLines | crates/core/src/gpl_checker.rs:51 | a prefix of the content's lines, of at most 20 lines, and all of them when there are fewer |
| GplChecker.YearWordIsContained | crates/core/src/gpl_checker.rs:52-53 | a line with a word starting with "202" contains "202", so the guard never hides a year |
| GplChecker.YearOf | crates/core/src/gpl_checker.rs:50-59 | a year is found exactly when one of the first 20 lines has a word starting with "202", and it is the first such word of the first such line |
| GplChecker.SecondPieceIsField | crates/core/src/gpl_checker.rs:64-66 | a line with a ':' splits into more than one piece, the second being the text between the first ':' and the next |
| GplChecker.AuthorOf | crates/core/src/gpl_checker.rs:61-71 | an author is found exactly when one of the first 20 lines mentions Author or author and has a ':', and it is the trimmed field after the first ':' of the first such line |
| GplChecker.ViolationsOf | crates/core/src/gpl_checker.rs:86-110 | one violation per header-less file plus one per file typed with a license other than GPL3 and Unknown |
| GplChecker.ViolationSeverities | crates/core/src/gpl_checker.rs:86-110 | the file checks report only Medium and High violations |
| GplChecker.ViolationsMembers | crates/core/src/gpl_checker.rs:86-110 | a violation is reported exactly when it is the Medium one of a header-less file or the High one of a foreign license |
| GplChecker.CheckedHeadersGiveOnlyMissing | crates/core/src/gpl_checker.rs:30-48 | for headers as the header check makes them, GPL3 or Unknown, only Medium violations arise, one per header-less file |
| GplChecker.DependencyViolations | crates/core/src/gpl_checker.rs:112-127 | one High violation per dependency whose license is not compatible, in input order |
| GplChecker.GplChecker.constructor | crates/core/src/gpl_checker.rs:11-28 | a new checker has the required header, no known violations and the six-entry compatibility table |
| GplChecker.GplChecker.CheckLicenseCompatibility | crates/core/src/gpl_checker.rs:73-78 | true exactly for GPL-3.0, MIT, Apache-2.0 and BSD |
| GplChecker.GplChecker.CheckLicenseHeader | crates/core/src/gpl_checker.rs:30-48 | a header exactly when the content contains "GPL-3", typed GPL3 then and Unknown otherwise, with the extracted year and author |
| GplChecker.GplChecker.ExtractYear | crates/core/src/gpl_checker.rs:50-59 | the loop over the first 20 lines and their words returns the year of the content |
| GplChecker.GplChecker.ExtractAuthor | crates/core/src/gpl_checker.rs:61-71 | the loop over the first 20 lines returns the author of the content |
| GplChecker.GplChecker.VerifyAllFilesHaveHeaders | crates/core/src/gpl_checker.rs:80-84 | the first number is the number of files with a header and the second the number of files, the header-less files making up the difference; the two agree exactly when every file has a header, and the first is 0 exactly when none has |
| GplChecker.GplChecker.CheckForViolations | crates/core/src/gpl_checker.rs:86-110 | the loop returns the violations of the files |
| GplChecker.GplChecker.CheckDependencyLicenses | crates/core/src/gpl_checker.rs:112-127 | the loop returns the dependency violations under the compatibility table |
| GplChecker.Gpl3HeaderText | crates/core/src/gpl_checker.rs:167-173 | the test's header text contains "GPL-3" |
| GplChecker.HeaderScenario | crates/core/src/gpl_checker.rs:167-173 | the test's header text is recognised as a GPL3 header |
| GplChecker.VerifyHeadersScenario | crates/core/src/gpl_checker.rs:184-205 | of two files, one with a header, the count is (1, 2) |
| GplChecker.CheckViolationsScenario | crates/core/src/gpl_checker.rs:208-219 | one header-less Unknown file gives one violation |
| GplChecker.DependencyLicensesScenario | crates/core/src/gpl_checker.rs:222-230 | of serde (MIT) and proprietary-lib (Proprietary) only the second is reported |
| TrademarkChecker.UsageOf | crates/core/src/trademark_checker.rs:68-93 | an unprotected term is compliant with the unprotected reason; a protected one gets the compliant or the violation reason by its verdict |
| TrademarkChecker.UsageIgnoresCase | crates/core/src/trademark_checker.rs:72-81 | the verdict does not depend on the case of the context |
| TrademarkChecker.FairUseIgnoresCase | crates/core/src/trademark_checker.rs:117-127 | neither kind of fair use depends on the case of the context |
| TrademarkChecker.IsDescriptiveUse | crates/core/src/trademark_checker.rs:117-121 | the lowercased context mentions "descriptive", "compatibility" or "works with"; FairUseIgnoresCase and FairUseScenario state its behaviour |
| TrademarkChecker.IsNominativeUse | crates/core/src/trademark_checker.rs:123-127 | the lowercased context mentions "nominative", "refers to" or "compatible with"; FairUseIgnoresCase and FairUseScenario state its behaviour |
| TrademarkChecker.AcceptedUsageIsFairUse | crates/core/src/trademark_checker.rs:32-66 | every usage of a protected term the table accepts is a descriptive or a nominative use |
| TrademarkChecker.ContextOf | crates/core/src/trademark_checker.rs:108-115 | the first line of the text containing the term, or the term itself when no line does |
| TrademarkChecker.ContextHoldsTerm | crates/core/src/trademark_checker.rs:95-115 | the context of a protected term the text mentions contains the term |
| TrademarkChecker.TrademarkChecker.constructor | crates/core/src/trademark_checker.rs:19-66 | the checker holds the initial table, AirPods protected, and the compliant-usage list |
| TrademarkChecker.TrademarkChecker.CheckTrademarkUsage | crates/core/src/trademark_checker.rs:68-93 | AirPods is compliant exactly when the lowercased context mentions descriptive use, nominative use or compatibility statements and none of brand name, product endorsement or trademark registration; Apple exactly when it mentions descriptive use and none of brand name, company name or product name; every other term is compliant |
| TrademarkChecker.TrademarkChecker.ExtractContext | crates/core/src/trademark_checker.rs:108-115 | the loop returns the context of the term |
| TrademarkChecker.TrademarkChecker.ScanText | crates/core/src/trademark_checker.rs:95-106 | one usage per protected term the text mentions, each judged in its context, which contains the term, and no term twice |
| TrademarkChecker.TrademarkChecker.CheckProjectDescription | crates/core/src/trademark_checker.rs:129-131 | the result of `scan_text` on the description: one usage for each protected term it mentions and only those, no term twice, each judged by the policy table in its context, which contains the term |
| TrademarkChecker.TrademarkChecker.CheckReadme | crates/core/src/trademark_checker.rs:133-135 | the result of `scan_text` on the README: one usage for each protected term it mentions and only those, no term twice, each judged by the policy table in its context, which contains the term |
| TrademarkChecker.UsageScenario | crates/core/src/trademark_checker.rs:174-185 | AirPods in a descriptive-use context is compliant; Apple as a brand name is not |
| TrademarkChecker.ScanScenario | crates/core/src/trademark_checker.rs:188-193 | a text mentioning AirPods gives at least one usage |
| TrademarkChecker.LowerPhraseAtFront | crates/core/src/trademark_checker.rs:117-127 | a lower-case phrase at the front survives lowercasing |
| TrademarkChecker.FairUseScenario | crates/core/src/trademark_checker.rs:196-207 | "descriptive use of AirPods" and "works with AirPods" are descriptive, "compatible with AirPods" and "refers to AirPods" nominative |
| FirmwareSecurity.RiskOf | crates/core/src/firmware_security.rs:40-46 | Critical exactly for NDA or proprietary firmware, High exactly for other Apple firmware, None exactly otherwise |
| FirmwareSecurity.AnalyzeFirmware | crates/core/src/firmware_security.rs:35-70 | each flag is set exactly when the data contains one of that flag's keywords, and the risk level follows the flags |
| FirmwareSecurity.IsSafeToDistribute | crates/core/src/firmware_security.rs:89-91 | safe exactly when none of the NDA, proprietary and Apple flags is set; AnalysisIsConsistent ties it to risk None |
| FirmwareSecurity.GetRiskAssessment | crates/core/src/firmware_security.rs:93-103 | the text starts with CRITICAL exactly for NDA or proprietary firmware, with HIGH exactly for other Apple firmware, and with SAFE exactly when the analysis is safe to distribute |
| FirmwareSecurity.AnalysisIsConsistent | crates/core/src/firmware_security.rs:35-103 | for an analysis of content, it is safe to distribute exactly at risk None, and the assessment's tag names the risk level |
| FirmwareSecurity.SharedKeywords | crates/core/src/firmware_security.rs:10-33 | data containing "Proprietary" is flagged proprietary and Apple, data containing "Confidential" NDA and Apple |
| FirmwareSecurity.CheckFirmwareFile | crates/core/src/firmware_security.rs:72-80 | the content's analysis, with the proprietary flag also set for a ".bin" or ".hex" path, and the risk level left as the content gave it |
| FirmwareSecurity.ImageKeepsContentRisk | crates/core/src/firmware_security.rs:72-80 | a firmware image with clean content is proprietary, not safe and assessed CRITICAL, while its risk level stays None |
| FirmwareSecurity.ScanFirmwareBundle | crates/core/src/firmware_security.rs:82-87 | one analysis per file, in order, each that of checking that file |
| FirmwareSecurity.ScanBundleAppend | crates/core/src/firmware_security.rs:82-87 | scanning two bundles one after the other is scanning them joined |
| FirmwareSecurity.AppleDataDetected | crates/core/src/firmware_security.rs:138-142 | "Copyright Apple Inc. 2025" is flagged as Apple firmware |
| FirmwareSecurity.NdaDataDetected | crates/core/src/firmware_security.rs:145-149 | "This is NDA protected material" is flagged as NDA-protected |
| FirmwareSecurity.ProprietaryDataDetected | crates/core/src/firmware_security.rs:152-156 | "Proprietary firmware code" is flagged as proprietary |
| FirmwareSecurity.NormalDataIsNotApple | crates/core/src/firmware_security.rs:159-165 | "Normal firmware data" contains no Apple signature |
| FirmwareSecurity.NormalDataIsNotNda | crates/core/src/firmware_security.rs:159-165 | "Normal firmware data" contains no NDA keyword |
| FirmwareSecurity.NormalDataIsNotProprietary | crates/core/src/firmware_security.rs:159-165 | "Normal firmware data" contains no proprietary indicator |
| FirmwareSecurity.NormalDataIsClean | crates/core/src/firmware_security.rs:159-165 | the analysis of "Normal firmware data" is safe to distribute, at risk None |
| FirmwareSecurity.ClosedSourceIsNotApple | crates/core/src/firmware_security.rs:10-33 | "Closed Source" is flagged proprietary but not Apple firmware |
| FirmwareSecurity.VerdictScenario | crates/core/src/firmware_security.rs:168-198 | a clean analysis is safe, a proprietary one is not, and NDA firmware is assessed CRITICAL |
| CodebaseDiff.StatusCountSnoc | crates/core/src/codebase_diff.rs:91-101 | one more diff adds one to the count of its own status and to no other |
| CodebaseDiff.CountedStatusesBounded | crates/core/src/codebase_diff.rs:91-101 | the Added, Modified, Deleted and Conflict counts together never exceed the number of diffs |
| CodebaseDiff.CountedSnoc | crates/core/src/codebase_diff.rs:93-100 | appending a diff to counted diffs keeps the four counters right when exactly the counter of its status grows by one |
| CodebaseDiff.CodebaseDiffReport.constructor | crates/core/src/codebase_diff.rs:73-89 | a new report has the three versions, the fixed scan date, no diffs, no hunks and every counter 0 |
| CodebaseDiff.CodebaseDiffReport.AddFileDiff | crates/core/src/codebase_diff.rs:91-101 | the diff is appended and counted in the total and in the counter of its status; Renamed and Unchanged diffs have no counter of their own; the counters keep matching the list |
| CodebaseDiff.CodebaseDiffReport.AddHunk | crates/core/src/codebase_diff.rs:103-109 | the hunk is appended and counted, and counted as conflicted exactly when it is |
| CodebaseDiff.CodebaseDiffReport.CountersWithinTotal | crates/core/src/codebase_diff.rs:91-109 | the status counters together never exceed the file total, and the conflicted hunks never exceed all hunks |
| CodebaseDiff.CountingScenario | crates/core/src/codebase_diff.rs:165-232 | one Added diff gives one file and one added file; a conflicting and a clean hunk give two hunks and one conflict |
| MergePlanner.PriorityMapRange | crates/core/src/merge_planner.rs:20-31 | every priority of the table lies in 1 to 10, and its keys are the ten category names |
| MergePlanner.DecideMergeAction | crates/core/src/merge_planner.rs:61-73 | Manual exactly for a conflict, Skip exactly for an empty upstream side, Adopt exactly for an untouched local side, Adapt exactly when the local side differs from base and upstream from base, Replace exactly for what is left |
| MergePlanner.Reason | crates/core/src/merge_planner.rs:105-113 | the decision's sentence, ending in the path |
| MergePlanner.ReasonNamesDecision | crates/core/src/merge_planner.rs:105-113 | two reasons for one path are equal only for one decision |
| MergePlanner.CategorizeFile | crates/core/src/merge_planner.rs:126-148 | every path falls in one of the ten categories of the priority table |
| MergePlanner.CategorizeByRules | crates/core/src/merge_planner.rs:126-148 | the category is that of the first keyword rule the path matches, and the release chores when none matches |
| MergePlanner.FallbackIsCategoryPriority | crates/core/src/merge_planner.rs:82-102 | the keyword fallback gives the table's priority of the path's category, so between 1 and 10 |
| MergePlanner.NamesNoCategory | crates/core/src/merge_planner.rs:76-80 | a path containing none of the ten names names no category |
| MergePlanner.CalculatePriority | crates/core/src/merge_planner.rs:75-103 | the priority of some category name the path contains, in whatever order the map yields them, or else the fallback, which is the priority of the path's category; always 1 to 10 |
| MergePlanner.InsertByPriority | crates/core/src/merge_planner.rs:57 | one insertion makes the list one longer |
| MergePlanner.InsertPermutes | crates/core/src/merge_planner.rs:57 | insertion adds the entry and loses nothing |
| MergePlanner.InsertAtLeast | crates/core/src/merge_planner.rs:57 | a lower bound on the list and the entry bounds their insertion |
| MergePlanner.InsertSorted | crates/core/src/merge_planner.rs:57 | insertion keeps a sorted list sorted |
| MergePlanner.SortByPriority | crates/core/src/merge_planner.rs:57 | the sort keeps the length |
| MergePlanner.SortSorts | crates/core/src/merge_planner.rs:57 | the sorted list is in ascending priority |
| MergePlanner.SortPermutes | crates/core/src/merge_planner.rs:57 | the sorted list is a permutation of the input |
| MergePlanner.InsertKeepsBuckets | crates/core/src/merge_planner.rs:57 | inserting into a sorted list appends the entry to those of its priority and keeps the order of every priority |
| MergePlanner.SortIsStable | crates/core/src/merge_planner.rs:57 | the entries of each priority keep their input order |
| MergePlanner.PlanForRange | crates/core/src/merge_planner.rs:44-55 | the entries built for the hunks have priorities between 1 and 10 |
| MergePlanner.GenerateMergePlan | crates/core/src/merge_planner.rs:41-59 | one entry per hunk, each with its decision, reason and a possible priority, stably sorted by priority |
| MergePlanner.SortKeepsRange | crates/core/src/merge_planner.rs:57 | sorting keeps every priority within 1 to 10 |
| MergePlanner.EffortBounded | crates/core/src/merge_planner.rs:150-165 | the Adopt, Adapt and Manual entries together are at most all entries |
| MergePlanner.EstimateEffort | crates/core/src/merge_planner.rs:150-165 | the loop counts the Adopt, the Adapt and the Manual entries, which together are at most all entries |
| MergePlanner.GroupedSnoc | crates/core/src/merge_planner.rs:118-121 | one more diff joins the group of its category, created if missing |
| MergePlanner.CategoriesSnoc | crates/core/src/merge_planner.rs:118-121 | one more diff adds its category to those met |
| MergePlanner.ExactlyOneGroup | crates/core/src/merge_planner.rs:115-124 | every diff lies in the group of its category and in no other |
| MergePlanner.CategorizeChanges | crates/core/src/merge_planner.rs:115-124 | the loop groups the report's diffs by category, each group in input order |
| MergePlanner.BackendsPriority | crates/core/src/merge_planner.rs:75-103 | a backends path that contains no category name is a Bluetooth backend of priority 1 whatever the map's order |
| MergePlanner.BackendsPathFacts | crates/core/src/merge_planner.rs:211-222 | "src/backends/bluez.rs" contains "backends" and no category name |
| MergePlanner.BackendsScenario | crates/core/src/merge_planner.rs:211-222 | "src/backends/bluez.rs" is a Bluetooth backend of priority 1 |
| MergePlanner.DocumentationByKeyword | crates/core/src/merge_planner.rs:126-148 | a path with "docs" and no earlier keyword is documentation |
| MergePlanner.SecurityDocsMissesKeywords | crates/core/src/merge_planner.rs:126-142 | "Security/docs" contains none of the keywords tested before "docs" |
| MergePlanner.SecurityDocsMissesPairs | crates/core/src/merge_planner.rs:137-142 | "Security/docs" contains neither "ci" nor "security" |
| MergePlanner.SecurityDocsCategory | crates/core/src/merge_planner.rs:126-148 | "Security/docs" is documentation |
| MergePlanner.SecurityDocsNames | crates/core/src/merge_planner.rs:76-80 | the only category name "Security/docs" contains is "Security" |
| MergePlanner.CategoryNameScenario | crates/core/src/merge_planner.rs:75-103 | "Security/docs" is documentation, of priority 9, yet is given priority 8 by the first loop |
| MergePlanner.DecisionScenario | crates/core/src/merge_planner.rs:225-239 | an untouched local side with a non-empty upstream side is adopted |
| MergePlanner.EffortScenario | crates/core/src/merge_planner.rs:242-280 | one Adopt and one Adapt entry count as (1, 1, 0) |
| ThreeWayDiff.DetermineMergeStatusAsWritten | crates/core/src/three_way_diff.rs:52-69 | as written: never BothModified, Conflict exactly when the three lists differ pairwise, and a local modification when only upstream changed |
| ThreeWayDiff.UpstreamChangeMislabelled | crates/core/src/three_way_diff.rs:65 | "base", "upstream", "base" is called a local modification, where the test on this input expects an upstream one |
| ThreeWayDiff.DetermineMergeStatus | crates/core/src/three_way_diff.rs:52-69 | corrected: Clean exactly when nothing changed, Conflict exactly when all three differ, upstream exactly when upstream changed and local kept the base or made the same change, local exactly when only local changed; never BothModified |
| ThreeWayDiff.StatusesAgreeElsewhere | crates/core/src/three_way_diff.rs:52-69 | the two agree on every input but the mislabelled row |
| ThreeWayDiff.MaxLen | crates/core/src/three_way_diff.rs:78 | the largest of the three lengths |
| ThreeWayDiff.ConflictsBelow | crates/core/src/three_way_diff.rs:71-97 | the regions below n, ascending, one for an index whose three lines differ pairwise |
| ThreeWayDiff.ConflictsBelowComplete | crates/core/src/three_way_diff.rs:71-97 | every conflicting index below n has its region |
| ThreeWayDiff.ConflictsComplete | crates/core/src/three_way_diff.rs:71-97 | every conflicting index, a missing line reading as empty, has its region |
| ThreeWayDiff.AgreementHasNoConflicts | crates/core/src/three_way_diff.rs:71-97 | when two of the lists are equal there is no conflict region |
| ThreeWayDiff.DetectConflicts | crates/core/src/three_way_diff.rs:71-97 | the loop returns exactly the regions of the conflicting indices, ascending |
| ThreeWayDiff.Analyze | crates/core/src/three_way_diff.rs:34-50 | the contents split into lines, the corrected status of the three line lists (DetermineMergeStatus, not the as-written status of three_way_diff.rs:65; see Findings) and their conflict regions |
| ThreeWayDiff.AutoMergeIsNotManual | crates/core/src/three_way_diff.rs:99-110 | on what `analyze` returns, an automatic merge is possible exactly when a manual one is not needed |
| ThreeWayDiff.CanAutoMerge | crates/core/src/three_way_diff.rs:99-106 | automatic exactly for a Clean, an upstream-only or a local-only status |
| ThreeWayDiff.RequiresManualMerge | crates/core/src/three_way_diff.rs:108-110 | manual exactly for a Conflict status or a non-empty list of conflict regions |
| ThreeWayDiff.PickLine | crates/core/src/three_way_diff.rs:126-152 | the changed side when only one side changed, the common line when both agree, local when all three differ |
| ThreeWayDiff.PicksBelow | crates/core/src/three_way_diff.rs:126-152 | one picked line per index below n |
| ThreeWayDiff.MergedTextLines | crates/core/src/three_way_diff.rs:126-152 | for lines without line breaks, the merged text read back has one picked line per index of the longest input |
| ThreeWayDiff.MergedText | crates/core/src/three_way_diff.rs:126-152 | the picked line of each index up to the longest input, each followed by a newline; MergedTextLines reads it back |
| ThreeWayDiff.MergeBothModified | crates/core/src/three_way_diff.rs:126-152 | the picked lines, each followed by a newline |
| ThreeWayDiff.ConflictMarkers | crates/core/src/three_way_diff.rs:154-162 | the local marker, the local text, the separator, the upstream text and the upstream marker, in that order; the base is not used |
| ThreeWayDiff.MergeResultOf | crates/core/src/three_way_diff.rs:112-124 | the text each status selects: base, upstream, local, the merged lines or the conflict markers; GenerateMergeResult and MergeKeepsChanges state what it keeps |
| ThreeWayDiff.GenerateMergeResult | crates/core/src/three_way_diff.rs:112-124 | the text the status selects; a conflict starts with the local marker |
| ThreeWayDiff.MergeKeepsChanges | crates/core/src/three_way_diff.rs:112-124 | outside a conflict the result keeps every change: its lines are upstream's when upstream changed and local's when local changed |
| ThreeWayDiff.AsWrittenLosesUpstreamChange | crates/core/src/three_way_diff.rs:65 | as written, base "base", upstream "upstream", local "base" merges to the local text and loses the upstream change |
| ThreeWayDiff.CleanMergeScenario | crates/core/src/three_way_diff.rs:202-210 | equal texts merge cleanly |
| ThreeWayDiff.OnlyUpstreamScenario | crates/core/src/three_way_diff.rs:213-221 | only upstream changed: an upstream modification, merged automatically |
| ThreeWayDiff.OnlyLocalScenario | crates/core/src/three_way_diff.rs:224-232 | only local changed: a local modification |
| ThreeWayDiff.ConflictScenario | crates/core/src/three_way_diff.rs:235-265 | three different texts conflict and need a manual merge |
| ImplementationExecutor.Recount | crates/core/src/implementation_executor.rs:82-94 | a counter stays put when the status does not change, goes up by one on entering its status and down by one on leaving it |
| ImplementationExecutor.RecountTracksCount | crates/core/src/implementation_executor.rs:77-100 | changing one task's status moves the number of tasks of each status exactly as the counter update does |
| ImplementationExecutor.ReEffortTracksSum | crates/core/src/implementation_executor.rs:82-88 | the adjustment of the completed effort keeps it the sum of the completed tasks' efforts |
| ImplementationExecutor.AddKeepsCounts | crates/core/src/implementation_executor.rs:71-75 | one more task, also counted as completed or blocked when it arrives so, keeps every counter equal to the count over the list of tasks |
| ImplementationExecutor.StatusUpdateKeepsCounts | crates/core/src/implementation_executor.rs:77-100 | a status change with the counters moved as the source moves them keeps every counter equal to the count over the list of tasks |
| ImplementationExecutor.MulLe | crates/core/src/implementation_executor.rs:111-116 | multiplying by a natural number keeps the order |
| ImplementationExecutor.PercentOf | crates/core/src/implementation_executor.rs:111-116 | the rounded-down percentage is 0 for no part, 100 for the whole and at most 100 for a part of the whole |
| ImplementationExecutor.Clamp | crates/core/src/implementation_executor.rs:104 | the capped percentage is at most 100 and at most the input, and the input itself when that is at most 100 |
| ImplementationExecutor.SprintPlan.constructor | crates/core/src/implementation_executor.rs:56-69 | a new plan has the given id and name, the fixed dates, no tasks and every counter zero |
| ImplementationExecutor.SprintPlan.AddTaskAsWritten | crates/core/src/implementation_executor.rs:71-75 | a new task is appended and counted in the total and its effort in the total effort; the completed and blocked counters and the completed effort stay as they were |
| ImplementationExecutor.SprintPlan.AddTask | crates/core/src/implementation_executor.rs:71-75 | as written, and a task arriving Completed or Blocked is also counted so, which keeps the counters those of the list of tasks |
| ImplementationExecutor.SprintPlan.UpdateTaskStatus | crates/core/src/implementation_executor.rs:77-100 | false and no change for an unknown id; otherwise the first task with the id gets the status and each counter moves when it enters or leaves its status, never below 0 (`saturating_sub`); counters that matched the list of tasks still match, and counters that did not are still moved the same way |
| ImplementationExecutor.SprintPlan.SetStatusAt | crates/core/src/implementation_executor.rs:79-95 | the status change of one task with the counters moved as `update_task_status` moves them, keeping them those of the list of tasks when they were |
| ImplementationExecutor.SprintPlan.UpdateTaskProgress | crates/core/src/implementation_executor.rs:102-109 | false and no change for an unknown id; otherwise the first task with the id gets the percentage capped at 100, and the counters are untouched |
| ImplementationExecutor.SprintPlan.CompletionPercentage | crates/core/src/implementation_executor.rs:111-116 | 0 without tasks or without completed ones, 100 when all are completed, and at most 100 while the completed counter does not exceed the total |
| ImplementationExecutor.SprintPlan.EffortCompletionPercentage | crates/core/src/implementation_executor.rs:118-123 | 0 without effort, 100 when all effort is completed, and between 0 and 100 for a part of the effort |
| ImplementationExecutor.SprintPlan.TasksByStatus | crates/core/src/implementation_executor.rs:125-127 | exactly those tasks that have that status, as many as have it |
| ImplementationExecutor.SprintPlan.TasksByCategory | crates/core/src/implementation_executor.rs:129-131 | exactly those tasks that have that category |
| ImplementationExecutor.SprintPlan.CountersWithinTotal | crates/core/src/implementation_executor.rs:111-116 | in a consistent plan the completed and blocked tasks together are at most all tasks, so the percentage is at most 100 |
| ImplementationExecutor.FilterOfComplement | crates/core/src/implementation_executor.rs:125-127 | the blocked tasks among the non-completed ones are all the blocked tasks |
| ImplementationExecutor.AddAndCompleteScenario | crates/core/src/implementation_executor.rs:182-219 | one added task counts once with its four hours, and completing it counts it as completed |
| ImplementationExecutor.CompletionScenario | crates/core/src/implementation_executor.rs:222-240 | four tasks, two of which arrive Completed, give 0 percent as written and 50 percent when counted on arrival |
| ImplementationExecutor.SaturationScenario | crates/core/src/implementation_executor.rs:71-95 | a task added Completed by the as-written `add_task` is not counted; moving it to Pending keeps the completed counter at 0 through `saturating_sub`, and moving it back counts it once |
| ChangeApplier.ChangeLog.constructor | crates/core/src/change_applier.rs:36-45 | a new log is empty, all three counters are 0, the start time is the fixed timestamp and the end time is empty |
| ChangeApplier.ChangeLog.AddChange | crates/core/src/change_applier.rs:47-55 | the change is appended, the total grows by one and exactly one of the successful and failed counters grows by one, according to the change's success flag; the counters keep matching the list |
| ChangeApplier.ChangeLog.TotalIsSuccessfulPlusFailed | crates/core/src/change_applier.rs:47-55 | in a log built by `add_change`, the total is the sum of the successful and the failed counters |
| ChangeApplier.ChangeLog.SuccessRate | crates/core/src/change_applier.rs:57-62 | the rate is 0 for an empty log or one with no successes and 100 when every change succeeded; with no more successes than changes it lies between 0 and 100 |
| ChangeApplier.ChangeLog.ChangesByType | crates/core/src/change_applier.rs:64-66 | a change is returned exactly when it is in the log and has the requested type |
| ChangeApplier.ChangeLog.FailedChanges | crates/core/src/change_applier.rs:68-70 | a change is returned exactly when it is in the log and failed; in a valid log there are as many as the failed counter says |
| ChangeApplier.ChangeId | crates/core/src/change_applier.rs:129 | the id is the type prefix followed by the path, character for character, with every '/' turned into '-'; so an id never holds a '/' |
| ChangeApplier.RenameId | crates/core/src/change_applier.rs:176 | a rename id starts with "rename-" and never holds a '/' |
| ChangeApplier.TypesNeverCollide | crates/core/src/change_applier.rs:127-189 | ids made for two different change types are never equal, whatever the paths |
| ChangeApplier.IdsDistinctWithoutDash | crates/core/src/change_applier.rs:129 | two different paths without '-' get different ids of the same type |
| ChangeApplier.SlashAndDashCollide | crates/core/src/change_applier.rs:129 | "a/b" and "a-b" get the same id, so the map keeps only one of the two changes |
| ChangeApplier.Applier.constructor | crates/core/src/change_applier.rs:121-125 | a new applier holds no changes |
| ChangeApplier.Applier.ApplyAdd | crates/core/src/change_applier.rs:127-141 | the returned change is a successful Add by "system" at the fixed timestamp with only the new content; it is stored under its id, replacing what was there, and every change stays under its own id |
| ChangeApplier.Applier.ApplyModify | crates/core/src/change_applier.rs:143-157 | the returned change is a successful Modify with the old and the new content; it is stored under its id and every change stays under its own id |
| ChangeApplier.Applier.ApplyDelete | crates/core/src/change_applier.rs:159-173 | the returned change is a successful Delete with only the old content; it is stored under its id and every change stays under its own id |
| ChangeApplier.Applier.ApplyRename | crates/core/src/change_applier.rs:175-189 | the returned change is a successful Rename whose path is the new path and whose old content is the old path; it is stored under its rename id |
| ChangeApplier.Applier.GetAppliedChange | crates/core/src/change_applier.rs:191-193 | a change is found exactly when the id is a key; in a valid applier the change found has that id |
| ChangeApplier.Applier.GetAllChanges | crates/core/src/change_applier.rs:195-197 | every stored change is listed once and nothing else is |
| ChangeApplier.SuccessRateScenario | crates/core/src/change_applier.rs:236-253 | ten changes of which the first eight succeed give a rate of 80, ten changes in all and two failures |
| ChangeApplier.CollisionScenario | crates/core/src/change_applier.rs:127-141 | adding "a/b" and then "a-b" leaves one change, for "a-b", under the shared id |
| Verification.NewReport | crates/core/src/verification.rs:45-57 | a consistent report with no results, a successful build, no coverage and no security issues, counting as all passed |
| Verification.AddResult | crates/core/src/verification.rs:59-67 | the result is appended and counted in the total and in exactly one of passed and failed, by its outcome; consistency is kept and nothing else changes |
| Verification.TotalIsPassedPlusFailed | crates/core/src/verification.rs:59-67 | every result has passed or failed |
| Verification.PassRate | crates/core/src/verification.rs:69-74 | 0 without tests or passes, 100 when every test passed, and between 0 and 100 |
| Verification.IsAllPassed | crates/core/src/verification.rs:84-86 | all passed exactly without failed tests and with a successful build; AllPassedMeansEveryResult turns this into every result having passed |
| Verification.ResultsByType | crates/core/src/verification.rs:76-78 | exactly the results of that type |
| Verification.FailedResults | crates/core/src/verification.rs:80-82 | exactly the failed results, as many as the failed counter |
| Verification.AllPassedMeansEveryResult | crates/core/src/verification.rs:84-86 | a report is all passed exactly when the build succeeded and every result passed |
| Verification.CapCoverage | crates/core/src/verification.rs:191 | at most 100 and at most the percentage, and the percentage itself up to 100 |
| Verification.Verifier.constructor | crates/core/src/verification.rs:139-143 | no reports |
| Verification.Verifier.CreateReport | crates/core/src/verification.rs:145-149 | a new report is stored under the id, replacing any there, and returned |
| Verification.Verifier.GetReport | crates/core/src/verification.rs:151-153 | the report stored under the id, if any |
| Verification.Verifier.AddTest | crates/core/src/verification.rs:155-181 | a result of the type is added to the report with the id; nothing changes for an unknown id |
| Verification.Verifier.AddUnitTest | crates/core/src/verification.rs:155-167 | a unit result is added to the report with the id; nothing changes for an unknown id |
| Verification.Verifier.AddIntegrationTest | crates/core/src/verification.rs:169-181 | an integration result is added to the report with the id; nothing changes for an unknown id |
| Verification.Verifier.SetBuildStatus | crates/core/src/verification.rs:183-187 | only the build status of an existing report changes |
| Verification.Verifier.SetCoverage | crates/core/src/verification.rs:189-193 | the coverage of an existing report becomes the percentage capped at 100 |
| Verification.PassRateScenario | crates/core/src/verification.rs:230-244 | seven passes out of ten are a pass rate of 70 with three failures |
| Verification.VerifierScenario | crates/core/src/verification.rs:247-254 | a unit test added to a created report counts once and one for an unknown report changes nothing; a build warning stops the report counting as all passed; coverage above 100 is capped |
| CiPipeline.Pipeline.constructor | crates/core/src/ci_pipeline.rs:39-52 | a new pipeline has the given id, branch and commit, no stages, every counter 0, the fixed start time and no completion time |
| CiPipeline.Pipeline.AddStage | crates/core/src/ci_pipeline.rs:54-57 | the stage is appended and the stage counter grows by one; its status is not counted, even when it is Success or Failed |
| CiPipeline.Pipeline.UpdateStageStatus | crates/core/src/ci_pipeline.rs:59-75 | the update is accepted exactly when some stage has the id; then the first such stage gets the status and duration, the duration is added to the total and a Success or Failed is counted once more whatever the stage's earlier status; otherwise nothing changes |
| CiPipeline.Pipeline.IsSuccessful | crates/core/src/ci_pipeline.rs:77-79 | successful exactly without failed updates and with as many Success updates as stages; a successful pipeline with stages has a success rate of 100 |
| CiPipeline.Pipeline.SuccessRate | crates/core/src/ci_pipeline.rs:81-86 | 0 without stages or without successes, 100 when the counters agree, more than 100 when a stage was reported successful more than once, never negative |
| CiPipeline.Pipeline.StagesByStatus | crates/core/src/ci_pipeline.rs:88-90 | a stage is returned exactly when it is in the pipeline and has the status; never more stages than the pipeline has |
| CiPipeline.Pipeline.CountersWithinUpdates | crates/core/src/ci_pipeline.rs:59-75 | the completed and the failed counters together are at most the number of accepted updates |
| CiPipeline.RatioAboveOne | crates/core/src/ci_pipeline.rs:81-86 | the percentage of a part in a whole is 0, 100 or above 100 as the part is 0, the whole or more than the whole |
| CiPipeline.UpdateCountsBounded | crates/core/src/ci_pipeline.rs:64-70 | among any list of updates, the Success ones and the Failed ones together are at most all of them |
| CiPipeline.StatusScenario | crates/core/src/ci_pipeline.rs:156-189 | one stage marked Success gives one completed stage and a successful pipeline; marked Failed it gives one failure and an unsuccessful pipeline; an unknown id is refused |
| CiPipeline.DoubleSuccessScenario | crates/core/src/ci_pipeline.rs:59-86 | reporting Success twice for the only stage counts two completions of one stage, so the pipeline is not successful, and both durations add up |
| TestRunner.NewSuite | crates/core/src/test_runner.rs:45-57 | a consistent suite with no tests and zero counters, all passed |
| TestRunner.AddTest | crates/core/src/test_runner.rs:59-71 | the test is appended, its duration added and it is counted once, as passed, as failed (a timeout too) or as skipped; consistency is kept |
| TestRunner.OutcomesPartition | crates/core/src/test_runner.rs:59-71 | every test has exactly one of the three counted outcomes |
| TestRunner.TotalIsSumOfOutcomes | crates/core/src/test_runner.rs:59-71 | passed, failed and skipped add up to the total |
| TestRunner.PassRate | crates/core/src/test_runner.rs:73-78 | 0 without tests or passes, 100 when every test passed, and between 0 and 100 |
| TestRunner.IsAllPassed | crates/core/src/test_runner.rs:80-82 | a suite is all passed exactly without failed and skipped tests; AllPassedMeansEveryTest turns this into every test having passed |
| TestRunner.AllPassedMeansEveryTest | crates/core/src/test_runner.rs:80-82 | a suite is all passed exactly when every one of its tests passed |
| TestRunner.TestsByStatus | crates/core/src/test_runner.rs:84-86 | exactly the tests with that status |
| TestRunner.Runner.constructor | crates/core/src/test_runner.rs:130-134 | no suites |
| TestRunner.Runner.CreateSuite | crates/core/src/test_runner.rs:136-140 | a new suite is stored under the id, replacing any there |
| TestRunner.Runner.GetSuite | crates/core/src/test_runner.rs:142-144 | the suite stored under the id, if any |
| TestRunner.Runner.AddTestTo | crates/core/src/test_runner.rs:146-150 | the test is added to the suite with the id; nothing changes for an unknown id |
| TestRunner.Runner.GetTotalTests | crates/core/src/test_runner.rs:152-154 | the sum of the suites' totals |
| TestRunner.Runner.GetTotalPassed | crates/core/src/test_runner.rs:156-158 | the sum of the suites' passed counts |
| TestRunner.Runner.GetTotalFailed | crates/core/src/test_runner.rs:160-162 | the sum of the suites' failed counts |
| TestRunner.Runner.GetOverallPassRate | crates/core/src/test_runner.rs:164-170 | 0 without tests, else all passed over all tests in percent |
| TestRunner.Runner.IsAllPassed | crates/core/src/test_runner.rs:172-174 | true exactly when no suite has a failed test, skipped tests not mattering |
| TestRunner.PassRateScenario | crates/core/src/test_runner.rs:230-244 | eight passes out of ten tests of 100 ms are a pass rate of 80 and a second in all |
| TestRunner.SingletonSum | crates/core/src/test_runner.rs:152-154 | with one suite the runner's total is that suite's |
| TestRunner.PassedAndSkipped | crates/core/src/test_runner.rs:136-150 | a runner with one suite of a passed and a skipped test |
| TestRunner.SkippedScenarioWith | crates/core/src/test_runner.rs:146-174 | such a runner is all passed while its suite is not, and a test for an unknown suite is dropped |
| TestRunner.SkippedScenario | crates/core/src/test_runner.rs:172-174 | a scenario of `is_all_passed`, not a test of the source: the same with the suites "suite-1" and "suite-2" |
| CoverageAnalyzer.Percent | crates/core/src/coverage_analyzer.rs:16-35 | a coverage figure is 0 when there is nothing to cover or nothing covered, 100 when everything is covered, between 0 and 100 when no more is covered than counted, and never negative |
| CoverageAnalyzer.Mean | crates/core/src/coverage_analyzer.rs:37-42 | the mean of three figures between 0 and 100 lies between 0 and 100, and three equal figures have that figure as their mean |
| CoverageAnalyzer.OverallCoverage | crates/core/src/coverage_analyzer.rs:37-42 | the overall coverage of one file lies between 0 and 100 when no count exceeds its total, and is 0 when the file has nothing to cover |
| CoverageAnalyzer.NewReport | crates/core/src/coverage_analyzer.rs:59-71 | a new report has the id, the fixed timestamp, no metrics and all six totals 0, which agree with its (empty) metrics |
| CoverageAnalyzer.AddMetrics | crates/core/src/coverage_analyzer.rs:73-81 | the metrics are appended and each of the six counts is added to its total; totals that were the sums of their fields stay so |
| CoverageAnalyzer.CoveredWithinTotals | crates/core/src/coverage_analyzer.rs:73-81 | summing metrics that never cover more than they count keeps each covered total within its total |
| CoverageAnalyzer.ReportOverallCoverage | crates/core/src/coverage_analyzer.rs:83-109 | the report's overall coverage is never negative |
| CoverageAnalyzer.ReportCoverageBounded | crates/core/src/coverage_analyzer.rs:83-109 | a report whose totals are the sums of sane metrics has an overall coverage between 0 and 100 |
| CoverageAnalyzer.FilesBelowThreshold | crates/core/src/coverage_analyzer.rs:111-116 | a file is returned exactly when it is in the report and its own overall coverage is below the threshold; a threshold of 0 or less returns nothing |
| CoverageAnalyzer.Analyzer.constructor | crates/core/src/coverage_analyzer.rs:160-164 | a new analyzer holds no reports |
| CoverageAnalyzer.Analyzer.CreateReport | crates/core/src/coverage_analyzer.rs:166-170 | a new empty report is stored under the id, replacing any report there, and returned; every report stays consistent |
| CoverageAnalyzer.Analyzer.GetReport | crates/core/src/coverage_analyzer.rs:172-174 | a report is found exactly when the id is a key, and it is the stored one |
| CoverageAnalyzer.Analyzer.AddMetricsTo | crates/core/src/coverage_analyzer.rs:176-180 | the metrics are added to the report with the id; an unknown id changes nothing |
| CoverageAnalyzer.Analyzer.IsCoverageSufficient | crates/core/src/coverage_analyzer.rs:182-188 | true exactly when the report exists and its overall coverage reaches the threshold; an existing report always passes a threshold of 0 or less |
| CoverageAnalyzer.MetricsScenario | crates/core/src/coverage_analyzer.rs:202-215 | 80 of 100 lines, 40 of 50 branches and 9 of 10 functions give 80, 80 and 90 percent |
| CoverageAnalyzer.Covered85Overall | crates/core/src/coverage_analyzer.rs:234-248 | a new report holding 85 of 100 lines, 40 of 50 branches and 9 of 10 functions has 85 percent overall |
| CoverageAnalyzer.AnalyzerScenario | crates/core/src/coverage_analyzer.rs:234-248 | that report is sufficient for a threshold of 80, and an unknown report is not |
| ReleaseManager.NumberAt | crates/core/src/release_manager.rs:19-21 | a field is read as a `u32`, 0 when it is missing, not a number or too large |
| ReleaseManager.ParseVersion | crates/core/src/release_manager.rs:15-34 | the text is kept, the numbers fit a `u32`, there is a prerelease exactly when the text has a '-', and build metadata only with a prerelease |
| ReleaseManager.IsPrerelease | crates/core/src/release_manager.rs:36-38 | a prerelease exactly when the version has a prerelease part; StableIffNoDash ties it to the text |
| ReleaseManager.IsStable | crates/core/src/release_manager.rs:40-42 | stable exactly when not a prerelease; StableIffNoDash: exactly when the text has no '-' |
| ReleaseManager.StableIffNoDash | crates/core/src/release_manager.rs:36-42 | a parsed version is stable exactly when its text has no '-' |
| ReleaseManager.ParseOfPieces | crates/core/src/release_manager.rs:15-34 | the numbers are the first three '.'-fields of the first '-'-piece, the prerelease is the second piece and the build metadata the third |
| ReleaseManager.NumeralHasNoSeparators | crates/core/src/release_manager.rs:44-46 | a decimal numeral contains neither '-' nor '.' |
| ReleaseManager.SemverRoundTrip | crates/core/src/release_manager.rs:15-46 | parsing the "major.minor.patch" rendering gives back the three numbers and a stable version |
| ReleaseManager.Semver | crates/core/src/release_manager.rs:44-46 | "major.minor.patch" in decimal; SemverRoundTrip parses it back to the three numbers |
| ReleaseManager.SmallNumerals | crates/core/src/release_manager.rs:19-21 | "0", "1" and "2" are read as 0, 1 and 2 |
| ReleaseManager.PlusIsNoNumber | crates/core/src/release_manager.rs:21 | "3+b" is not a number |
| ReleaseManager.StableScenario | crates/core/src/release_manager.rs:214-220 | "1.0.0" is 1.0.0, stable and without build metadata |
| ReleaseManager.PrereleaseScenario | crates/core/src/release_manager.rs:15-38 | "1.0.0-rc.1" is 1.0.0 with prerelease "rc.1" and no build metadata |
| ReleaseManager.DashInPrereleaseScenario | crates/core/src/release_manager.rs:16-24 | "1.0.0-rc-1" has prerelease "rc" and build metadata "1" |
| ReleaseManager.PlusBuildScenario | crates/core/src/release_manager.rs:16-24 | "1.2.3+b" is 1.2.0 and has no build metadata |
| ReleaseManager.NewRelease | crates/core/src/release_manager.rs:84-97 | a new release is a draft, not a prerelease, with the parsed version, no artifacts, no downloads and empty notes |
| ReleaseManager.AddArtifact | crates/core/src/release_manager.rs:99-101 | the artifact is appended, its size adds to the total size, and nothing else changes |
| ReleaseManager.SetReleaseNotes | crates/core/src/release_manager.rs:103-105 | only the notes change |
| ReleaseManager.SetChangelog | crates/core/src/release_manager.rs:107-109 | only the changelog changes |
| ReleaseManager.Publish | crates/core/src/release_manager.rs:111-114 | the release is no longer a draft and is a prerelease exactly when its version is, that is when its text has a '-'; nothing else changes |
| ReleaseManager.PublishIdempotent | crates/core/src/release_manager.rs:111-114 | publishing twice is publishing once |
| ReleaseManager.ArtifactsByType | crates/core/src/release_manager.rs:120-122 | exactly the artifacts of that type |
| ReleaseManager.Manager.constructor | crates/core/src/release_manager.rs:161-165 | no releases |
| ReleaseManager.Manager.CreateRelease | crates/core/src/release_manager.rs:167-171 | a new release is stored under the version, replacing any there; the reference handed back is the key of one stored entry (`values_mut().last()`, not necessarily the new one) together with that entry's release |
| ReleaseManager.Manager.AddArtifactTo | crates/core/src/release_manager.rs:99-101 | `add_artifact` through the reference: only the release under the key changes, to AddArtifact of it; an unknown key changes nothing |
| ReleaseManager.Manager.SetReleaseNotesOf | crates/core/src/release_manager.rs:103-105 | `set_release_notes` through the reference: only the release under the key changes, to SetReleaseNotes of it; an unknown key changes nothing |
| ReleaseManager.Manager.SetChangelogOf | crates/core/src/release_manager.rs:107-109 | `set_changelog` through the reference: only the release under the key changes, to SetChangelog of it; an unknown key changes nothing |
| ReleaseManager.Manager.GetRelease | crates/core/src/release_manager.rs:173-175 | the release stored under the version, if any |
| ReleaseManager.Manager.PublishRelease | crates/core/src/release_manager.rs:181-188 | true exactly for a stored version, whose release is then published; otherwise nothing changes |
| ReleaseManager.Manager.GetLatestRelease | crates/core/src/release_manager.rs:177-179 | None exactly without releases, else a stored release whose (major, minor, patch) is at least every other's |
| ReleaseManager.Manager.StableAndPrereleasePartition | crates/core/src/release_manager.rs:194-200 | every release is stable or a prerelease and never both |
| ReleaseManager.Manager.StableVersions | crates/core/src/release_manager.rs:194-196 | the versions of the stored stable releases; StableAndPrereleasePartition shows they and the prerelease versions split the stored versions |
| ReleaseManager.Manager.PrereleaseVersions | crates/core/src/release_manager.rs:198-200 | the versions of the stored prerelease releases; StableAndPrereleasePartition shows they and the stable versions split the stored versions |
| ReleaseManager.Manager.OnlyLatest | crates/core/src/release_manager.rs:177-179 | of two releases, only the one with the larger numbers can be the latest |
| ReleaseManager.Manager.OneStableOnePrerelease | crates/core/src/release_manager.rs:194-200 | one stable and one prerelease release give one version of each kind |
| ReleaseManager.Manager.ReleasesIn | crates/core/src/release_manager.rs:190-200 | the releases stored under the given versions, each once |
| ReleaseManager.Manager.GetAllReleases | crates/core/src/release_manager.rs:190-192 | every stored release once |
| ReleaseManager.Manager.GetStableReleases | crates/core/src/release_manager.rs:194-196 | every stable release once and nothing else |
| ReleaseManager.Manager.GetPrereleaseReleases | crates/core/src/release_manager.rs:198-200 | every prerelease release once and nothing else |
| ReleaseManager.PublishScenario | crates/core/src/release_manager.rs:223-249 | a new release is a draft and publishing it makes it final |
| ReleaseManager.TotalSizeScenario | crates/core/tests/phase7_release.rs:102-117 | three artifacts of 1 MiB make 3 MiB |
| ReleaseManager.TwoMinorVersions | crates/core/src/release_manager.rs:177-179 | 1.1.0 has larger numbers than 1.0.0 |
| ReleaseManager.LatestScenario | crates/core/src/release_manager.rs:177-179 | of 1.0.0 and 1.1.0 the latest is 1.1.0 |
| ReleaseManager.StableAndPrerelease | crates/core/src/release_manager.rs:36-42 | 1.0.0 is stable and 1.1.0-rc.1 is a prerelease |
| ReleaseManager.StableSplitScenario | crates/core/src/release_manager.rs:190-200 | two releases, one stable and one prerelease |
| ReleaseManager.WorkflowScenario | crates/core/tests/phase7_release.rs:310-364 | a release created alone, given three 50 MiB artifacts and notes through the reference and published, is stored final with three artifacts, 150 MiB and its notes |
| SbomGenerator.LicenseTableCounts | crates/core/src/sbom_generator.rs:64-68 | the license table built by the additions holds exactly the licenses that occur, each with the number of its components |
| SbomGenerator.LicenseTableSum | crates/core/src/sbom_generator.rs:64-68 | the license counts add up to the number of components |
| SbomGenerator.NewSbom | crates/core/src/sbom_generator.rs:53-62 | a consistent SBOM with no components, dependencies or licenses |
| SbomGenerator.AddComponent | crates/core/src/sbom_generator.rs:64-68 | the component is appended and its license count starts at 1 or goes up by one; other counts and fields are unchanged and consistency is kept |
| SbomGenerator.AddDependency | crates/core/src/sbom_generator.rs:70-72 | the dependency is appended and nothing else changes |
| SbomGenerator.ComponentsByType | crates/core/src/sbom_generator.rs:74-76 | exactly the components of that type |
| SbomGenerator.ComponentsByLicense | crates/core/src/sbom_generator.rs:78-80 | exactly the components with the license, as many as the license table records |
| SbomGenerator.LicenseCountsSumToTotal | crates/core/src/sbom_generator.rs:64-84 | in a consistent SBOM the license counts add up to the total number of components |
| SbomGenerator.UniqueLicenses | crates/core/src/sbom_generator.rs:86-88 | each license of the table once; in a consistent SBOM exactly the licenses some component has |
| SbomGenerator.LicensesThatOccur | crates/core/src/sbom_generator.rs:64-88 | in a consistent SBOM the table's licenses are those of the components |
| SbomGenerator.Generator.constructor | crates/core/src/sbom_generator.rs:131-135 | no SBOMs |
| SbomGenerator.Generator.CreateSbom | crates/core/src/sbom_generator.rs:137-141 | a new SBOM is stored under the id, replacing any there; a copy of it is handed back, and the reference's updates are AddComponentTo and AddDependencyTo |
| SbomGenerator.Generator.AddDependencyTo | crates/core/src/sbom_generator.rs:70-72 | `add_dependency` through the reference: only the SBOM under the id changes, to AddDependency of it; an unknown id changes nothing |
| SbomGenerator.Generator.GetSbom | crates/core/src/sbom_generator.rs:143-145 | the SBOM stored under the id, if any |
| SbomGenerator.Generator.AddComponentTo | crates/core/src/sbom_generator.rs:147-151 | the component is added to the SBOM with the id; nothing changes for an unknown id |
| SbomGenerator.Generator.GetAllSboms | crates/core/src/sbom_generator.rs:153-155 | every stored SBOM, one per id |
| SbomGenerator.LicenseTrackingScenario | crates/core/src/sbom_generator.rs:192-207 | three MIT components count three under "MIT", the only license |
| SbomGenerator.GeneratorScenario | crates/core/src/sbom_generator.rs:210-214 | one SBOM created; a component for an unknown id is dropped |
| SbomGenerator.WorkflowScenario | crates/core/tests/phase7_release.rs:310-364 | five GPL-3.0 components and a dependency given through the reference are stored in the SBOM: five components, counted five under GPL-3.0, and one dependency |
| ReleaseNotes.TitlesCount | crates/core/src/release_notes.rs:50-58 | one title per entry of the type |
| ReleaseNotes.NewNotes | crates/core/src/release_notes.rs:37-48 | consistent notes with every list empty and no summary |
| ReleaseNotes.AddChange | crates/core/src/release_notes.rs:50-58 | the entry is appended, its title to the breaking list exactly when it is Breaking and to the deprecations exactly when it is Deprecated; consistency is kept and nothing else changes |
| ReleaseNotes.AddKnownIssue | crates/core/src/release_notes.rs:60-62 | the issue is appended and nothing else changes |
| ReleaseNotes.AddContributor | crates/core/src/release_notes.rs:64-68 | a new contributor is appended, a listed one changes nothing, so the list stays free of duplicates |
| ReleaseNotes.AddContributorIdempotent | crates/core/src/release_notes.rs:64-68 | adding a contributor twice is adding them once |
| ReleaseNotes.SetSummary | crates/core/src/release_notes.rs:70-72 | only the summary changes |
| ReleaseNotes.ChangesByType | crates/core/src/release_notes.rs:74-76 | exactly the entries of that type |
| ReleaseNotes.FeatureCount | crates/core/src/release_notes.rs:78-80 | the number of Feature entries; AddChangeCounts says how a change moves it |
| ReleaseNotes.BugfixCount | crates/core/src/release_notes.rs:82-84 | the number of Bugfix entries; AddChangeCounts says how a change moves it |
| ReleaseNotes.AddChangeCounts | crates/core/src/release_notes.rs:50-84 | a change raises the feature count exactly when it is a Feature and the bugfix count exactly when it is a Bugfix |
| ReleaseNotes.TitleListsCount | crates/core/src/release_notes.rs:50-58 | as many breaking titles as Breaking entries and as many deprecations as Deprecated entries |
| ReleaseNotes.Section | crates/core/src/release_notes.rs:99-149 | a section is empty for no items and otherwise starts with its heading |
| ReleaseNotes.MarkdownStartsWithTitle | crates/core/src/release_notes.rs:91-93 | the rendering starts with "# Release ", the version and a blank line |
| ReleaseNotes.EmptyNotesMarkdown | crates/core/src/release_notes.rs:90-150 | empty notes render as the header alone |
| ReleaseNotes.AppendLines | crates/core/src/release_notes.rs:101-103 | the loop appends one line per item, in order |
| ReleaseNotes.AppendSection | crates/core/src/release_notes.rs:99-149 | a section is appended, nothing for no items |
| ReleaseNotes.GenerateMarkdown | crates/core/src/release_notes.rs:90-150 | the markdown is the header, the summary and the non-empty sections in order |
| ReleaseNotes.Markdown | crates/core/src/release_notes.rs:90-150 | the header, the summary and the non-empty sections in the order `generate_markdown` writes them; MarkdownStartsWithTitle and EmptyNotesMarkdown state its shape |
| ReleaseNotes.Generator.constructor | crates/core/src/release_notes.rs:164-168 | no notes |
| ReleaseNotes.Generator.CreateNotes | crates/core/src/release_notes.rs:170-174 | new notes are stored under the version, replacing any there; a copy of them is handed back, and the reference's updates are the four by-version methods |
| ReleaseNotes.Generator.AddChangeTo | crates/core/src/release_notes.rs:50-58 | `add_change` through the reference: only the notes under the version change, to AddChange of them; an unknown version changes nothing |
| ReleaseNotes.Generator.AddKnownIssueTo | crates/core/src/release_notes.rs:60-62 | `add_known_issue` through the reference: only the notes under the version change, to AddKnownIssue of them; an unknown version changes nothing |
| ReleaseNotes.Generator.AddContributorTo | crates/core/src/release_notes.rs:64-68 | `add_contributor` through the reference: only the notes under the version change, to AddContributor of them; an unknown version changes nothing |
| ReleaseNotes.Generator.SetSummaryOf | crates/core/src/release_notes.rs:70-72 | `set_summary` through the reference: only the notes under the version change, to SetSummary of them; an unknown version changes nothing |
| ReleaseNotes.Generator.GetNotes | crates/core/src/release_notes.rs:176-178 | the notes stored under the version, if any |
| ReleaseNotes.Generator.GetAllNotes | crates/core/src/release_notes.rs:180-182 | every set of notes once |
| ReleaseNotes.AddChangeScenario | crates/core/src/release_notes.rs:202-229 | a feature counts as one feature and no breaking change; a breaking change is listed once |
| ReleaseNotes.MarkdownScenario | crates/core/src/release_notes.rs:232-237 | the rendering contains "# Release 1.0.0" |
| ReleaseNotes.GeneratorScenario | crates/core/src/release_notes.rs:240-244 | one set of notes is created, and a contributor added twice is listed once |
| ReleaseNotes.WorkflowScenario | crates/core/tests/phase7_release.rs:310-364 | a feature, a summary and a contributor given through the reference are stored in the notes: one feature, that summary and that one contributor |

## Left out

- `crates/core/src/events.rs`: the `EventBus` stores callbacks behind `Arc<Mutex<..>>` and runs them. With it go `Engine::event_bus` and `Engine::event_bus_mut`, since higher-order code under locks is outside this model.
- `crates/core/src/bluetooth.rs` and `crates/core/src/backends`: a platform transport whose bodies all return `Ok`, so there is nothing to state.
- `crates/core/src/models.rs`: plain data records, including `f64` coordinates, with no operations.
- `crates/core/src/error.rs`: `Error` is a datatype. The `From<std::io::Error>` conversion is left out because it is I/O.
- `Crypto::hash`, HKDF-SHA256, AES-256-GCM and BLAKE3 come from other crates. They are function parameters with no properties, so nothing is claimed about decryption inverting encryption or about tamper detection.
- Security.SecureBuffer.Drop: only the explicit overwrite is modelled, here and in the drop of `SecureKey`, since when `Drop` runs is up to the compiler.
- `f32` arithmetic is exact `real` arithmetic, so rounding, NaN and infinities are not modelled. This covers the pass, success and coverage rates, the effort hours, the clamp of `set_coverage` and `get_license_consistency`.
- ImplementationExecutor.SprintPlan.CompletionPercentage: the `f32` quotient cast `as u8` is written as integer division rounded down and capped at 255. The `f32` rounding of the quotient is not modelled.
- Counters are unbounded naturals, so an overflow of a `usize`, `u32` or `u64` counter (a panic in debug builds) is not modelled.
- Formatting and serialization are left out because they only render records: every `serialize_to_json` (serde_json), and every `generate_*report`, `generate_summary` and `generate_dmca_report` body. The exceptions are the release-notes Markdown, the ingestion report, the drift line of the protocol analysis report, the merge reasons, the conflict markers and the merged text, which are modelled.
- TestRunner.Runner.CreateSuite, CoverageAnalyzer.Analyzer.CreateReport and Verification.Verifier.CreateReport: the record handed back is a copy, not the `&mut` into the map that the source returns. Updates through it do not reach the store; every update the source's callers make has a by-id method instead.
- Text.ToLower: `to_lowercase` follows Unicode rules in the source and ASCII rules here, so a non-ASCII capital such as U+212A KELVIN SIGN (which Rust lowers to 'k') or U+0130 is left as it is. Keyword hits of the DMCA scanner (`crates/core/src/dmca_scanner.rs:44` and 78) and the fair-use checks of the trademark checker (`crates/core/src/trademark_checker.rs:70-71` and 118-126) can differ on such text.
- `HashMap` and `HashSet` iteration order is left open. The `compare_*` results, the `get_all_*` lists, the loop of `calculate_priority`, the reference `create_release` returns and ties in `get_latest_release` are stated per key or by a choice the model does not fix.
- `ProtocolAnalyzer::new`, `ProtocolComparator::new` and `MergePlanner::new` fill tables once that are only read afterwards, so those tables are constants. `MergePlanner`'s `decision_rules` table is never read and is left out.
- ProtocolAnalyzer.UuidTableSize: of the table sizes that `test_analyzer_creation` and `test_comparator_creation` check, only the four UUIDs are proved. The proofs that the two 15-entry tables have 15 entries were too expensive for the verifier.
- Plain field getters are read directly from the fields: `Device::id/name/model/state/capabilities`, `get_base_*`, `get_all_device_models`, `get_diff` and `get_diff_mut`.
- Ingestion.DataIngestionEngine.GenerateIngestionReport: requires the first commit's SHA to have at least 8 bytes. On a shorter SHA the source's `&sha[..8]` panics.
- ReleaseManager.ParseVersion: follows the code, not SemVer 2.0.0. Every '-' splits, so "1.0.0-rc-1" has build metadata "1", and '+' does not start build metadata.
- The integration tests under `crates/core/tests` are modelled only where they exercise the core, as in `Engines.EngineScenario`. The hardware tests are left out because they are gated on the environment and assert nothing.

## Findings

| source | as written | input that shows it | evidently intended | confidence | as-written member | corrected member |
|---|---|---|---|---|---|---|
| crates/core/src/protocol.rs:75-80 | the guard `data.len() < 3 + len` admits a frame one byte short of its CRC, and `data[3 + len]` then indexes past the end | `[0x01, 0x00, 0x00]`: a known opcode, length 0 and one CRC byte | `data.len() < 4 + len` gives `InvalidLength` | high, not executed | Protocol.ParseAsWritten, Protocol.ParseAsWrittenPanicsOnShortFrame | Protocol.Parse, Protocol.RoundTrip |
| crates/core/src/protocol_analyzer.rs:187 | the report passes only the known parts to `detect_drift`, so its "Protocol Drift" line is always false | opcodes `[0x01, 0xFF]`: `detect_drift` says drift, the report says none | pass the incoming opcodes and UUIDs, or test the unknown parts for emptiness | high, not executed | ProtocolAnalyzer.ReportDriftAsWritten, ProtocolAnalyzer.ReportMissesDrift | ProtocolAnalyzer.ReportDrift |
| crates/core/src/three_way_diff.rs:65 | the row (base ≠ upstream, base = local, upstream ≠ local) gives `OnlyLocalModified`, so `generate_merge_result` returns the local text and drops the upstream change | base "base", upstream "upstream", local "base"; `test_only_upstream_modified` expects `OnlyUpstreamModified` | `OnlyUpstreamModified` | high, not executed | ThreeWayDiff.DetermineMergeStatusAsWritten, ThreeWayDiff.UpstreamChangeMislabelled, ThreeWayDiff.AsWrittenLosesUpstreamChange | ThreeWayDiff.DetermineMergeStatus, ThreeWayDiff.MergeKeepsChanges |
| crates/core/src/implementation_executor.rs:71-75 | `add_task` counts a task in the total but not in the completed or blocked counter when it arrives Completed or Blocked | four tasks, two of them Completed: `test_completion_percentage` expects 50 and the code gives 0 | count an arriving Completed or Blocked task, so that the counters stay those of the list of tasks | high, not executed | ImplementationExecutor.SprintPlan.AddTaskAsWritten, ImplementationExecutor.CompletionScenario | ImplementationExecutor.SprintPlan.AddTask |
