# Synchronous Kafka producer: a Dafny model

This project models the synchronous Kafka producer wrapper of the ligato
cn-infra messaging library (`SyncProducer` in
`messaging/kafka/client/syncproducer.go`). That wrapper sits on top of the
sarama client library. It chooses the acknowledgement mode when it is built,
assembles the record for each send, derives a key from the value's MD5
digest when the caller gives none, and closes once, coordinating with an
external `sync.WaitGroup` and a close channel.

Modules:

- `Types` (types.dfy): Go's `byte`, `int16`, `int32` and `int64` as newtypes. It also holds `Option`, `Result` and `Error`, where an error is identified by its message text.
- `Acks` (acks.dfy): the configuration's acknowledgement modes, their mapping to sarama's `RequiredAcks` values (0, 1 and -1), the inverse mapping, and the defaulting of an unset mode.
- `Hex` (hex.dfy): Go's `%x` rendering of a byte array, a decoder for it, and the conversion of ASCII text to bytes.
- `Messages` (messages.dfy): `SendMsg` and `SendMsgByte` as functions. The producer's `Partition` field, the sarama `SendMessage` call and the MD5 digest are parameters.
- `Producer` (producer.dfy): the configuration, the wait-group, the close channel and the sarama handles as classes. It also holds `setProducerRequiredAcks`, `NewSyncProducer`, and the `SyncProducer` class with `Close`, `IsClosed`, `WaitForClose` and `GetCloseChannel`.

Modelling choices:

- Calls into sarama are parameters:
  - What `NewClient` and `NewSyncProducerFromClient` return is a `Result` holding a handle object.
  - What `Producer.Close` and `Client.Close` return is an `Option<Error>`.
  - `Producer.SendMessage` is a function from the outgoing message to its reply.
  - Each handle object counts how often it was closed. This makes the close order and the client left open by a failed construction visible.
- `ValidateSyncProducerConfig` lives in a file outside this model. Its result is a parameter.
- MD5 is a parameter `md5: seq<byte> -> Digest`, with a `Digest` being exactly 16 bytes. Only its `%x` rendering is modelled.
- A `sarama.Encoder` is `Option<seq<byte>>`. `None` is the nil interface.
  - `sarama.ByteEncoder(msg)` is a non-nil interface value even when `msg` is a nil slice.
  - So the nil-value rejection in `SendMsg` never fires for `SendMsgByte`. `Messages.SendMsgByte` proves that it always reaches the broker.
- A nil slice and an empty slice are both `[]`. The key test at line 141 treats them alike.
- The close channel is a `Latch` object. `SyncProducer.Valid()` ties the `closed` flag to it. The mutex-guarded section of `Close` is one atomic method. Its deferred epilogue runs after the body, as in the source.

Where the code departs from the intended design, the model follows the code:

- If `NewSyncProducerFromClient` fails, `NewSyncProducer` returns the error without closing the client it has already opened. `Producer.NewSyncProducer` states `unchanged(newClient.value)` on that path.
- The outgoing message carries the manual partition only when `Partition > -1`. Otherwise its partition field keeps Go's zero value, 0.
- The partition reported back comes from sarama. It equals the override only when the broker honours the message's partition, as sarama's manual partitioner does. `Messages.OverrideReported` states exactly that. The code does not guarantee it for other partitioners.
- `NewSyncProducer` writes the defaulted acknowledgement mode back into the caller's configuration before it can fail. It also sets the partitioner and `Return.Successes` before it connects. The model's contract lists these writes.

## Model

| member | source | states |
|---|---|---|
| Acks.ToSarama | vendor/github.com/ligato/cn-infra/messaging/kafka/client/syncproducer.go:185-199 | Exactly NoResponse, WaitForLocal and WaitForAll are accepted, and each maps to the sarama value that maps back to it. AcksUnset and unknown codes are refused. |
| Acks.FromSarama | vendor/github.com/ligato/cn-infra/messaging/kafka/client/syncproducer.go:185-199 | Inverse of the mapping: only 0, 1 and -1 name a mode, and only one of the three recognised modes. |
| Acks.FromSaramaRoundTrip | vendor/github.com/ligato/cn-infra/messaging/kafka/client/syncproducer.go:185-199 | Every sarama value that names a mode is what that mode maps to. |
| Acks.Defaulted | vendor/github.com/ligato/cn-infra/messaging/kafka/client/syncproducer.go:52-54 | AcksUnset becomes WaitForAll, and any other mode is kept. |
| Acks.DefaultedAcksAccepted | vendor/github.com/ligato/cn-infra/messaging/kafka/client/syncproducer.go:52-58 | After defaulting, the mapping refuses exactly the unknown codes. AcksUnset ends as sarama's WaitForAll. |
| Producer.SetProducerRequiredAcks | vendor/github.com/ligato/cn-infra/messaging/kafka/client/syncproducer.go:185-199 | Succeeds iff the mode is recognised. On success the sarama field holds the mapped value. Otherwise the error is "Invalid RequiredAcks type" and the field is unchanged. |
| Producer.NewSyncProducer | vendor/github.com/ligato/cn-infra/messaging/kafka/client/syncproducer.go:41-95 | Validation failure returns that error and leaves the config untouched. Unset acks become WaitForAll. An unknown mode fails with "invalid RequiredAcks field in config". Otherwise the sarama acks, partitioner and Return.Successes are set before connecting. Client and producer errors are propagated, and a failed producer leaves the client unclosed. Success returns a fresh open producer holding the config's partition. The wait-group gains exactly 1, and only on success. |
| Producer.SyncProducer.constructor | vendor/github.com/ligato/cn-infra/messaging/kafka/client/syncproducer.go:78-86 | A new producer is open, with a fresh unreleased close channel and the given handles, partition and wait-group. |
| Producer.SyncProducer.Close | vendor/github.com/ligato/cn-infra/messaging/kafka/client/syncproducer.go:98-134 | First call: the sarama producer is closed once. The client is closed only if that succeeded. The first error is returned. The producer always ends closed, with the channel released and the wait-group decremented once. A later call returns nil and changes nothing. |
| Producer.SyncProducer.IsClosed | vendor/github.com/ligato/cn-infra/messaging/kafka/client/syncproducer.go:202-207 | Returns the closed flag. The flag is true exactly when WaitForClose would return. |
| Producer.SyncProducer.WaitForCloseReturns | vendor/github.com/ligato/cn-infra/messaging/kafka/client/syncproducer.go:210-212 | Waiting on the close channel returns, rather than blocks, exactly when the producer is closed. |
| Producer.SyncProducer.GetCloseChannel | vendor/github.com/ligato/cn-infra/messaging/kafka/client/syncproducer.go:215-217 | The channel returned is the producer's one close channel. It is released exactly when the producer is closed. |
| Producer.ConstructThenCloseTwice | vendor/github.com/ligato/cn-infra/messaging/kafka/client/syncproducer.go:88-118 | Construct over a wait-group, then close twice. The second close returns nil, the wait-group ends at its initial count, and the sarama producer is closed exactly once, whatever the close calls return. |
| Messages.SendMsg | vendor/github.com/ligato/cn-infra/messaging/kafka/client/syncproducer.go:149-182 | A nil value returns "nil message can not be sent" and no record, and the broker is not called. Otherwise the broker gets topic, key and value unchanged. The message carries the partition iff it is above -1, and 0 otherwise. The returned record echoes topic, key and value with the broker's partition and offset, even when the broker's error is returned. |
| Messages.SendMsgByte | vendor/github.com/ligato/cn-infra/messaging/kafka/client/syncproducer.go:137-146 | The broker is always called and the value is passed through. An empty key is replaced by the derived key of md5(value), and a non-empty key is kept. The key sent is never empty. The message carries the partition iff it is above -1, and 0 otherwise. The broker's error is returned. The returned record carries the key sent, the value and the broker's partition and offset. The whole result is SendMsg's for that key and value. |
| Messages.DerivedKey | vendor/github.com/ligato/cn-infra/messaging/kafka/client/syncproducer.go:141-143 | The key derived from a digest is 32 bytes, each the ASCII code of a lower-case hexadecimal digit. |
| Messages.DerivedKeyAt | vendor/github.com/ligato/cn-infra/messaging/kafka/client/syncproducer.go:141-143 | Bytes 2j and 2j+1 of the derived key are the ASCII codes of the lower-case hex digits of the high and low nibbles of digest byte j. |
| Messages.DerivedKeyInjective | vendor/github.com/ligato/cn-infra/messaging/kafka/client/syncproducer.go:141-143 | Different digests give different derived keys. |
| Messages.DerivedKeyStable | vendor/github.com/ligato/cn-infra/messaging/kafka/client/syncproducer.go:141-145 | Two keyless sends of different values get the same key iff the values have the same MD5 digest. |
| Messages.OverrideReported | vendor/github.com/ligato/cn-infra/messaging/kafka/client/syncproducer.go:161-173 | When the broker honours the message's partition, a non-negative override is the partition in the returned record. |
| Hex.HexString | vendor/github.com/ligato/cn-infra/messaging/kafka/client/syncproducer.go:142 | `%x` yields two characters per byte, each a lower-case hexadecimal digit. |
| Hex.HexStringAt | vendor/github.com/ligato/cn-infra/messaging/kafka/client/syncproducer.go:142 | Byte k is rendered at positions 2k (high nibble) and 2k+1 (low nibble). |
| Hex.HexDecode | vendor/github.com/ligato/cn-infra/messaging/kafka/client/syncproducer.go:142 | The decoder of the rendering. Any text it accepts is twice as long as the bytes it yields. |
| Hex.HexDecodeOfHexString | vendor/github.com/ligato/cn-infra/messaging/kafka/client/syncproducer.go:142 | Decoding the rendering gives back the bytes. |
| Hex.HexStringOfHexDecode | vendor/github.com/ligato/cn-infra/messaging/kafka/client/syncproducer.go:142 | Every accepted text is the rendering of what it decodes to. So the decoder accepts exactly the canonical lower-case renderings. |
| Hex.HexStringInjective | vendor/github.com/ligato/cn-infra/messaging/kafka/client/syncproducer.go:142 | Distinct byte strings render differently. |
| Hex.DigitValue | vendor/github.com/ligato/cn-infra/messaging/kafka/client/syncproducer.go:142 | A character has a value iff it is a lower-case hexadecimal digit. The value is below 16 and renders back to that character. |
| Hex.AsciiBytes | vendor/github.com/ligato/cn-infra/messaging/kafka/client/syncproducer.go:143 | Converting ASCII text to bytes keeps its length and each character's code. |
| Hex.AsciiBytesInjective | vendor/github.com/ligato/cn-infra/messaging/kafka/client/syncproducer.go:143 | Different ASCII texts convert to different bytes. |

## Left out

- vendor/github.com/ligato/cn-infra/examples/flags/main.go: a demo that registers command-line flags and logs them from goroutines. It holds no logic to state.
- Logging and the debug log level (syncproducer.go lines 42-46, 64, 122, 125, 129, 139, 152, 176, 180): side effects with no behavioural contract.
- The mutex and concurrency. Concurrent senders and blocking are not modelled. `Close` and `IsClosed` are atomic methods, and blocking in `WaitForClose` is `WaitForCloseReturns`, the condition under which it returns.
- The sarama library itself is outside the model: its client, its producer, the network and its partitioners. Their results are parameters, as described above.
- `ValidateSyncProducerConfig` and the rest of `Config` (its file is not part of this model). Validation's result is a parameter, and the config holds only the fields the producer reads or writes.
- The MD5 computation. It is a foreign cryptographic function, and the digest is a parameter.
- The `Metadata` field of the returned record. `SendMsg` never sets it on the outgoing message, so it is always nil.
- Producer.SyncProducer.Close: does not model the panic of `sync.WaitGroup` when its counter goes negative. The counter is an unbounded integer.
