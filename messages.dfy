/**
 * Record assembly of `SyncProducer.SendMsg` and key derivation of
 * `SyncProducer.SendMsgByte`. The sarama call `Producer.SendMessage` is the
 * parameter `broker`, the MD5 digest the parameter `md5`; the producer's
 * `Partition` field is passed as `partition`.
 */
module Messages {
  import opened Types
  import Hex

  /**
   * A `sarama.Encoder` given by the bytes it encodes; None is the nil
   * interface value.
   */
  type Encoder = Option<seq<byte>>

  /** An MD5 digest: 16 bytes. */
  type Digest = d: seq<byte> | |d| == 16 witness seq(16, _ => 0)

  /** The `sarama.ProducerMessage` handed to the broker. */
  datatype SaramaMessage = SaramaMessage(topic: string, key: Encoder, value: Encoder, partition: int32)

  /** What `Producer.SendMessage` returns: partition, offset and error. */
  datatype SendReply = SendReply(partition: int32, offset: int64, err: Option<Error>)

  /** The `ProducerMessage` returned to the caller. */
  datatype ProducerMessage = ProducerMessage(topic: string, key: Encoder, value: Encoder, partition: int32, offset: int64)

  /**
   * One send: the message passed to the broker (None when the broker was not
   * called), the record returned (None for Go's nil) and the error returned.
   */
  datatype SendResult = SendResult(sent: Option<SaramaMessage>, record: Option<ProducerMessage>, err: Option<Error>)

  const NilMessageError := Error("nil message can not be sent")

  /** `SendMsg`: reject a nil value, apply the manual partition, send, echo. */
  function SendMsg(partition: int32, topic: string, key: Encoder, msg: Encoder,
                   broker: SaramaMessage -> SendReply): (r: SendResult)
    // a nil value is refused before the broker is reached
    ensures msg.None? <==> r.sent.None?
    ensures msg.None? ==> r.record.None? && r.err == Some(NilMessageError)
    // otherwise the broker receives topic, key and value unchanged
    ensures msg.Some? ==> (r.sent.Some? && r.sent.value.topic == topic
                           && r.sent.value.key == key && r.sent.value.value == msg)
    // the partition override is applied exactly when it is above -1
    ensures r.sent.Some? ==> (r.sent.value.partition == partition <==> partition > -1)
    ensures r.sent.Some? && partition <= -1 ==> r.sent.value.partition == 0
    // the record echoes the message and the broker's reply, even on failure
    ensures r.sent.Some? ==> (r.record.Some? && r.err == broker(r.sent.value).err
                              && r.record.value == ProducerMessage(topic, key, msg,
                                   broker(r.sent.value).partition, broker(r.sent.value).offset))
  {
    if msg.None? then SendResult(None, None, Some(NilMessageError))
    else
      var message := SaramaMessage(topic, key, msg, if partition > -1 then partition else 0);
      var reply := broker(message);
      SendResult(Some(message), Some(ProducerMessage(topic, key, msg, reply.partition, reply.offset)), reply.err)
  }

  /** The key derived from a digest: the ASCII bytes of its `%x` rendering. */
  function DerivedKey(d: Digest): (k: seq<byte>)
    ensures |k| == 32
    ensures forall i :: 0 <= i < 32 ==> Hex.IsLowerHexDigit(k[i] as int as char)
  {
    var s := Hex.HexString(d);
    Hex.HexDigitsAreAscii(s);
    Hex.AsciiBytes(s)
  }

  /**
   * Which digits the derived key holds: bytes 2j and 2j+1 are the high and
   * low nibble digits of byte j of the digest.
   */
  lemma DerivedKeyAt(d: Digest, j: nat)
    requires j < 16
    ensures DerivedKey(d)[2 * j] as int == Hex.Digit(d[j] as int / 16) as int
    ensures DerivedKey(d)[2 * j + 1] as int == Hex.Digit(d[j] as int % 16) as int
  {
    Hex.HexStringAt(d, j);
  }

  /** The derived key determines the digest it came from. */
  lemma DerivedKeyInjective(d1: Digest, d2: Digest)
    ensures DerivedKey(d1) == DerivedKey(d2) ==> d1 == d2
  {
    var s1, s2 := Hex.HexString(d1), Hex.HexString(d2);
    Hex.HexDigitsAreAscii(s1);
    Hex.HexDigitsAreAscii(s2);
    Hex.AsciiBytesInjective(s1, s2);
    Hex.HexStringInjective(d1, d2);
  }

  /**
   * `SendMsgByte`: an empty key (nil or of length 0) is replaced by the
   * derived key of the value's MD5 digest. Key and value are wrapped in
   * `sarama.ByteEncoder`, which is never the nil interface, even for a nil
   * slice, so the nil-value rejection of `SendMsg` cannot fire.
   */
  function SendMsgByte(partition: int32, topic: string, key: seq<byte>, msg: seq<byte>,
                       md5: seq<byte> -> Digest, broker: SaramaMessage -> SendReply): (r: SendResult)
    ensures r.sent.Some? && r.record.Some?
    ensures r.sent.value.topic == topic && r.sent.value.value == Some(msg)
    ensures |key| == 0 ==> r.sent.value.key == Some(DerivedKey(md5(msg)))
    ensures |key| > 0 ==> r.sent.value.key == Some(key)
    ensures r.sent.value.key.Some? && |r.sent.value.key.value| > 0
    ensures r.sent.value.partition == partition <==> partition > -1
    ensures partition <= -1 ==> r.sent.value.partition == 0
    ensures r.err == broker(r.sent.value).err
    // the returned record carries the key sent, the value and the broker's reply
    ensures r.record.value == ProducerMessage(topic, r.sent.value.key, Some(msg),
                                              broker(r.sent.value).partition, broker(r.sent.value).offset)
    ensures r == SendMsg(partition, topic, r.sent.value.key, Some(msg), broker)
  {
    if |key| == 0 then SendMsg(partition, topic, Some(DerivedKey(md5(msg))), Some(msg), broker)
    else SendMsg(partition, topic, Some(key), Some(msg), broker)
  }

  /**
   * With a broker that honours the message's partition (sarama's manual
   * partitioner), a non-negative override is the partition reported back.
   */
  lemma OverrideReported(partition: int32, topic: string, key: Encoder, msg: seq<byte>,
                         broker: SaramaMessage -> SendReply)
    requires partition > -1
    requires forall m :: broker(m).partition == m.partition
    ensures SendMsg(partition, topic, key, Some(msg), broker).record.value.partition == partition
  {
  }

  /** Two values with the same digest get the same derived key. */
  lemma DerivedKeyStable(partition: int32, topic: string, v1: seq<byte>, v2: seq<byte>,
                         md5: seq<byte> -> Digest, broker: SaramaMessage -> SendReply)
    ensures SendMsgByte(partition, topic, [], v1, md5, broker).sent.value.key
         == SendMsgByte(partition, topic, [], v2, md5, broker).sent.value.key
        <==> md5(v1) == md5(v2)
  {
    DerivedKeyInjective(md5(v1), md5(v2));
  }
}
