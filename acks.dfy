/**
 * The acknowledgement modes of the producer configuration and their
 * translation to the sarama client's own RequiredAcks values.
 */
module Acks {
  import opened Types

  /**
   * The configuration's abstract acknowledgement mode. Go gives it an integer
   * type, so values outside the four named constants can reach the producer;
   * `UnknownAcks` stands for all of them.
   */
  datatype RequiredAcks = AcksUnset | NoResponse | WaitForLocal | WaitForAll | UnknownAcks(code: int)

  /** sarama's RequiredAcks constants (the Kafka protocol's `acks` values). */
  const SaramaNoResponse: int16 := 0
  const SaramaWaitForLocal: int16 := 1
  const SaramaWaitForAll: int16 := -1

  /** The configuration mode a sarama value stands for, if any. */
  function FromSarama(v: int16): (r: Option<RequiredAcks>)
    ensures r.Some? <==> v in {SaramaNoResponse, SaramaWaitForLocal, SaramaWaitForAll}
    ensures r.Some? ==> r.value in {NoResponse, WaitForLocal, WaitForAll}
  {
    if v == SaramaNoResponse then Some(NoResponse)
    else if v == SaramaWaitForLocal then Some(WaitForLocal)
    else if v == SaramaWaitForAll then Some(WaitForAll)
    else None
  }

  /**
   * The switch of `setProducerRequiredAcks`: the three recognised modes map to
   * their sarama counterparts, anything else (AcksUnset included) is refused.
   */
  function ToSarama(a: RequiredAcks): (r: Option<int16>)
    ensures r.Some? <==> a in {NoResponse, WaitForLocal, WaitForAll}
    ensures r.Some? ==> FromSarama(r.value) == Some(a)
  {
    match a
    case NoResponse => Some(SaramaNoResponse)
    case WaitForLocal => Some(SaramaWaitForLocal)
    case WaitForAll => Some(SaramaWaitForAll)
    case _ => None
  }

  /** The defaulting step of `NewSyncProducer`: an unset mode becomes WaitForAll. */
  function Defaulted(a: RequiredAcks): (r: RequiredAcks)
    ensures a == AcksUnset ==> r == WaitForAll
    ensures a != AcksUnset ==> r == a
  {
    if a == AcksUnset then WaitForAll else a
  }

  /** The sarama side round-trips through the configuration side. */
  lemma FromSaramaRoundTrip(v: int16)
    ensures FromSarama(v).Some? ==> ToSarama(FromSarama(v).value) == Some(v)
  {
  }

  /**
   * After defaulting, only an unrecognised code is refused, and an unset mode
   * ends up as sarama's WaitForAll.
   */
  lemma DefaultedAcksAccepted(a: RequiredAcks)
    ensures ToSarama(Defaulted(a)).None? <==> a.UnknownAcks?
    ensures a == AcksUnset ==> ToSarama(Defaulted(a)) == Some(SaramaWaitForAll)
  {
  }
}
