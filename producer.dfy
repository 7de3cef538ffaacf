/**
 * The synchronous producer's construction and lifecycle: acknowledgement
 * selection in `NewSyncProducer`, the one-shot `Close` with its deferred
 * epilogue, `IsClosed` and the close channel. The sarama client and producer
 * handles are objects that only count how often they were closed; what the
 * sarama constructors and `Close` calls return is passed in.
 */
module Producer {
  import opened Types
  import opened Acks

  /** sarama's partitioner constructors, identified by name. */
  datatype Partitioner = HashPartitioner | RandomPartitioner | ManualPartitioner
                       | RoundRobinPartitioner | CustomPartitioner(name: string)

  /**
   * The producer configuration, together with the three fields of its embedded
   * sarama configuration (`ProducerConfig().Producer.*`) that the producer sets.
   */
  class Config {
    var brokers: seq<string>
    var requiredAcks: RequiredAcks
    var partitioner: Partitioner
    var partition: int32
    var producerRequiredAcks: int16
    var producerPartitioner: Partitioner
    var producerReturnSuccesses: bool
  }

  /** A `sync.WaitGroup`, reduced to its counter. */
  class WaitGroup {
    var count: int

    constructor (count: int)
      ensures this.count == count
    {
      this.count := count;
    }

    method Add(delta: int)
      modifies this
      ensures count == old(count) + delta
    {
      count := count + delta;
    }

    method Done()
      modifies this
      ensures count == old(count) - 1
    {
      Add(-1);
    }
  }

  /** The close channel: a latch that is released once and never reset. */
  class Latch {
    var released: bool

    constructor ()
      ensures !released
    {
      released := false;
    }

    /** `close(ch)`; Go panics on a second close, hence the precondition. */
    method Release()
      requires !released
      modifies this
      ensures released
    {
      released := true;
    }
  }

  /** A `sarama.Client` handle. */
  class SaramaClient {
    var closeCalls: nat

    constructor ()
      ensures closeCalls == 0
    {
      closeCalls := 0;
    }

    method Close()
      modifies this
      ensures closeCalls == old(closeCalls) + 1
    {
      closeCalls := closeCalls + 1;
    }
  }

  /** A `sarama.SyncProducer` handle. */
  class SaramaProducer {
    var closeCalls: nat

    constructor ()
      ensures closeCalls == 0
    {
      closeCalls := 0;
    }

    method Close()
      modifies this
      ensures closeCalls == old(closeCalls) + 1
    {
      closeCalls := closeCalls + 1;
    }
  }

  const InvalidAcksTypeError := Error("Invalid RequiredAcks type")
  const InvalidAcksFieldError := Error("invalid RequiredAcks field in config")

  /**
   * `setProducerRequiredAcks`: copy the recognised mode into the sarama
   * configuration; refuse anything else and leave the configuration as it was.
   */
  method SetProducerRequiredAcks(cfg: Config) returns (err: Option<Error>)
    modifies cfg`producerRequiredAcks
    ensures err.None? <==> ToSarama(cfg.requiredAcks).Some?
    ensures err.Some? ==> err == Some(InvalidAcksTypeError)
    ensures cfg.producerRequiredAcks
         == if err.None? then ToSarama(cfg.requiredAcks).value else old(cfg.producerRequiredAcks)
  {
    match cfg.requiredAcks
    case NoResponse =>
      cfg.producerRequiredAcks := SaramaNoResponse;
      err := None;
    case WaitForLocal =>
      cfg.producerRequiredAcks := SaramaWaitForLocal;
      err := None;
    case WaitForAll =>
      cfg.producerRequiredAcks := SaramaWaitForAll;
      err := None;
    case _ =>
      err := Some(InvalidAcksTypeError);
  }

  class SyncProducer {
    const config: Config
    const client: SaramaClient
    const producer: SaramaProducer
    const partition: int32
    const xwg: WaitGroup?
    const closeChannel: Latch
    var closed: bool

    /** The close channel is closed exactly when the producer is marked closed. */
    ghost predicate Valid()
      reads this, closeChannel
    {
      closed == closeChannel.released
    }

    constructor (config: Config, client: SaramaClient, producer: SaramaProducer, partition: int32, xwg: WaitGroup?)
      ensures Valid() && !closed && fresh(closeChannel)
      ensures this.config == config && this.client == client && this.producer == producer
      ensures this.partition == partition && this.xwg == xwg
    {
      this.config := config;
      this.client := client;
      this.producer := producer;
      this.partition := partition;
      this.xwg := xwg;
      closeChannel := new Latch();
      closed := false;
    }

    /** `IsClosed`: a snapshot of the closed flag, which agrees with the close channel. */
    method IsClosed() returns (b: bool)
      requires Valid()
      ensures b == closed
      ensures b == WaitForCloseReturns()
    {
      b := closed;
    }

    /** `WaitForClose` returns, rather than blocks, exactly when the close channel is closed. */
    predicate WaitForCloseReturns(): (r: bool)
      reads this, closeChannel
      requires Valid()
      ensures r == closed
    {
      closeChannel.released
    }

    /** `GetCloseChannel`: the one latch for the producer's whole life. */
    function GetCloseChannel(): (ch: Latch)
      reads this, closeChannel
      requires Valid()
      ensures ch == closeChannel
      ensures ch.released == closed
    {
      closeChannel
    }

    /**
     * `Close`. `producerCloseErr` and `clientCloseErr` are what `Producer.Close`
     * and `Client.Close` return. The first call closes the producer, then the
     * client only if that succeeded, and returns the first error; whatever
     * happened, the deferred epilogue marks the producer closed, closes the
     * channel and calls `Done` on the wait-group. Later calls change nothing.
     */
    method Close(producerCloseErr: Option<Error>, clientCloseErr: Option<Error>) returns (err: Option<Error>)
      requires Valid()
      modifies this, closeChannel, producer, client, xwg
      ensures Valid() && closed && closeChannel.released
      ensures old(closed) ==> err.None?
      ensures old(closed) ==> unchanged(producer, client)
      ensures old(closed) && xwg != null ==> unchanged(xwg)
      ensures !old(closed) ==> producer.closeCalls == old(producer.closeCalls) + 1
      ensures !old(closed) ==> (client.closeCalls
                                == old(client.closeCalls) + (if producerCloseErr.None? then 1 else 0))
      ensures !old(closed) ==> err == (if producerCloseErr.Some? then producerCloseErr else clientCloseErr)
      ensures !old(closed) && xwg != null ==> xwg.count == old(xwg.count) - 1
    {
      // body, run with the mutex held
      if closed {
        err := None;
      } else {
        producer.Close();
        if producerCloseErr.Some? {
          err := producerCloseErr;
        } else {
          client.Close();
          err := clientCloseErr;
        }
      }
      // deferred epilogue
      if !closed {
        closed := true;
        closeChannel.Release();
        if xwg != null {
          xwg.Done();
        }
      }
    }
  }

  /**
   * `NewSyncProducer`. `validation` is what `ValidateSyncProducerConfig`
   * returns, `newClient` and `newProducer` what `sarama.NewClient` and
   * `sarama.NewSyncProducerFromClient` return.
   */
  method NewSyncProducer(config: Config, wg: WaitGroup?, validation: Option<Error>,
                         newClient: Result<SaramaClient>, newProducer: Result<SaramaProducer>)
    returns (sp: SyncProducer?, err: Option<Error>)
    modifies config, wg
    ensures (sp != null) <==> err.None?
    ensures config.brokers == old(config.brokers) && config.partitioner == old(config.partitioner)
    ensures config.partition == old(config.partition)
    // a configuration that fails validation is returned untouched
    ensures validation.Some? ==> err == validation && unchanged(config)
    // otherwise an unset mode is defaulted to WaitForAll, and only an unknown mode is refused
    ensures validation.None? ==> config.requiredAcks == Defaulted(old(config.requiredAcks))
    ensures validation.None? && old(config.requiredAcks).UnknownAcks? ==>
              err == Some(InvalidAcksFieldError) && config.producerRequiredAcks == old(config.producerRequiredAcks)
              && config.producerPartitioner == old(config.producerPartitioner)
              && config.producerReturnSuccesses == old(config.producerReturnSuccesses)
    // a recognised mode is copied into the sarama configuration before any connection is made
    ensures validation.None? && !old(config.requiredAcks).UnknownAcks? ==>
              Some(config.producerRequiredAcks) == ToSarama(config.requiredAcks)
              && config.producerPartitioner == config.partitioner && config.producerReturnSuccesses
    ensures validation.None? && !old(config.requiredAcks).UnknownAcks? && newClient.Err? ==>
              err == Some(newClient.error)
    // a failing producer constructor is reported, and the opened client is not closed
    ensures validation.None? && !old(config.requiredAcks).UnknownAcks? && newClient.Ok? && newProducer.Err? ==>
              err == Some(newProducer.error) && unchanged(newClient.value)
    ensures validation.None? && !old(config.requiredAcks).UnknownAcks? && newClient.Ok? && newProducer.Ok? ==>
              sp != null
    ensures sp != null ==> (newClient.Ok? && newProducer.Ok? && fresh(sp) && fresh(sp.closeChannel)
                            && sp.Valid() && !sp.closed && sp.config == config
                            && sp.client == newClient.value && sp.producer == newProducer.value
                            && sp.partition == config.partition && sp.xwg == wg)
    // the wait-group gains exactly one count, and only when a producer is returned
    ensures wg != null ==> wg.count == old(wg.count) + (if sp != null then 1 else 0)
  {
    sp := null;
    if validation.Some? {
      return null, validation;
    }

    if config.requiredAcks == AcksUnset {
      config.requiredAcks := WaitForAll;
    }
    var acksErr := SetProducerRequiredAcks(config);
    if acksErr.Some? {
      return null, Some(InvalidAcksFieldError);
    }

    config.producerPartitioner := config.partitioner;
    config.producerReturnSuccesses := true;

    if newClient.Err? {
      return null, Some(newClient.error);
    }
    if newProducer.Err? {
      return null, Some(newProducer.error);
    }

    sp := new SyncProducer(config, newClient.value, newProducer.value, config.partition, wg);
    if wg != null {
      wg.Add(1);
    }
    err := None;
  }

  /**
   * Construct a producer over a wait-group and close it twice: whatever the
   * close calls return, the wait-group ends where it started, the producer is
   * closed, the sarama producer was closed once and the client at most once.
   */
  method ConstructThenCloseTwice(config: Config, wg: WaitGroup, client: SaramaClient, producer: SaramaProducer,
                                 firstProducerErr: Option<Error>, firstClientErr: Option<Error>,
                                 secondProducerErr: Option<Error>, secondClientErr: Option<Error>)
    returns (sp: SyncProducer?, second: Option<Error>)
    requires !config.requiredAcks.UnknownAcks?
    modifies config, wg, client, producer
    ensures sp != null && sp.Valid() && sp.closed && sp.WaitForCloseReturns()
    ensures second.None?
    ensures wg.count == old(wg.count)
    ensures producer.closeCalls == old(producer.closeCalls) + 1
    ensures client.closeCalls == old(client.closeCalls) + (if firstProducerErr.None? then 1 else 0)
  {
    var err;
    sp, err := NewSyncProducer(config, wg, None, Ok(client), Ok(producer));
    var first := sp.Close(firstProducerErr, firstClientErr);
    second := sp.Close(secondProducerErr, secondClientErr);
  }
}
