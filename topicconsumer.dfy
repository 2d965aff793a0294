/** pkg/kafkacomm/pdp_topic_consumer.go. The confluent consumer is an
    object whose answers are fixed when it is made: the reads it will
    deliver, in order, and the replies of Unsubscribe and Close. */
module TopicConsumer {
  import opened Wrappers
  import opened Config
  import opened KafkaConfig
  import opened WireFormat

  /** The outcome of one ReadMessage(-1): a message (whose value may be
      nil) or an error. */
  datatype ReadResult = Read(value: Option<Payload>) | ReadError(error: Error)

  /** How the consumer library behaves for one run. */
  datatype ConsumerBehaviour = ConsumerBehaviour(
    create: Outcome,
    subscribe: Outcome,
    deliveries: seq<ReadResult>,
    unsubscribeReply: Outcome,
    closeReply: Outcome)

  /** The library consumer behind KafkaConsumerInterface. */
  class Consumer {
    const config: ConfigMap
    var subscriptions: seq<string>
    var pending: seq<ReadResult>
    const unsubscribeReply: Outcome
    const closeReply: Outcome
    var unsubscribeCount: nat
    var closeCount: nat

    constructor (config: ConfigMap, b: ConsumerBehaviour)
      ensures this.config == config && subscriptions == [] && pending == b.deliveries
      ensures unsubscribeReply == b.unsubscribeReply && closeReply == b.closeReply
      ensures unsubscribeCount == 0 && closeCount == 0
    {
      this.config := config;
      subscriptions := [];
      pending := b.deliveries;
      unsubscribeReply := b.unsubscribeReply;
      closeReply := b.closeReply;
      unsubscribeCount := 0;
      closeCount := 0;
    }

    method SubscribeTopics(topics: seq<string>, reply: Outcome) returns (err: Outcome)
      modifies this`subscriptions
      ensures reply.Pass? ==> subscriptions == topics
      ensures reply.Fail? ==> subscriptions == old(subscriptions)
      ensures err == reply
    {
      if reply.Pass? {
        subscriptions := topics;
      }
      err := reply;
    }

    /** ReadMessage(-1) waits without limit; a read beyond the delivered
        ones never returns, so the model never makes one. */
    method ReadMessage() returns (r: ReadResult)
      requires |pending| > 0
      modifies this`pending
      ensures r == old(pending[0]) && pending == old(pending[1..])
    {
      r := pending[0];
      pending := pending[1..];
    }

    method Unsubscribe() returns (err: Outcome)
      modifies this`unsubscribeCount
      ensures unsubscribeCount == old(unsubscribeCount) + 1 && err == unsubscribeReply
    {
      unsubscribeCount := unsubscribeCount + 1;
      err := unsubscribeReply;
    }

    method Close() returns (err: Outcome)
      modifies this`closeCount
      ensures closeCount == old(closeCount) + 1 && err == closeReply
    {
      closeCount := closeCount + 1;
      err := closeReply;
    }
  }

  /** The wrapper KafkaConsumer. */
  class KafkaConsumer {
    const consumer: Consumer

    constructor (consumer: Consumer)
      ensures this.consumer == consumer
    {
      this.consumer := consumer;
    }

    /** Close: the library's error is dropped. */
    method Close()
      modifies consumer`closeCount
      ensures consumer.closeCount == old(consumer.closeCount) + 1
    {
      var _ := consumer.Close();
    }

    /** Unsubscribe: the library's error is returned unchanged. */
    method Unsubscribe() returns (err: Outcome)
      modifies consumer`unsubscribeCount
      ensures consumer.unsubscribeCount == old(consumer.unsubscribeCount) + 1
      ensures err == consumer.unsubscribeReply
    {
      err := consumer.Unsubscribe();
    }
  }

  /** The consumer's configuration: broker, group, offset reset, and the
      SASL keys when switched on. */
  function ConsumerConfig(c: Config): (m: ConfigMap)
    ensures "bootstrap.servers" in m && m["bootstrap.servers"] == c.bootstrapServer
    ensures "group.id" in m && m["group.id"] == c.groupId
    ensures "auto.offset.reset" in m && m["auto.offset.reset"] == "earliest"
    ensures "sasl.mechanism" in m <==> UseSasl(c)
    ensures UseSasl(c) ==> forall k :: k in SaslKeys(c) ==> k in m && m[k] == SaslKeys(c)[k]
    ensures !UseSasl(c) ==> m.Keys == {"bootstrap.servers", "group.id", "auto.offset.reset"}
  {
    var base := map["bootstrap.servers" := c.bootstrapServer, "group.id" := c.groupId,
                    "auto.offset.reset" := "earliest"];
    SaslKeysIffSwitch(base, c);
    WithSasl(base, c)
  }

  /** NewKafkaConsumer: creation, then subscription to the configured
      topic; either failure gives (nil, err). */
  method NewKafkaConsumer(c: Config, b: ConsumerBehaviour) returns (kc: KafkaConsumer?, err: Outcome)
    ensures b.create.Fail? ==> kc == null && err == b.create
    ensures b.create.Pass? && b.subscribe.Fail? ==> kc == null && err == b.subscribe
    ensures b.create.Pass? && b.subscribe.Pass? ==>
      err == Pass && kc != null && fresh(kc) && fresh(kc.consumer) &&
      kc.consumer.config == ConsumerConfig(c) && kc.consumer.subscriptions == [c.topic] &&
      kc.consumer.pending == b.deliveries && kc.consumer.unsubscribeReply == b.unsubscribeReply &&
      kc.consumer.closeReply == b.closeReply &&
      kc.consumer.unsubscribeCount == 0 && kc.consumer.closeCount == 0
  {
    var configMap := ConsumerConfig(c);
    if b.create.Fail? {
      return null, b.create;
    }
    var consumer := new Consumer(configMap, b);
    err := consumer.SubscribeTopics([c.topic], b.subscribe);
    if err.Fail? {
      return null, err;
    }
    kc := new KafkaConsumer(consumer);
  }

  /** The pair ReadKafkaMessages returns for one read. */
  function ReadOutcome(r: ReadResult): (o: (Option<Payload>, Outcome))
    ensures r.ReadError? ==> o == (None, Fail(r.error))
    ensures r.Read? ==> o == (r.value, Pass)
  {
    match r
    case Read(value) => (value, Pass)
    case ReadError(e) => (None, Fail(e))
  }

  /** ReadKafkaMessages: the next delivered read, as (value, nil) or
      (nil, err). */
  method ReadKafkaMessages(kc: KafkaConsumer) returns (message: Option<Payload>, err: Outcome)
    requires |kc.consumer.pending| > 0
    modifies kc.consumer`pending
    ensures kc.consumer.pending == old(kc.consumer.pending[1..])
    ensures (message, err) == ReadOutcome(old(kc.consumer.pending[0]))
  {
    var msg := kc.consumer.ReadMessage();
    match msg
    case ReadError(e) =>
      return None, Fail(e);
    case Read(value) =>
      return value, Pass;
  }
}
