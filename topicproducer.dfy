/** pkg/kafkacomm/pdp_topic_producer.go. The `instance`/`once` globals
    become a ProducerSingleton object; the outcome of kafka.NewProducer and
    the reply of the library's Produce are parameters. */
module TopicProducer {
  import opened Wrappers
  import opened Config
  import opened KafkaConfig

  const PartitionAny: int := -1

  datatype TopicPartition = TopicPartition(topic: Option<string>, partition: int)

  /** kafka.Message, passed by pointer and rewritten by Produce. */
  class Message {
    var topicPartition: TopicPartition
    const value: string

    constructor (topicPartition: TopicPartition, value: string)
      ensures this.topicPartition == topicPartition && this.value == value
    {
      this.topicPartition := topicPartition;
      this.value := value;
    }
  }

  /** One call of the library's Produce: the message as it was then and
      the event channel it was given. */
  datatype Produced = Produced(topicPartition: TopicPartition, value: string, eventChan: Option<nat>)

  /** The library producer behind KafkaProducerInterface. */
  class Producer {
    const config: ConfigMap
    const produceReply: Outcome
    var produced: seq<Produced>
    var closeCount: nat

    constructor (config: ConfigMap, produceReply: Outcome)
      ensures this.config == config && this.produceReply == produceReply
      ensures produced == [] && closeCount == 0
    {
      this.config := config;
      this.produceReply := produceReply;
      produced := [];
      closeCount := 0;
    }

    method Produce(m: Message, eventChan: Option<nat>) returns (err: Outcome)
      modifies this`produced
      ensures produced == old(produced) + [Produced(m.topicPartition, m.value, eventChan)]
      ensures err == produceReply
    {
      produced := produced + [Produced(m.topicPartition, m.value, eventChan)];
      err := produceReply;
    }

    method Close()
      modifies this`closeCount
      ensures closeCount == old(closeCount) + 1
    {
      closeCount := closeCount + 1;
    }
  }

  class KafkaProducer {
    const producer: Producer?
    const topic: string

    constructor (producer: Producer?, topic: string)
      ensures this.producer == producer && this.topic == topic
    {
      this.producer := producer;
      this.topic := topic;
    }

    /** Produce: a message without a topic is sent to this producer's topic
        on any partition; the event channel is always dropped; the library's
        error is returned unchanged. */
    method Produce(kafkaMessage: Message, eventChan: Option<nat>) returns (err: Outcome)
      requires producer != null
      modifies kafkaMessage`topicPartition, producer`produced
      ensures old(kafkaMessage.topicPartition.topic).None? ==>
        kafkaMessage.topicPartition == TopicPartition(Some(topic), PartitionAny)
      ensures old(kafkaMessage.topicPartition.topic).Some? ==>
        kafkaMessage.topicPartition == old(kafkaMessage.topicPartition)
      ensures producer.produced == old(producer.produced) + [Produced(kafkaMessage.topicPartition, kafkaMessage.value, None)]
      ensures err == producer.produceReply
    {
      if kafkaMessage.topicPartition.topic.None? {
        kafkaMessage.topicPartition := TopicPartition(Some(topic), PartitionAny);
      }
      var noEvents: Option<nat> := None;
      err := producer.Produce(kafkaMessage, noEvents);
    }
  }

  /** (*KafkaProducer).Close, which Go allows on a nil receiver: closes the
      library producer once, or does nothing when either pointer is nil. */
  method Close(kp: KafkaProducer?)
    modifies if kp != null && kp.producer != null then {kp.producer} else {}
    ensures kp != null && kp.producer != null ==> kp.producer.closeCount == old(kp.producer.closeCount) + 1
    ensures kp != null && kp.producer != null ==> kp.producer.produced == old(kp.producer.produced)
  {
    if kp == null || kp.producer == null {
      return;
    }
    kp.producer.Close();
  }

  /** The producer's configuration: the configured broker, and the SASL
      keys when switched on. */
  function ProducerConfig(c: Config): (m: ConfigMap)
    ensures "bootstrap.servers" in m && m["bootstrap.servers"] == c.bootstrapServer
    ensures "sasl.mechanism" in m <==> UseSasl(c)
    ensures UseSasl(c) ==> forall k :: k in SaslKeys(c) ==> k in m && m[k] == SaslKeys(c)[k]
    ensures !UseSasl(c) ==> m.Keys == {"bootstrap.servers"}
  {
    var base := map["bootstrap.servers" := c.bootstrapServer];
    SaslKeysIffSwitch(base, c);
    WithSasl(base, c)
  }

  class ProducerSingleton {
    var initialised: bool
    var instance: KafkaProducer?

    /** Nothing is assigned to `instance` outside the once-guarded closure. */
    predicate Valid()
      reads this
    {
      !initialised ==> instance == null
    }

    constructor ()
      ensures Valid() && !initialised && instance == null
    {
      initialised := false;
      instance := null;
    }

    /** GetKafkaProducer. The first call configures a producer from the
        configuration (the broker argument is ignored) for the given topic;
        every later call returns the same instance whatever it is given.
        The error returned is always nil: a failed construction assigns
        the `err` declared inside the closure and leaves the instance nil. */
    method GetKafkaProducer(bootstrapServers: string, topic: string, c: Config,
                            create: Outcome, produceReply: Outcome)
      returns (kp: KafkaProducer?, err: Outcome)
      requires Valid()
      modifies this
      ensures Valid()
      ensures err == Pass && initialised && kp == instance
      ensures old(initialised) ==> instance == old(instance)
      ensures !old(initialised) && create.Fail? ==> instance == null
      ensures !old(initialised) && create.Pass? ==>
        instance != null && fresh(instance) && instance.topic == topic &&
        instance.producer != null && fresh(instance.producer) &&
        instance.producer.config == ProducerConfig(c) &&
        instance.producer.produceReply == produceReply &&
        instance.producer.produced == [] && instance.producer.closeCount == 0
    {
      err := Pass;
      if !initialised {
        initialised := true;
        var configMap := ProducerConfig(c);
        var innerErr := create;
        if innerErr.Pass? {
          var p := new Producer(configMap, produceReply);
          instance := new KafkaProducer(p, topic);
        }
      }
      kp := instance;
    }
  }
}
