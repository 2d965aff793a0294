/** cmd/opa-pdp/opa-pdp.go: start-up, registration and shutdown. Each step
    with an effect outside the modelled state is recorded as an event in a
    journal, so the order of steps is part of the state; the results of the
    steps that are not modelled (bundle build, OPA start, the Kafka
    libraries) are given in a Startup record. */
module OpaPdp {
  import opened Wrappers
  import opened Consts
  import opened Config
  import opened PdpAttributes
  import opened PapRegistration
  import opened Heartbeat
  import opened TopicConsumer
  import opened TopicProducer
  import opened MessageHandler
  import opened Api

  datatype Event =
    | InitializeHandlers
    | InitializeBundle(bundleErr: Outcome)
    | StartHttpServer
    | WaitForServer(seconds: nat)
    | InitializeOpa(opaErr: Outcome)
    | KafkaStarted(kafkaErr: Outcome)
    | Registered(ok: bool)
    | HandleMessages(consumerPresent: bool)
    | AwaitSignal
    | Cancel
    | StopSignals
    | Unsubscribed(unsubscribeErr: Outcome)
    | ConsumerClosed(closeErr: Outcome)
    | ShutdownFlagSet
    | TickerStopped
    | Sleep(seconds: nat)
    | ProducerClosed(producerPresent: bool)
    | HttpServerShutdown

  class Journal {
    var events: seq<Event>

    constructor ()
      ensures events == []
    {
      events := [];
    }

    method Record(e: Event)
      modifies this
      ensures events == old(events) + [e]
    {
      events := events + [e];
    }

    method RecordAll(es: seq<Event>)
      modifies this
      ensures events == old(events) + es
    {
      events := events + es;
    }
  }

  /** The context.CancelFunc of main's context. */
  class CancelContext {
    var cancelled: bool

    constructor ()
      ensures !cancelled
    {
      cancelled := false;
    }

    method Cancel()
      modifies this
      ensures cancelled
    {
      cancelled := true;
    }
  }

  /** registerPDP: true exactly when the registration send succeeded. */
  method RegisterPdp(sender: StatusSender, attrs: Attributes) returns (ok: bool)
    modifies sender`outbox
    ensures ok <==> sender.reply.Pass?
    ensures sender.outbox == old(sender.outbox) + [RegistrationStatus(attrs.pdpName)]
  {
    var err := SendPdpPapRegistration(sender, attrs);
    if err.Fail? {
      return false;
    }
    return true;
  }

  /** startKafkaConsAndProd. A consumer failure returns (nil, nil, err)
      before the producer is asked for. The source's check of the
      producer's error is left out: GetKafkaProducer never returns one, so
      with a consumer the result is always (consumer, producer, nil), and
      the producer is nil when its construction failed. */
  method StartKafkaConsAndProd(c: Config, b: ConsumerBehaviour, singleton: ProducerSingleton,
                               producerCreate: Outcome, produceReply: Outcome)
    returns (kc: KafkaConsumer?, producer: KafkaProducer?, err: Outcome)
    requires singleton.Valid()
    modifies singleton
    ensures singleton.Valid()
    ensures kc == null <==> err.Fail?
    ensures err.Fail? <==> b.create.Fail? || b.subscribe.Fail?
    ensures err.Fail? ==> (producer == null && singleton.initialised == old(singleton.initialised) &&
                           singleton.instance == old(singleton.instance))
    ensures err.Fail? ==> err == (if b.create.Fail? then b.create else b.subscribe)
    ensures kc != null ==> (fresh(kc) && fresh(kc.consumer) &&
                            kc.consumer.pending == b.deliveries && kc.consumer.unsubscribeReply == b.unsubscribeReply &&
                            kc.consumer.closeReply == b.closeReply && kc.consumer.subscriptions == [c.topic])
    ensures kc != null ==> singleton.initialised && producer == singleton.instance
    ensures old(singleton.initialised) ==> singleton.instance == old(singleton.instance)
    ensures kc != null && !old(singleton.initialised) ==>
      (producer != null <==> producerCreate.Pass?) &&
      (producer != null ==> fresh(producer) && producer.producer != null && fresh(producer.producer) &&
                             producer.topic == c.topic)
  {
    kc, err := NewKafkaConsumer(c, b);
    if err.Fail? {
      return null, null, err;
    }
    producer, err := singleton.GetKafkaProducer(c.bootstrapServer, c.topic, c, producerCreate, produceReply);
  }

  /** The replies a present consumer gives to the teardown calls. */
  datatype TeardownReplies = TeardownReplies(unsubscribe: Outcome, close: Outcome)

  function Replies(kc: KafkaConsumer?): Option<TeardownReplies>
  {
    if kc == null then None else Some(TeardownReplies(kc.consumer.unsubscribeReply, kc.consumer.closeReply))
  }

  /** The events of handleShutdown once a signal arrives. */
  function ShutdownTrace(consumer: Option<TeardownReplies>): (t: seq<Event>)
    ensures |t| >= 3 && t[0] == AwaitSignal && t[1] == Cancel && t[2] == StopSignals
  {
    [AwaitSignal, Cancel, StopSignals] +
    match consumer
    case None => []
    case Some(r) => [Unsubscribed(r.unsubscribe), ConsumerClosed(r.close), ShutdownFlagSet, TickerStopped,
                     Sleep(SHUTDOWN_WAIT_TIME)]
  }

  /** Without a consumer nothing is torn down after the cancel; with one,
      unsubscribe, close, flag and ticker follow in that order whatever
      the first two return. */
  lemma {:induction false} ShutdownOrder(consumer: Option<TeardownReplies>)
    ensures consumer.None? ==> ShutdownTrace(consumer) == [AwaitSignal, Cancel, StopSignals]
    ensures consumer.None? ==> forall i :: 0 <= i < |ShutdownTrace(consumer)| ==>
      ShutdownTrace(consumer)[i] != ShutdownFlagSet && ShutdownTrace(consumer)[i] != TickerStopped
    ensures consumer.Some? ==> (ShutdownTrace(consumer)[3..7] ==
      [Unsubscribed(consumer.value.unsubscribe), ConsumerClosed(consumer.value.close), ShutdownFlagSet, TickerStopped])
  {
    if consumer.None? {
      assert ShutdownTrace(consumer) == [AwaitSignal, Cancel, StopSignals];
    }
  }

  /** handleShutdown(kc, interruptChannel, cancel), from the arrival of a
      signal. */
  method HandleShutdown(kc: KafkaConsumer?, ctx: CancelContext, journal: Journal, flag: ShutdownState, hb: Scheduler)
    modifies ctx, journal, flag, hb
    modifies if kc != null then {kc.consumer} else {}
    ensures journal.events == old(journal.events) + ShutdownTrace(Replies(kc))
    ensures ctx.cancelled
    ensures kc == null ==> flag.shutdownFlag == old(flag.shutdownFlag) && hb.State() == old(hb.State())
    ensures kc != null ==> (flag.shutdownFlag && hb.State() == Stopped(old(hb.State())) &&
                            kc.consumer.unsubscribeCount == old(kc.consumer.unsubscribeCount) + 1 &&
                            kc.consumer.closeCount == old(kc.consumer.closeCount) + 1)
    ensures kc != null ==> (kc.consumer.pending == old(kc.consumer.pending) &&
                            kc.consumer.subscriptions == old(kc.consumer.subscriptions))
  {
    ctx.Cancel();
    if kc == null {
      journal.RecordAll(ShutdownTrace(None));
      return;
    }
    var unsubscribeErr := kc.consumer.Unsubscribe();
    var closeErr := kc.consumer.Close();
    flag.SetShutdownFlag();
    hb.StopTicker();
    journal.RecordAll(ShutdownTrace(Some(TeardownReplies(unsubscribeErr, closeErr))));
  }

  /** The outcomes of the steps main takes that are not modelled here. */
  datatype Startup = Startup(
    bundle: Outcome,
    opa: Outcome,
    consumer: ConsumerBehaviour,
    producerCreate: Outcome,
    produceReply: Outcome)

  predicate ConsumerUp(s: Startup)
  {
    s.consumer.create.Pass? && s.consumer.subscribe.Pass?
  }

  function KafkaError(s: Startup): Outcome
  {
    if s.consumer.create.Fail? then s.consumer.create
    else if s.consumer.subscribe.Fail? then s.consumer.subscribe
    else Pass
  }

  /** The events up to and including the OPA start. */
  function OpeningTrace(s: Startup): seq<Event>
  {
    [InitializeHandlers, InitializeBundle(s.bundle), StartHttpServer,
     WaitForServer(SERVER_WAIT_UP_TIME), InitializeOpa(s.opa)]
  }

  /** The deferred calls, run last first: producer close, server
      shutdown, cancel. */
  function ClosingTrace(producerPresent: bool): seq<Event>
  {
    [ProducerClosed(producerPresent), HttpServerShutdown, Cancel]
  }

  /** The events between the OPA start and the deferred calls. */
  function ServingTrace(s: Startup, registered: bool): seq<Event>
  {
    [KafkaStarted(KafkaError(s)), Registered(registered)] +
    if !registered then []
    else
      [HandleMessages(ConsumerUp(s))] +
      ShutdownTrace(if ConsumerUp(s) then Some(TeardownReplies(s.consumer.unsubscribeReply, s.consumer.closeReply)) else None)
  }

  /** The events of one run of main, deferred calls included. */
  function MainTrace(s: Startup, registered: bool): seq<Event>
  {
    if s.opa.Fail? then OpeningTrace(s) + [HttpServerShutdown, Cancel]
    else OpeningTrace(s) + ServingTrace(s, registered) + ClosingTrace(ConsumerUp(s) && s.producerCreate.Pass?)
  }

  predicate IsKafkaOrLater(e: Event)
  {
    e.KafkaStarted? || e.Registered? || e.HandleMessages? || e.AwaitSignal? || e.ProducerClosed?
  }

  /** A failed OPA start ends main before Kafka, registration and message
      handling: only the two deferred calls follow. */
  lemma {:induction false} OpaFailureEndsEarly(s: Startup, registered: bool)
    requires s.opa.Fail?
    ensures |MainTrace(s, registered)| == 7
    ensures forall i :: 0 <= i < |MainTrace(s, registered)| ==> !IsKafkaOrLater(MainTrace(s, registered)[i])
    ensures MainTrace(s, registered)[5..] == [HttpServerShutdown, Cancel]
  {
  }

  /** A Kafka failure does not stop main: registration follows. */
  lemma {:induction false} KafkaFailureStillRegisters(s: Startup, registered: bool)
    requires s.opa.Pass?
    ensures MainTrace(s, registered)[5] == KafkaStarted(KafkaError(s))
    ensures MainTrace(s, registered)[6] == Registered(registered)
  {
  }

  /** A failed registration ends main before message handling and
      shutdown handling; every run that gets past the OPA start ends with
      the producer close, the server shutdown and the cancel. */
  lemma {:induction false} RegistrationFailureEndsMain(s: Startup, registered: bool)
    requires s.opa.Pass?
    ensures !registered ==> (|MainTrace(s, registered)| == 10 &&
                             forall i :: 0 <= i < |MainTrace(s, registered)| ==>
                               !MainTrace(s, registered)[i].HandleMessages? && !MainTrace(s, registered)[i].AwaitSignal?)
    ensures var t := MainTrace(s, registered);
      |t| >= 3 && t[|t| - 3..] == [ProducerClosed(ConsumerUp(s) && s.producerCreate.Pass?), HttpServerShutdown, Cancel]
  {
  }

  /** The steps of main up to the OPA start. */
  method Open(s: Startup, journal: Journal, mux: Mux)
    requires forall p :: p in Patterns ==> p !in mux.routes
    modifies journal, mux
    ensures journal.events == old(journal.events) + OpeningTrace(s)
  {
    mux.RegisterHandlers();
    journal.RecordAll(OpeningTrace(s));
  }

  /** startKafkaConsAndProd and registerPDP, as main calls them after a
      successful OPA start. */
  method Start(c: Config, s: Startup, journal: Journal, singleton: ProducerSingleton,
               sender: StatusSender, attrs: Attributes)
    returns (kc: KafkaConsumer?, producer: KafkaProducer?, registered: bool)
    requires singleton.Valid() && !singleton.initialised
    modifies journal, singleton, sender`outbox
    ensures journal.events == old(journal.events) + [KafkaStarted(KafkaError(s)), Registered(registered)]
    ensures registered <==> sender.reply.Pass?
    ensures Replies(kc) == (if ConsumerUp(s) then Some(TeardownReplies(s.consumer.unsubscribeReply, s.consumer.closeReply)) else None)
    ensures kc != null ==> fresh(kc.consumer)
    ensures producer != null <==> ConsumerUp(s) && s.producerCreate.Pass?
    ensures producer != null ==> producer.producer != null && fresh(producer.producer)
  {
    var err;
    kc, producer, err := StartKafkaConsAndProd(c, s.consumer, singleton, s.producerCreate, s.produceReply);
    journal.Record(KafkaStarted(err));
    registered := RegisterPdp(sender, attrs);
    journal.Record(Registered(registered));
  }

  /** The steps of main after a successful OPA start, through the first
      deferred call to run, the producer close. */
  method Serve(c: Config, s: Startup, journal: Journal, ctx: CancelContext, singleton: ProducerSingleton,
               sender: StatusSender, attrs: Attributes, flag: ShutdownState, hb: Scheduler)
    requires singleton.Valid() && !singleton.initialised
    modifies journal, ctx, singleton, sender`outbox, flag, hb
    ensures journal.events == old(journal.events) + ServingTrace(s, sender.reply.Pass?) +
      [ProducerClosed(ConsumerUp(s) && s.producerCreate.Pass?)]
  {
    var kc, producer, registered := Start(c, s, journal, singleton, sender, attrs);
    if registered {
      journal.Record(HandleMessages(kc != null));
      HandleShutdown(kc, ctx, journal, flag, hb);
    }
    var producerPresent := producer != null;
    Close(producer);
    journal.Record(ProducerClosed(producerPresent));
  }

  /** main. The process starts with no producer, no routes and the given
      sender, which stands for RealPdpStatusSender. The message loop runs
      in a goroutine in the source; here its start is only recorded.
      When the consumer failed and registration still succeeded
      (!ConsumerUp(s) && registered), MainTrace ends that run with an
      orderly shutdown. The source does not: its loop goroutine calls
      ReadKafkaMessages on the nil consumer and the process crashes. */
  method RunMain(c: Config, s: Startup, journal: Journal, mux: Mux, singleton: ProducerSingleton,
                 sender: StatusSender, attrs: Attributes, flag: ShutdownState, hb: Scheduler)
    requires singleton.Valid() && !singleton.initialised
    requires forall p :: p in Patterns ==> p !in mux.routes
    modifies journal, mux, singleton, sender`outbox, flag, hb
    ensures journal.events == old(journal.events) + MainTrace(s, sender.reply.Pass?)
  {
    var ctx := new CancelContext();
    Open(s, journal, mux);
    if s.opa.Fail? {
      ctx.Cancel();
      journal.RecordAll([HttpServerShutdown, Cancel]);
      return;
    }
    Serve(c, s, journal, ctx, singleton, sender, attrs, flag, hb);
    ctx.Cancel();
    journal.RecordAll([HttpServerShutdown, Cancel]);
  }
}
