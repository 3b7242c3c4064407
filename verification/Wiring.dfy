/**
  filter/filter_module.go and the constructor in filter/filter_manager.go: how the service's
  configuration reaches the filters, their queues and their senders.
 */
module Wiring {
  import opened Dispatcher
  import opened Kinesis
  import opened Messages
  import opened Options
  import opened Routing
  import opened Sender

  datatype FilterManagerConfig = FilterManagerConfig(deliveryRetries: int, filters: seq<FilterConfig>,
                                                     defaultQueueSize: int, defaultBatchSize: int,
                                                     defaultMaxWorkers: int)

  /** What is outside: the streams' service, marshalling, clients, expressions and names. */
  datatype Outside = Outside(net: Network, codec: Codec, provider: ClientConfig -> bool, engine: Engine,
                             parseDestType: string -> Option<DestType>, toValidUTF8: string -> string)

  /** The filter factory has the whole configuration; the dispatcher factory has not been given the retries. */
  ghost predicate Wired(ff: BaseFilterFactory, config: FilterManagerConfig, outside: Outside)
  {
    && ff.deliveryRetries == config.deliveryRetries && ff.defaultQueueSize == config.defaultQueueSize
    && ff.defaultBatchSize == config.defaultBatchSize && ff.defaultMaxWorkers == config.defaultMaxWorkers
    && ff.engine == outside.engine && ff.parseDestType == outside.parseDestType
    && ff.toValidUTF8 == outside.toValidUTF8
    && ff.dispatchers.net == outside.net && ff.dispatchers.codec == outside.codec
    && ff.dispatchers.provider == outside.provider
    && ff.dispatchers.retries == 0
  }

  /** There is a manager exactly when the default sizes are given and every configuration makes a filter. */
  method NewFilterManager(config: FilterManagerConfig, outside: Outside)
    returns (r: Option<BaseFilterManager>, ghost ff: BaseFilterFactory)
    ensures Wired(ff, config, outside)
    ensures r.Some? <==>
      && config.defaultQueueSize != 0 && config.defaultBatchSize != 0 && config.defaultMaxWorkers != 0
      && forall i :: 0 <= i < |config.filters| ==> ff.Makes(config.filters[i])
    ensures r.Some? ==> fresh(r.value) && r.value.LoadedUpTo(ff, config.filters, |config.filters|)
  {
    var df := new DispatcherFactory(0, outside.net, outside.codec, outside.provider);
    var factory := new BaseFilterFactory(df, config.deliveryRetries, config.defaultQueueSize, config.defaultBatchSize,
                                         config.defaultMaxWorkers, outside.engine, outside.parseDestType,
                                         outside.toValidUTF8);
    ff := factory;
    var fm := new BaseFilterManager();
    if config.defaultQueueSize == 0 || config.defaultBatchSize == 0 || config.defaultMaxWorkers == 0 {
      return None, factory;
    }
    var err, n := fm.LoadFilters(factory, config.filters);
    if err {
      return None, factory;
    }
    r := Some(fm);
  }

  /** Every sender of a filter makes as many retries as the configuration asks for, by the senders' own rule. */
  ghost predicate RetriesAsConfigured(f: BaseFilter, config: FilterManagerConfig)
    requires f.dispatcher.Some?
    reads f
  {
    var senders := f.dispatcher.value.senders;
    forall i :: 0 <= i < |senders| ==>
      senders[i].retries == if config.deliveryRetries > 0 then config.deliveryRetries else 3
  }

  /**
    The configured delivery retries stop at the filter, which has no use for them. The exact
    condition: the senders follow the configuration if and only if it asks for the default.
   */
  lemma RetriesAsConfiguredIff(fm: BaseFilterManager, ff: BaseFilterFactory, config: FilterManagerConfig,
                               outside: Outside, name: string)
    requires Wired(ff, config, outside) && fm.Loaded(ff, config.filters) && name in fm.filters
    ensures fm.filters[name].dispatcher.Some? && fm.filters[name].deliveryRetries == config.deliveryRetries
    ensures RetriesAsConfigured(fm.filters[name], config) <==>
      config.deliveryRetries <= 0 || config.deliveryRetries == 3
  {
    var f := fm.filters[name];
    var cfg := config.filters[LastFor(config.filters, name).value];
    assert ff.Made(f, cfg);
    var d := f.dispatcher.value;
    assert |d.senders| == |d.streams| == 1 + |cfg.altStreams|;
    assert forall i :: 0 <= i < |d.senders| ==> ff.dispatchers.BuiltFor(d.senders[i], d.streams[i]);
    assert d.senders[0].retries == RETRIES;
  }

  /** Whatever the configuration, no queue submits just because it is empty. */
  lemma NeverSubmitsOnEmpty(fm: BaseFilterManager, ff: BaseFilterFactory, config: FilterManagerConfig,
                            outside: Outside, name: string)
    requires Wired(ff, config, outside) && fm.Loaded(ff, config.filters) && name in fm.filters
    ensures fm.filters[name].dispatcher.Some?
    ensures var cfg := config.filters[LastFor(config.filters, name).value];
      var queue := fm.filters[name].dispatcher.value.queue;
      && queue.channelSize == (if cfg.queueSize > 0 then cfg.queueSize else config.defaultQueueSize)
      && queue.workerPoolSize == (if cfg.maxWorkers > 0 then cfg.maxWorkers else config.defaultMaxWorkers)
      && queue.batchSize == (if cfg.batchSize > 0 then cfg.batchSize else config.defaultBatchSize)
      && !queue.onEmpty
  {
    assert ff.Made(fm.filters[name], config.filters[LastFor(config.filters, name).value]);
  }

  /**
    Where a batch goes, from the configuration on: for a loaded filter, whatever the service
    replies, the first try goes to the primary stream and each further one to the alternate
    whose turn it is, each through the client that the stream's own items ask for.
   */
  lemma PrimaryThenAlternates(fm: BaseFilterManager, ff: BaseFilterFactory, configs: seq<FilterConfig>, name: string,
                              svc: Service, k: nat, msgs: seq<Message>)
    requires fm.Loaded(ff, configs) && name in fm.filters && msgs != []
    requires fm.filters[name].dispatcher.Some?
    ensures var cfg, d := configs[LastFor(configs, name).value], fm.filters[name].dispatcher.value;
      && |d.senders| == |d.streams|
      && var tries := SubmitTries(svc, k, RoutesOf(d.streams, d.senders), d.codec, msgs);
      && 1 <= |tries| <= 1 + |cfg.altStreams|
      && tries[0].target == Target(ClientOf(ConfigMap(cfg.stream.configItems)), cfg.stream.name)
      && forall i :: 0 <= i < |tries| - 1 ==>
        tries[i + 1].target == Target(ClientOf(ConfigMap(cfg.altStreams[i].configItems)), cfg.altStreams[i].name)
  {
    hide Failover, Marshaled, Calls, OneTry;
    var cfg, d := configs[LastFor(configs, name).value], fm.filters[name].dispatcher.value;
    assert ff.Made(fm.filters[name], cfg);
    var routes := RoutesOf(d.streams, d.senders);
    var tries := SubmitTries(svc, k, routes, d.codec, msgs);
    forall i: nat | i < |tries|
      ensures |tries| <= |routes| && tries[i].target == routes[i].target
      ensures routes[i].target == Target(ClientOf(ConfigMap(d.streams[i].configItems)), d.streams[i].name)
    {
      FailoverAt(svc, k, routes, Marshaled(d.codec, msgs), i);
      RoutesAreOwn(ff.dispatchers, d, i);
    }
    assert forall i :: 0 <= i < |cfg.altStreams| ==> d.streams[i + 1] == d.streams[1..][i];
  }
}
