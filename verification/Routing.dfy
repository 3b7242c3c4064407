/**
  filter/filter_factory.go, filter/filter.go and filter/filter_manager.go: which streams a
  message is offered to. Regular expressions are two functions: which patterns compile and
  which strings a pattern matches.
 */
module Routing {
  import Q = QueueMachine
  import opened Dispatcher
  import opened Messages
  import opened Options
  import opened Sequences

  datatype Engine = Engine(compiles: string -> bool, matches: (string, string) -> bool)

  /** All that is assumed of the engine: `.*` is a pattern and matches every string. */
  ghost predicate Sound(engine: Engine)
  {
    engine.compiles(".*") && forall s: string :: engine.matches(".*", s)
  }

  /** strings.TrimPrefix(destination, "event:") */
  function Topic(destination: string): (topic: string)
    ensures destination == "event:" + topic || (destination == topic && !("event:" <= destination))
  {
    if "event:" <= destination then destination[6..] else destination
  }

  // Configuring the matchers

  /** The device patterns that configureMatchers reads: up to the first `.*`. */
  function ReadDevices(devices: seq<string>): (r: seq<string>)
    ensures r <= devices && ".*" !in r
    ensures ".*" in devices <==> |r| < |devices|
    ensures |r| < |devices| ==> devices[|r|] == ".*"
    decreases |devices|
  {
    if devices == [] || devices[0] == ".*" then [] else
      var rest := ReadDevices(devices[1..]);
      assert devices == [devices[0]] + devices[1..];
      [devices[0]] + rest
  }

  /** No matcher list at all means that every device matches. */
  function DeviceMatchers(devices: seq<string>): Option<seq<string>>
  {
    if devices == [] || ".*" in devices then None else Some(devices)
  }

  predicate AllCompile(engine: Engine, patterns: seq<string>)
  {
    forall i :: 0 <= i < |patterns| ==> engine.compiles(patterns[i])
  }

  /** configureMatchers returns nil. */
  predicate Configurable(engine: Engine, events: seq<string>, devices: seq<string>)
  {
    events != [] && AllCompile(engine, events) && AllCompile(engine, ReadDevices(devices))
  }

  // Deciding

  ghost predicate SomeMatch(engine: Engine, patterns: seq<string>, s: string)
  {
    exists i :: 0 <= i < |patterns| && engine.matches(patterns[i], s)
  }

  ghost predicate SomeDevice(engine: Engine, patterns: seq<string>, msg: Message)
  {
    exists i :: 0 <= i < |patterns| &&
      (engine.matches(patterns[i], msg.source) || engine.matches(patterns[i], Topic(msg.destination)))
  }

  /** What the configuration says: an event pattern matches, and no device is named or one of them matches. */
  ghost predicate Wanted(engine: Engine, events: seq<string>, devices: seq<string>, msg: Message)
  {
    && SomeMatch(engine, events, Topic(msg.destination))
    && (devices == [] || SomeDevice(engine, devices, msg))
  }

  /** What a filter decides with the matchers it has. */
  ghost predicate Accepts(engine: Engine, events: seq<string>, meta: Option<seq<string>>, msg: Message)
  {
    && SomeMatch(engine, events, Topic(msg.destination))
    && (meta.Some? ==> SomeDevice(engine, meta.value, msg))
  }

  /** The `.*` short cut preserves the meaning of the configuration, for every message. */
  lemma ShortCutPreservesMeaning(engine: Engine, events: seq<string>, devices: seq<string>, msg: Message)
    requires Sound(engine)
    ensures Accepts(engine, events, DeviceMatchers(devices), msg) <==> Wanted(engine, events, devices, msg)
    ensures Wanted(engine, events, devices, msg) <==>
      && (exists i :: 0 <= i < |events| && engine.matches(events[i], Topic(msg.destination)))
      && (devices == [] || (exists i ::
          0 <= i < |devices| && (engine.matches(devices[i], msg.source) || engine.matches(devices[i], Topic(msg.destination)))))
  {
    if ".*" in devices {
      var i :| 0 <= i < |devices| && devices[i] == ".*";
      assert engine.matches(devices[i], msg.source);
    }
  }

  /** The patterns behind the first `.*` are never compiled: a bad one there does not fail the configuration. */
  lemma PatternsBehindDotStar(engine: Engine, events: seq<string>, before: seq<string>, after: seq<string>)
    requires ".*" !in before
    ensures Configurable(engine, events, before + [".*"] + after) <==>
      events != [] && AllCompile(engine, events) && AllCompile(engine, before)
  {
    var devices := before + [".*"] + after;
    var read := ReadDevices(devices);
    assert devices[|before|] == ".*";
    assert |read| == |before| && read == before;
  }

  /**
    A configuration is accepted exactly when it has an event pattern, all event patterns
    compile, and so does each device pattern that neither is nor comes after a `.*`.
   */
  lemma ConfigurableIff(engine: Engine, events: seq<string>, devices: seq<string>)
    ensures Configurable(engine, events, devices) <==>
      && events != []
      && (forall i :: 0 <= i < |events| ==> engine.compiles(events[i]))
      && (forall i :: 0 <= i < |devices| && BeforeDotStar(devices, i) ==> engine.compiles(devices[i]))
  {
    var read := ReadDevices(devices);
    forall i | 0 <= i < |devices|
      ensures BeforeDotStar(devices, i) <==> i < |read|
    {
      if i < |read| {
        assert forall j :: 0 <= j <= i ==> devices[j] == read[j];
      }
    }
    assert forall i :: 0 <= i < |read| ==> read[i] == devices[i];
  }

  /** Neither the pattern nor one before it is `.*`. */
  ghost predicate BeforeDotStar(devices: seq<string>, i: nat)
    requires i < |devices|
  {
    forall j :: 0 <= j <= i ==> devices[j] != ".*"
  }

  /** A filter accepts a message that one of its event matchers and, if it has any, one of its device matchers matches. */
  lemma AcceptsMeans(engine: Engine, events: seq<string>, meta: Option<seq<string>>, msg: Message)
    ensures Accepts(engine, events, meta, msg) <==>
      && (exists i :: 0 <= i < |events| && engine.matches(events[i], Topic(msg.destination)))
      && (meta.None? || (exists i ::
          0 <= i < |meta.value| && (engine.matches(meta.value[i], msg.source) || engine.matches(meta.value[i], Topic(msg.destination)))))
  {
  }

  // The objects

  datatype FilterConfig = FilterConfig(stream: Stream, altStreams: seq<Stream>, events: seq<string>,
                                       deviceIds: seq<string>, destType: string,
                                       queueSize: int, batchSize: int, maxWorkers: int)

  class BaseFilter {
    const id: string
    const engine: Engine
    var eventMatchers: seq<string>
    var metadataMatchers: Option<seq<string>>
    var dispatcher: Option<StreamDispatcher>
    var queueSize: int
    var batchSize: int
    var maxWorkers: int
    const deliveryRetries: int
    /** The messages given to the dispatcher's queue. */
    var offered: seq<Message>

    constructor (id: string, cfg: FilterConfig, deliveryRetries: int, engine: Engine)
      ensures this.id == id && this.engine == engine && offered == [] && dispatcher == None
      ensures queueSize == cfg.queueSize && batchSize == cfg.batchSize && maxWorkers == cfg.maxWorkers
      ensures this.deliveryRetries == deliveryRetries
    {
      this.id := id;
      this.engine := engine;
      this.deliveryRetries := deliveryRetries;
      queueSize, batchSize, maxWorkers := cfg.queueSize, cfg.batchSize, cfg.maxWorkers;
      eventMatchers, metadataMatchers, dispatcher, offered := [], None, None, [];
    }

    /** configureMatchers: compiles the event patterns and the device patterns up to a `.*`. */
    method ConfigureMatchers(events: seq<string>, devices: seq<string>) returns (err: bool)
      modifies this`eventMatchers, this`metadataMatchers
      ensures err == !Configurable(engine, events, devices)
      ensures !err ==> eventMatchers == events
      ensures !err ==> metadataMatchers == if devices == [] || ".*" in devices then None else Some(devices)
    {
      hide ReadDevices;
      var matchers: seq<string> := [];
      for i := 0 to |events|
        invariant matchers == events[..i] && AllCompile(engine, matchers)
      {
        if !engine.compiles(events[i]) {
          return true;
        }
        matchers := matchers + [events[i]];
      }
      if |matchers| < 1 {
        return true;
      }
      eventMatchers := matchers;

      var meta: seq<string> := [];
      ghost var star := false;
      for i := 0 to |devices|
        invariant !star && meta == devices[..i] && ".*" !in meta && i <= |ReadDevices(devices)|
        invariant AllCompile(engine, meta)
      {
        assert i < |ReadDevices(devices)| ==> devices[i] == ReadDevices(devices)[i];
        if devices[i] == ".*" {
          assert devices[..i] == ReadDevices(devices) && ".*" in devices;
          star, meta := true, [];
          break;
        }
        if !engine.compiles(devices[i]) {
          return true;
        }
        meta := meta + [devices[i]];
      }
      assert !star ==> meta == devices == ReadDevices(devices);
      metadataMatchers := if |meta| == 0 then None else Some(meta);
      err := false;
    }

    /** Offers the message to the dispatcher exactly when the matchers accept it. */
    method Queue(msg: Message)
      modifies this`offered
      ensures offered == old(offered) + if Accepts(engine, eventMatchers, metadataMatchers, msg) then [msg] else []
      ensures var topic, meta := Topic(msg.destination), metadataMatchers;
        |offered| > |old(offered)| <==>
          && (exists i :: 0 <= i < |eventMatchers| && engine.matches(eventMatchers[i], topic))
          && (meta.None? || (exists i ::
              0 <= i < |meta.value| && (engine.matches(meta.value[i], msg.source) || engine.matches(meta.value[i], topic))))
    {
      AcceptsMeans(engine, eventMatchers, metadataMatchers, msg);
      Whole(offered);
      var topic := Topic(msg.destination);
      var matchEvent, matchDevice := false, true;
      for i := 0 to |eventMatchers|
        invariant !matchEvent && forall j :: 0 <= j < i ==> !engine.matches(eventMatchers[j], topic)
      {
        if engine.matches(eventMatchers[i], topic) {
          matchEvent := true;
          break;
        }
      }
      if !matchEvent {
        return;
      }
      if metadataMatchers.Some? {
        var meta := metadataMatchers.value;
        matchDevice := false;
        for i := 0 to |meta|
          invariant !matchDevice
          invariant forall j :: 0 <= j < i ==> !engine.matches(meta[j], msg.source) && !engine.matches(meta[j], topic)
        {
          if engine.matches(meta[i], msg.source) || engine.matches(meta[i], topic) {
            matchDevice := true;
            break;
          }
        }
      }
      if !matchDevice {
        return;
      }
      offered := offered + [msg];
    }
  }

  class BaseFilterFactory {
    const dispatchers: DispatcherFactory
    const deliveryRetries: int
    const defaultQueueSize: int
    const defaultBatchSize: int
    const defaultMaxWorkers: int
    const engine: Engine
    const parseDestType: string -> Option<DestType>
    const toValidUTF8: string -> string

    constructor (dispatchers: DispatcherFactory, deliveryRetries: int, defaultQueueSize: int, defaultBatchSize: int,
                 defaultMaxWorkers: int, engine: Engine, parseDestType: string -> Option<DestType>,
                 toValidUTF8: string -> string)
      ensures this.dispatchers == dispatchers && this.deliveryRetries == deliveryRetries
      ensures this.defaultQueueSize == defaultQueueSize && this.defaultBatchSize == defaultBatchSize
      ensures this.defaultMaxWorkers == defaultMaxWorkers && this.engine == engine
      ensures this.parseDestType == parseDestType && this.toValidUTF8 == toValidUTF8
    {
      this.dispatchers := dispatchers;
      this.deliveryRetries := deliveryRetries;
      this.defaultQueueSize := defaultQueueSize;
      this.defaultBatchSize := defaultBatchSize;
      this.defaultMaxWorkers := defaultMaxWorkers;
      this.engine := engine;
      this.parseDestType := parseDestType;
      this.toValidUTF8 := toValidUTF8;
    }

    /** The streams of a filter: the primary, then the alternates in their order. */
    function Streams(cfg: FilterConfig): (streams: seq<Stream>)
      ensures |streams| == 1 + |cfg.altStreams| && streams[0] == cfg.stream && streams[1..] == cfg.altStreams
    {
      [cfg.stream] + cfg.altStreams
    }

    /** Every stream of the configuration gets a sender. */
    ghost predicate HasSenders(cfg: FilterConfig)
    {
      && parseDestType(cfg.destType).Some?
      && forall i :: 0 <= i < |Streams(cfg)| ==>
        dispatchers.Configured(parseDestType(cfg.destType).value, Streams(cfg)[i])
    }

    /** New makes a filter from the configuration. */
    ghost predicate Makes(cfg: FilterConfig)
    {
      && toValidUTF8(cfg.stream.name) != ""
      && HasSenders(cfg)
      && Configurable(engine, cfg.events, cfg.deviceIds)
    }

    /** The primary stream and then the alternates. */
    ghost predicate PrimaryFirst(d: StreamDispatcher, cfg: FilterConfig)
    {
      |d.streams| == 1 + |cfg.altStreams| && d.streams[0] == cfg.stream && d.streams[1..] == cfg.altStreams
    }

    /** What the queue of a filter is made with: the filter's own sizes where they are positive. */
    function QueueFor(cfg: FilterConfig): Q.QueueConfig
    {
      Q.QueueConfig(Q.OrDefault(cfg.queueSize, defaultQueueSize), Q.OrDefault(cfg.maxWorkers, defaultMaxWorkers),
                    Q.OrDefault(cfg.batchSize, defaultBatchSize), false)
    }

    /** A filter with the matchers of the configuration and a dispatcher for its streams, behind a queue of its sizes. */
    ghost predicate Made(f: BaseFilter, cfg: FilterConfig)
      reads f
    {
      && f.engine == engine && f.id == toValidUTF8(cfg.stream.name)
      && f.eventMatchers == cfg.events && f.metadataMatchers == DeviceMatchers(cfg.deviceIds)
      && f.dispatcher.Some? && dispatchers.Built(f.dispatcher.value)
      && PrimaryFirst(f.dispatcher.value, cfg) && f.dispatcher.value.id == f.id
      && f.dispatcher.value.queue == QueueFor(cfg)
      && f.deliveryRetries == deliveryRetries
    }

    method New(cfg: FilterConfig) returns (r: Option<BaseFilter>)
      ensures r.Some? <==> Makes(cfg)
      ensures r.Some? ==> fresh(r.value) && Made(r.value, cfg) && r.value.offered == []
    {
      var f := new BaseFilter(toValidUTF8(cfg.stream.name), cfg, deliveryRetries, engine);
      ConfigureQueue(f, cfg);
      var err := ConfigureDispatcher(f, cfg);
      if err {
        return None;
      }
      err := f.ConfigureMatchers(cfg.events, cfg.deviceIds);
      if err {
        return None;
      }
      r := Some(f);
    }

    /** configureQueue: each size is the configured one where it is positive, and the default otherwise. */
    method ConfigureQueue(f: BaseFilter, cfg: FilterConfig)
      modifies f`queueSize, f`batchSize, f`maxWorkers
      ensures f.batchSize == if cfg.batchSize > 0 then cfg.batchSize else defaultBatchSize
      ensures f.queueSize == if cfg.queueSize > 0 then cfg.queueSize else defaultQueueSize
      ensures f.maxWorkers == if cfg.maxWorkers > 0 then cfg.maxWorkers else defaultMaxWorkers
    {
      if cfg.batchSize <= 0 {
        f.batchSize := defaultBatchSize;
      } else {
        f.batchSize := cfg.batchSize;
      }
      if cfg.queueSize <= 0 {
        f.queueSize := defaultQueueSize;
      } else {
        f.queueSize := cfg.queueSize;
      }
      if cfg.maxWorkers <= 0 {
        f.maxWorkers := defaultMaxWorkers;
      } else {
        f.maxWorkers := cfg.maxWorkers;
      }
    }

    /** configureDispatcher: the primary stream and then the alternates. */
    method ConfigureDispatcher(f: BaseFilter, cfg: FilterConfig) returns (err: bool)
      modifies f`dispatcher
      ensures err <==> f.id == "" || !HasSenders(cfg)
      ensures !err ==> f.dispatcher.Some? && var d := f.dispatcher.value;
        && dispatchers.Built(d) && d.id == f.id
        && |d.streams| == 1 + |cfg.altStreams| && d.streams[0] == cfg.stream && d.streams[1..] == cfg.altStreams
        && d.queue == Q.QueueConfig(f.queueSize, f.maxWorkers, f.batchSize, false)
    {
      var streams: seq<Stream> := [];
      streams := streams + [cfg.stream];
      streams := streams + cfg.altStreams;
      assert streams == Streams(cfg);
      var dest := parseDestType(cfg.destType);
      if dest.None? {
        return true;
      }
      var d := dispatchers.GetDispatcher(f.id, f.queueSize, f.batchSize, f.maxWorkers, dest.value, streams);
      f.dispatcher := d;
      err := d.None?;
    }
  }

  // The manager

  /** The position of the last configuration for a stream name. */
  function LastFor(configs: seq<FilterConfig>, name: string): (r: Option<nat>)
    ensures r.None? ==> forall i :: 0 <= i < |configs| ==> configs[i].stream.name != name
    ensures r.Some? ==> r.value < |configs| && configs[r.value].stream.name == name
    ensures r.Some? ==> forall i :: r.value < i < |configs| ==> configs[i].stream.name != name
    decreases |configs|
  {
    if configs == [] then None
    else if configs[|configs| - 1].stream.name == name then Some(|configs| - 1)
    else LastFor(configs[..|configs| - 1], name)
  }

  lemma LastForOneMore(before: seq<FilterConfig>, cfg: FilterConfig, name: string)
    ensures LastFor(before + [cfg], name) == if cfg.stream.name == name then Some(|before|) else LastFor(before, name)
  {
    assert (before + [cfg])[..|before|] == before;
  }

  /** The filters are those that the configurations make, under their stream names, the last one for each. */
  ghost predicate AreFor(filters: map<string, BaseFilter>, ff: BaseFilterFactory, configs: seq<FilterConfig>)
    reads filters.Values
  {
    && (forall name :: name in filters <==> LastFor(configs, name).Some?)
    && (forall name :: name in filters ==> ff.Made(filters[name], configs[LastFor(configs, name).value]))
  }

  /** The filter of one more configuration takes its place. */
  lemma OneMoreFor(filters: map<string, BaseFilter>, ff: BaseFilterFactory, before: seq<FilterConfig>,
                   cfg: FilterConfig, f: BaseFilter)
    requires AreFor(filters, ff, before) && ff.Made(f, cfg)
    ensures AreFor(filters[cfg.stream.name := f], ff, before + [cfg])
  {
    hide LastFor, BaseFilterFactory.Made;
    var now := filters[cfg.stream.name := f];
    forall name
      ensures name in now <==> LastFor(before + [cfg], name).Some?
      ensures name in now ==> ff.Made(now[name], (before + [cfg])[LastFor(before + [cfg], name).value])
    {
      LastForOneMore(before, cfg, name);
    }
  }

  class BaseFilterManager {
    var filters: map<string, BaseFilter>

    constructor ()
      ensures filters == map[]
    {
      filters := map[];
    }

    /** No filter stands under two names. */
    ghost predicate Distinct()
      reads this
    {
      forall m, n :: m in filters && n in filters && m != n ==> filters[m] != filters[n]
    }

    /** The filters are those of the configurations, the last one for each stream name. */
    ghost predicate Loaded(ff: BaseFilterFactory, configs: seq<FilterConfig>)
      reads this, filters.Values
    {
      Distinct() && AreFor(filters, ff, configs)
    }

    /** The first n configurations made filters, those filters are loaded, and nothing was offered to them yet. */
    ghost predicate LoadedUpTo(ff: BaseFilterFactory, configs: seq<FilterConfig>, n: nat)
      requires n <= |configs|
      reads this, filters.Values
    {
      && (forall i :: 0 <= i < n ==> ff.Makes(configs[i]))
      && Loaded(ff, configs[..n])
      && (forall name :: name in filters ==> filters[name].offered == [])
    }

    /** loadFilters: in order, the last configuration winning for each stream name, up to the first that fails. */
    method LoadFilters(ff: BaseFilterFactory, configs: seq<FilterConfig>) returns (err: bool, ghost n: nat)
      requires filters == map[]
      modifies this
      ensures n <= |configs| && (err <==> n < |configs|)
      ensures LoadedUpTo(ff, configs, n)
      ensures err ==> !ff.Makes(configs[n])
    {
      n := 0;
      assert LoadedUpTo(ff, configs, 0);
      hide BaseFilterFactory.Makes, BaseFilterManager.LoadedUpTo;
      for i := 0 to |configs|
        invariant n == i && LoadedUpTo(ff, configs, i)
      {
        err := LoadOne(ff, configs, i);
        if err {
          return;
        }
        n := n + 1;
      }
      err := false;
    }

    /** One round of the loop. */
    method LoadOne(ff: BaseFilterFactory, configs: seq<FilterConfig>, n: nat) returns (err: bool)
      requires n < |configs| && LoadedUpTo(ff, configs, n)
      modifies this
      ensures err == !ff.Makes(configs[n])
      ensures err ==> filters == old(filters) && LoadedUpTo(ff, configs, n)
      ensures !err ==> LoadedUpTo(ff, configs, n + 1)
      ensures !err ==> var name := configs[n].stream.name;
        name in filters && fresh(filters[name]) && filters == old(filters)[name := filters[name]]
    {
      hide BaseFilterFactory.Makes, BaseFilterFactory.Made;
      var f := ff.New(configs[n]);
      if f.None? {
        return true;
      }
      AddFilter(ff, configs[..n], configs[n], f.value);
      assert configs[..n + 1] == configs[..n] + [configs[n]];
      err := false;
    }

    /** One assignment to the map. */
    method AddFilter(ff: BaseFilterFactory, ghost before: seq<FilterConfig>, cfg: FilterConfig, f: BaseFilter)
      requires Loaded(ff, before) && ff.Made(f, cfg)
      requires forall name :: name in filters ==> filters[name] != f
      modifies this
      ensures Loaded(ff, before + [cfg])
      ensures filters == old(filters)[cfg.stream.name := f]
    {
      OneMoreFor(filters, ff, before, cfg, f);
      hide AreFor;
      filters := filters[cfg.stream.name := f];
    }

    /**
      Queue: a message is offered once to each filter that accepts it and to no other, in
      whatever order the map gives them; a nil message is dropped.
     */
    method Queue(msg: Option<Message>)
      requires Distinct()
      modifies filters.Values`offered
      ensures msg.None? ==> forall name :: name in filters ==> filters[name].offered == old(filters[name].offered)
      ensures msg.Some? ==> forall name :: name in filters ==> var f := filters[name];
        if Accepts(f.engine, f.eventMatchers, f.metadataMatchers, msg.value)
        then f.offered == old(f.offered) + [msg.value] else f.offered == old(f.offered)
    {
      if msg.None? {
        return;
      }
      var todo := filters.Keys;
      while todo != {}
        invariant todo <= filters.Keys
        invariant forall name :: name in todo ==> filters[name].offered == old(filters[name].offered)
        invariant forall name :: name in filters.Keys - todo ==> var f := filters[name];
          if Accepts(f.engine, f.eventMatchers, f.metadataMatchers, msg.value)
          then f.offered == old(f.offered) + [msg.value] else f.offered == old(f.offered)
        decreases todo
      {
        var name :| name in todo;
        assert filters[name] in filters.Values;
        filters[name].Queue(msg.value);
        todo := todo - {name};
      }
    }
  }

  /** A loaded filter accepts what the last configuration for its stream name says, no more and no less. */
  lemma RoutedByLastConfig(fm: BaseFilterManager, ff: BaseFilterFactory, configs: seq<FilterConfig>,
                           name: string, msg: Message)
    requires Sound(ff.engine) && fm.Loaded(ff, configs) && name in fm.filters
    ensures var f := fm.filters[name];
      var cfg := configs[LastFor(configs, name).value];
      && Accepts(f.engine, f.eventMatchers, f.metadataMatchers, msg) <==>
         Wanted(ff.engine, cfg.events, cfg.deviceIds, msg)
  {
    var cfg := configs[LastFor(configs, name).value];
    ShortCutPreservesMeaning(ff.engine, cfg.events, cfg.deviceIds, msg);
  }
}
