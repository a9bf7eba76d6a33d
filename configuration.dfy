/**
 * `RuntimeNodeConfiguration` of the Node runtime: `create` merges the
 * supplied server options over the defaults, and `register` adds the
 * file system, the system, the options instance, the logger and one
 * server with its request handler to a dependency-injection container.
 */
module Configuration {
  import opened Common

  /** The kernel's log levels. */
  datatype LogLevel = Trace | Debug | Info | Warn | Error | Fatal | Off

  /** `IHttpServerOptions`. */
  datatype Options = Options(hostName: string, port: int, root: string, level: LogLevel, useHttp2: bool)

  /** `Partial<IHttpServerOptions>`: each key given or absent. */
  datatype PartialOptions = PartialOptions(
    hostName: Option<string>, port: Option<int>, root: Option<string>,
    level: Option<LogLevel>, useHttp2: Option<bool>)

  const NoOptions := PartialOptions(None, None, None, None, None)

  /** `defaultOpts`. */
  const Defaults := Options("0.0.0.0", 8080, "./", Info, false)

  function Or<T>(given: Option<T>, fallback: T): T
  {
    match given
    case Some(v) => v
    case None => fallback
  }

  /** `{ ...base, ...opts }`: every key `opts` gives wins, the rest come from `base`. */
  function Overlay(base: Options, opts: PartialOptions): Options
  {
    Options(
      Or(opts.hostName, base.hostName), Or(opts.port, base.port), Or(opts.root, base.root),
      Or(opts.level, base.level), Or(opts.useHttp2, base.useHttp2))
  }

  /** `{ ...defaultOpts, ...opts }`, the merge in `create`. */
  function Merge(opts: PartialOptions): Options
  {
    Overlay(Defaults, opts)
  }

  /**
   * A merged key holds the supplied value when there is one and the
   * default otherwise: `0.0.0.0`, 8080, `./`, info, no HTTP/2.
   */
  lemma MergeSpec(opts: PartialOptions)
    ensures Merge(opts).hostName == (if opts.hostName.Some? then opts.hostName.value else "0.0.0.0")
    ensures Merge(opts).port == (if opts.port.Some? then opts.port.value else 8080)
    ensures Merge(opts).root == (if opts.root.Some? then opts.root.value else "./")
    ensures Merge(opts).level == (if opts.level.Some? then opts.level.value else Info)
    ensures Merge(opts).useHttp2 == (if opts.useHttp2.Some? then opts.useHttp2.value else false)
    ensures Merge(NoOptions) == Defaults
  {
  }

  // ---------------------------------------------------------------------
  // The container
  // ---------------------------------------------------------------------

  /** The interfaces registered in the container. */
  datatype Key = FileSystemKey | SystemKey | HttpServerOptionsKey | HttpServerKey | RequestHandlerKey

  /** The implementations registered as singletons. */
  datatype Impl = NodeFileSystem | NodeSystem | HttpServer | Http2Server | FileServer | Http2FileServer

  /** One registration passed to `container.register`. */
  datatype Registration =
    | Singleton(key: Key, impl: Impl)
    | Instance(key: Key, options: Options)
    | LoggerConfiguration(level: LogLevel)   // `LoggerConfiguration.create(console, level, colors)`

  /**
   * A container, seen through what was registered in it, in order.
   * Resolution and lifetimes are not part of this model.
   */
  class Container {
    var registrations: seq<Registration>

    constructor()
      ensures registrations == []
    {
      registrations := [];
    }

    /** `container.register(...items)`: the items are added and the same container returned. */
    method Register(items: seq<Registration>) returns (r: Container)
      modifies this
      ensures r == this
      ensures registrations == old(registrations) + items
    {
      registrations := registrations + items;
      r := this;
    }
  }

  /** The registrations made whatever the protocol. */
  function SharedRegistrations(opts: Options): seq<Registration>
  {
    [Singleton(FileSystemKey, NodeFileSystem), Singleton(SystemKey, NodeSystem),
     Instance(HttpServerOptionsKey, opts), LoggerConfiguration(opts.level)]
  }

  /** The server and request handler for the protocol. */
  function ServerPair(useHttp2: bool): seq<Registration>
  {
    if useHttp2 then [Singleton(HttpServerKey, Http2Server), Singleton(RequestHandlerKey, Http2FileServer)]
    else [Singleton(HttpServerKey, HttpServer), Singleton(RequestHandlerKey, FileServer)]
  }

  /** Everything `register` adds, in order. */
  function Registrations(opts: Options): seq<Registration>
  {
    SharedRegistrations(opts) + ServerPair(opts.useHttp2)
  }

  /** The implementations registered as singletons for `key`. */
  function ImplsFor(regs: seq<Registration>, key: Key): (r: set<Impl>)
    ensures forall i :: i in r <==> exists j :: 0 <= j < |regs| && regs[j] == Singleton(key, i)
  {
    set j | 0 <= j < |regs| && regs[j].Singleton? && regs[j].key == key :: regs[j].impl
  }

  /** The value returned by `create`: it holds its merged options. */
  datatype NodeConfiguration = NodeConfiguration(opts: Options)

  /** `RuntimeNodeConfiguration.create(opts)`: the options `MergeSpec` describes. */
  function Create(opts: PartialOptions): NodeConfiguration
  {
    NodeConfiguration(Merge(opts))
  }

  /** `register(container)`: two calls of `container.register`, and the container given back. */
  method RegisterAll(config: NodeConfiguration, container: Container) returns (r: Container)
    modifies container
    ensures r == container
    ensures container.registrations == old(container.registrations) + Registrations(config.opts)
  {
    var opts := config.opts;
    var c := container.Register(SharedRegistrations(opts));
    if opts.useHttp2 {
      c := container.Register(ServerPair(true));
    } else {
      c := container.Register(ServerPair(false));
    }
    return container;
  }

  /**
   * HTTP/2 registers exactly `Http2Server` and `Http2FileServer`,
   * otherwise exactly `HttpServer` and `FileServer`; never both kinds.
   */
  lemma ServerSelection(opts: Options)
    ensures ImplsFor(Registrations(opts), HttpServerKey) == (if opts.useHttp2 then {Http2Server} else {HttpServer})
    ensures ImplsFor(Registrations(opts), RequestHandlerKey) == (if opts.useHttp2 then {Http2FileServer} else {FileServer})
  {
    var regs := Registrations(opts);
    var s := if opts.useHttp2 then Http2Server else HttpServer;
    var h := if opts.useHttp2 then Http2FileServer else FileServer;
    assert regs[4] == Singleton(HttpServerKey, s);
    assert regs[5] == Singleton(RequestHandlerKey, h);
    assert s in ImplsFor(regs, HttpServerKey);
    assert h in ImplsFor(regs, RequestHandlerKey);
  }

  /**
   * The file system, the system, the options instance (the merged options
   * themselves) and the logger at their level are registered whatever
   * the protocol, one registration each.
   */
  lemma AlwaysRegistered(opts: Options)
    ensures |Registrations(opts)| == 6
    ensures ImplsFor(Registrations(opts), FileSystemKey) == {NodeFileSystem}
    ensures ImplsFor(Registrations(opts), SystemKey) == {NodeSystem}
    ensures Instance(HttpServerOptionsKey, opts) in Registrations(opts)
    ensures LoggerConfiguration(opts.level) in Registrations(opts)
  {
    var regs := Registrations(opts);
    assert regs[0] == Singleton(FileSystemKey, NodeFileSystem);
    assert regs[1] == Singleton(SystemKey, NodeSystem);
    assert regs[2] == Instance(HttpServerOptionsKey, opts);
    assert regs[3] == LoggerConfiguration(opts.level);
  }
}
