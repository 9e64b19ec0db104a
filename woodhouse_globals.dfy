/** Woodhouse::GlobalMethods, the module-level accessors that Woodhouse
    extends itself with: two lazily filled slots, for the node configuration
    and for the layout, plus forwarding to the configuration's dispatcher.

    NodeConfiguration.default, Layout.default and Layout.new are not part of
    this model; each accessor takes as a parameter the object that the
    constructor it would call returns, and uses it only if its slot is empty,
    as Ruby's `||=` evaluates its right-hand side only then. */
module WoodhouseGlobals {

  /** Identity of a dispatcher or a logger held by a configuration. */
  datatype DispatcherRef = DispatcherRef(id: nat)
  datatype LoggerRef = LoggerRef(id: nat)

  /** The parts of a node configuration that GlobalMethods reads. A block
      given to `configure` may reassign them. */
  class NodeConfiguration {
    var dispatcher: DispatcherRef
    var logger: LoggerRef

    constructor (dispatcher: DispatcherRef, logger: LoggerRef)
      ensures this.dispatcher == dispatcher && this.logger == logger
    {
      this.dispatcher := dispatcher;
      this.logger := logger;
    }
  }

  /** A layout, seen only through its identity. */
  class Layout {
    constructor ()
    {
    }
  }

  /** What `layout` yields: a LayoutBuilder over the global configuration
      and the stored layout. */
  datatype LayoutBuilder = LayoutBuilder(configuration: NodeConfiguration, layout: Layout)

  /** A call forwarded to a dispatcher, with its arguments untouched. */
  datatype ForwardedCall<A> =
    | Dispatch(dispatcher: DispatcherRef, args: seq<A>)
    | UpdateJob(dispatcher: DispatcherRef, args: seq<A>)

  class GlobalMethods {
    /** `@global_configuration`, nil until first use. */
    var globalConfiguration: NodeConfiguration?
    /** `@global_layout`, nil until first use. */
    var globalLayout: Layout?

    constructor ()
      ensures globalConfiguration == null && globalLayout == null
    {
      globalConfiguration := null;
      globalLayout := null;
    }

    /** `global_configuration`: the stored configuration, storing `default`
        first if there is none. */
    method GlobalConfiguration(default: NodeConfiguration) returns (c: NodeConfiguration)
      modifies this`globalConfiguration
      ensures old(globalConfiguration) != null ==> c == old(globalConfiguration)
      ensures old(globalConfiguration) == null ==> c == default
      ensures globalConfiguration == c
    {
      if globalConfiguration == null {
        globalConfiguration := default;
      }
      c := globalConfiguration;
    }

    /** `configure`: fills the same slot the same way and returns the object
        it yields to the block. */
    method Configure(default: NodeConfiguration) returns (yielded: NodeConfiguration)
      modifies this`globalConfiguration
      ensures old(globalConfiguration) != null ==> yielded == old(globalConfiguration)
      ensures old(globalConfiguration) == null ==> yielded == default
      ensures globalConfiguration == yielded
    {
      if globalConfiguration == null {
        globalConfiguration := default;
      }
      yielded := globalConfiguration;
    }

    /** `global_layout`: the stored layout, storing `default` (what
        Layout.default builds) first if there is none. */
    method GlobalLayout(default: Layout) returns (l: Layout)
      modifies this`globalLayout
      ensures old(globalLayout) != null ==> l == old(globalLayout)
      ensures old(globalLayout) == null ==> l == default
      ensures globalLayout == l
    {
      if globalLayout == null {
        globalLayout := default;
      }
      l := globalLayout;
    }

    /** `layout`: fills the layout slot with `empty` (what Layout.new builds)
        if it is nil, then yields a builder over the global configuration,
        which it initialises too, and the stored layout. */
    method BuildLayout(empty: Layout, defaultConfiguration: NodeConfiguration) returns (builder: LayoutBuilder)
      modifies this
      ensures old(globalLayout) != null ==> globalLayout == old(globalLayout)
      ensures old(globalLayout) == null ==> globalLayout == empty
      ensures old(globalConfiguration) != null ==> globalConfiguration == old(globalConfiguration)
      ensures old(globalConfiguration) == null ==> globalConfiguration == defaultConfiguration
      ensures builder == LayoutBuilder(globalConfiguration, globalLayout)
    {
      if globalLayout == null {
        globalLayout := empty;
      }
      var configuration := GlobalConfiguration(defaultConfiguration);
      builder := LayoutBuilder(configuration, globalLayout);
    }

    /** `logger`: the global configuration's logger. */
    method Logger(defaultConfiguration: NodeConfiguration) returns (logger: LoggerRef)
      modifies this`globalConfiguration
      ensures old(globalConfiguration) != null ==> globalConfiguration == old(globalConfiguration)
      ensures old(globalConfiguration) == null ==> globalConfiguration == defaultConfiguration
      ensures globalConfiguration != null && logger == globalConfiguration.logger
    {
      var configuration := GlobalConfiguration(defaultConfiguration);
      logger := configuration.logger;
    }

    /** `dispatcher`: the global configuration's dispatcher. */
    method Dispatcher(defaultConfiguration: NodeConfiguration) returns (dispatcher: DispatcherRef)
      modifies this`globalConfiguration
      ensures old(globalConfiguration) != null ==> globalConfiguration == old(globalConfiguration)
      ensures old(globalConfiguration) == null ==> globalConfiguration == defaultConfiguration
      ensures globalConfiguration != null && dispatcher == globalConfiguration.dispatcher
    {
      var configuration := GlobalConfiguration(defaultConfiguration);
      dispatcher := configuration.dispatcher;
    }

    /** `dispatch(*a)`: the call it makes on the dispatcher. */
    method Dispatch<A>(defaultConfiguration: NodeConfiguration, args: seq<A>) returns (call: ForwardedCall<A>)
      modifies this`globalConfiguration
      ensures old(globalConfiguration) != null ==> globalConfiguration == old(globalConfiguration)
      ensures old(globalConfiguration) == null ==> globalConfiguration == defaultConfiguration
      ensures globalConfiguration != null
      ensures call == ForwardedCall.Dispatch(globalConfiguration.dispatcher, args)
    {
      var dispatcher := Dispatcher(defaultConfiguration);
      call := ForwardedCall.Dispatch(dispatcher, args);
    }

    /** `update_job(*a)`: the call it makes on the dispatcher. */
    method UpdateJob<A>(defaultConfiguration: NodeConfiguration, args: seq<A>) returns (call: ForwardedCall<A>)
      modifies this`globalConfiguration
      ensures old(globalConfiguration) != null ==> globalConfiguration == old(globalConfiguration)
      ensures old(globalConfiguration) == null ==> globalConfiguration == defaultConfiguration
      ensures globalConfiguration != null
      ensures call == ForwardedCall.UpdateJob(globalConfiguration.dispatcher, args)
    {
      var dispatcher := Dispatcher(defaultConfiguration);
      call := ForwardedCall.UpdateJob(dispatcher, args);
    }
  }

  /** `global_layout` and `layout` share one slot: whichever runs first
      decides the layout, and the other then sees the same object. */
  method LayoutSlotIsShared(g: GlobalMethods, empty: Layout, default: Layout, configuration: NodeConfiguration)
    returns (built: LayoutBuilder, fetched: Layout)
    requires g.globalLayout == null
    modifies g
    ensures built.layout == empty && fetched == empty
  {
    built := g.BuildLayout(empty, configuration);
    fetched := g.GlobalLayout(default);
  }

  /** `configure` and `global_configuration` share one slot: the object a
      configure block sees is the one every later accessor returns. */
  method ConfigurationSlotIsShared(g: GlobalMethods, first: NodeConfiguration, later: NodeConfiguration)
    returns (yielded: NodeConfiguration, fetched: NodeConfiguration)
    modifies g
    ensures g.globalConfiguration == yielded && fetched == yielded
    ensures old(g.globalConfiguration) == null ==> yielded == first
  {
    yielded := g.Configure(first);
    fetched := g.GlobalConfiguration(later);
  }

}
