/**
 * The fluent builder of config.go: every `With*` and `Hide*` method writes one
 * field and returns its receiver, so calls chain. `Apply` (in Configuration)
 * gives each call's effect on the struct's value; this module states what one
 * call and what a whole chain of calls do.
 */
module Builder {
  import opened Wrappers
  import opened Json
  import opened Configuration

  /** The value after the chain `c.ops[0](..).ops[1](..)...`, applied left to right. */
  function Chain(s: ConfigValue, ops: seq<Setter>): ConfigValue
    decreases |ops|
  {
    if ops == [] then s else Chain(Apply(s, ops[0]), ops[1..])
  }

  /** Running two chains one after the other is running their concatenation. */
  lemma {:induction false} ChainConcat(s: ConfigValue, a: seq<Setter>, b: seq<Setter>)
    ensures Chain(s, a + b) == Chain(Chain(s, a), b)
    decreases |a|
  {
    if a == [] {
      assert a + b == b;
    } else {
      assert (a + b)[1..] == a[1..] + b;
      ChainConcat(Apply(s, a[0]), a[1..], b);
    }
  }

  /** Binding a name to the value it already has changes nothing. */
  lemma PutVariableIdempotent(vars: Option<map<string, string>>, name: string, value: string)
    ensures PutVariable(PutVariable(vars, name, value), name, value) == PutVariable(vars, name, value)
  {
    var once := PutVariable(vars, name, value);
    assert once.value[name := value] == once.value;
  }

  /* Within one group, a repeated call changes nothing. */

  lemma BasicIdempotent(v: Basic, c: BasicSetter)
    ensures ApplyBasic(ApplyBasic(v, c), c) == ApplyBasic(v, c)
  {
  }

  lemma DisplayIdempotent(v: Display, c: DisplaySetter)
    ensures ApplyDisplay(ApplyDisplay(v, c), c) == ApplyDisplay(v, c)
  {
  }

  lemma AppearanceIdempotent(v: Appearance, c: AppearanceSetter)
    ensures ApplyAppearance(ApplyAppearance(v, c), c) == ApplyAppearance(v, c)
  {
    if c.WithVariable? {
      PutVariableIdempotent(v.variables, c.name, c.value);
    }
  }

  lemma VisibilityIdempotent(v: Visibility, c: VisibilitySetter)
    ensures ApplyVisibility(ApplyVisibility(v, c), c) == ApplyVisibility(v, c)
  {
  }

  lemma ExpansionIdempotent(v: Expansion, c: ExpansionSetter)
    ensures ApplyExpansion(ApplyExpansion(v, c), c) == ApplyExpansion(v, c)
  {
  }

  lemma DeveloperToolsIdempotent(v: DeveloperTools, c: DeveloperToolsSetter)
    ensures ApplyDeveloperTools(ApplyDeveloperTools(v, c), c) == ApplyDeveloperTools(v, c)
  {
  }

  lemma AuthIdempotent(v: Auth, c: AuthSetter)
    ensures ApplyAuth(ApplyAuth(v, c), c) == ApplyAuth(v, c)
  {
  }

  lemma RoutingIdempotent(v: Routing, c: RoutingSetter)
    requires !c.WithServer?
    ensures ApplyRouting(ApplyRouting(v, c), c) == ApplyRouting(v, c)
  {
  }

  lemma ClientIdempotent(v: ClientOptions, c: ClientOptionsSetter)
    ensures ApplyClient(ApplyClient(v, c), c) == ApplyClient(v, c)
  {
  }

  lemma StatusIdempotent(v: Status, c: StatusSetter)
    ensures ApplyStatus(ApplyStatus(v, c), c) == ApplyStatus(v, c)
  {
  }

  lemma CallbacksIdempotent(v: Callbacks, c: CallbackSetter)
    ensures ApplyCallbacks(ApplyCallbacks(v, c), c) == ApplyCallbacks(v, c)
  {
  }

  lemma SlugsIdempotent(v: SlugGenerators, c: SlugGeneratorSetter)
    ensures ApplySlugs(ApplySlugs(v, c), c) == ApplySlugs(v, c)
  {
  }

  lemma SortingIdempotent(v: Sorting, c: SortingSetter)
    ensures ApplySorting(ApplySorting(v, c), c) == ApplySorting(v, c)
  {
  }

  /** Calling a setter that does not append twice with the same arguments is the same as calling it once. */
  lemma ApplyIdempotent(s: ConfigValue, op: Setter)
    requires !op.Appends()
    ensures Apply(Apply(s, op), op) == Apply(s, op)
  {
    match op
    case OnBasic(c) => BasicIdempotent(s.basic, c);
    case OnDisplay(c) => DisplayIdempotent(s.display, c);
    case OnAppearance(c) => AppearanceIdempotent(s.appearance, c);
    case OnVisibility(c) => VisibilityIdempotent(s.visibility, c);
    case OnExpansion(c) => ExpansionIdempotent(s.expansion, c);
    case OnDeveloperTools(c) => DeveloperToolsIdempotent(s.developerTools, c);
    case OnAuth(c) => AuthIdempotent(s.auth, c);
    case OnRouting(c) => RoutingIdempotent(s.routing, c);
    case OnClient(c) => ClientIdempotent(s.client, c);
    case OnStatus(c) => StatusIdempotent(s.status, c);
    case OnCallbacks(c) => CallbacksIdempotent(s.callbacks, c);
    case OnSlugs(c) => SlugsIdempotent(s.slugs, c);
    case OnSorting(c) => SortingIdempotent(s.sorting, c);
    case WithMetaData(_) =>
    case WithRedirect(_) =>
  }

  /** The entry one call appends to `Servers`, `Sources` or `Plugins` (empty for every other setter). */
  function ServerAdded(op: Setter): seq<Server>
  {
    if op.OnRouting? && op.routingCall.WithServer? then [Server(op.routingCall.url, op.routingCall.description, None)] else []
  }

  function SourceAdded(op: Setter): seq<SourceConfig>
  {
    if op.WithSource? then [op.src] else []
  }

  function PluginAdded(op: Setter): seq<Plugin>
  {
    if op.WithPlugin? then [op.p] else []
  }

  /** The entries a chain appends, in call order. */
  function ServersAdded(ops: seq<Setter>): seq<Server>
    decreases |ops|
  {
    if ops == [] then [] else ServerAdded(ops[0]) + ServersAdded(ops[1..])
  }

  function SourcesAdded(ops: seq<Setter>): seq<SourceConfig>
    decreases |ops|
  {
    if ops == [] then [] else SourceAdded(ops[0]) + SourcesAdded(ops[1..])
  }

  function PluginsAdded(ops: seq<Setter>): seq<Plugin>
    decreases |ops|
  {
    if ops == [] then [] else PluginAdded(ops[0]) + PluginsAdded(ops[1..])
  }

  /** One call appends at most one entry to each list and rewrites none. */
  lemma ApplyAppends(s: ConfigValue, op: Setter)
    ensures Apply(s, op).routing.servers == s.routing.servers + ServerAdded(op)
    ensures Apply(s, op).sources == s.sources + SourceAdded(op)
    ensures Apply(s, op).plugins == s.plugins + PluginAdded(op)
  {
  }

  /**
   * The three lists only grow: after any chain of calls each list is the old
   * list, unchanged, followed by the entries the chain's `WithServer`,
   * `WithSource` and `WithPlugin` calls made, in call order.
   */
  lemma {:induction false} ChainServers(s: ConfigValue, ops: seq<Setter>)
    ensures Chain(s, ops).routing.servers == s.routing.servers + ServersAdded(ops)
    decreases |ops|
  {
    if ops != [] {
      var next := Apply(s, ops[0]);
      ApplyAppends(s, ops[0]);
      ChainServers(next, ops[1..]);
      calc {
        Chain(s, ops).routing.servers;
        Chain(next, ops[1..]).routing.servers;
        next.routing.servers + ServersAdded(ops[1..]);
        (s.routing.servers + ServerAdded(ops[0])) + ServersAdded(ops[1..]);
        s.routing.servers + (ServerAdded(ops[0]) + ServersAdded(ops[1..]));
        s.routing.servers + ServersAdded(ops);
      }
    }
  }

  lemma {:induction false} ChainSources(s: ConfigValue, ops: seq<Setter>)
    ensures Chain(s, ops).sources == s.sources + SourcesAdded(ops)
    decreases |ops|
  {
    if ops != [] {
      var next := Apply(s, ops[0]);
      ApplyAppends(s, ops[0]);
      ChainSources(next, ops[1..]);
      calc {
        Chain(s, ops).sources;
        Chain(next, ops[1..]).sources;
        next.sources + SourcesAdded(ops[1..]);
        (s.sources + SourceAdded(ops[0])) + SourcesAdded(ops[1..]);
        s.sources + (SourceAdded(ops[0]) + SourcesAdded(ops[1..]));
        s.sources + SourcesAdded(ops);
      }
    }
  }

  lemma {:induction false} ChainPlugins(s: ConfigValue, ops: seq<Setter>)
    ensures Chain(s, ops).plugins == s.plugins + PluginsAdded(ops)
    decreases |ops|
  {
    if ops != [] {
      var next := Apply(s, ops[0]);
      ApplyAppends(s, ops[0]);
      ChainPlugins(next, ops[1..]);
      calc {
        Chain(s, ops).plugins;
        Chain(next, ops[1..]).plugins;
        next.plugins + PluginsAdded(ops[1..]);
        (s.plugins + PluginAdded(ops[0])) + PluginsAdded(ops[1..]);
        s.plugins + (PluginAdded(ops[0]) + PluginsAdded(ops[1..]));
        s.plugins + PluginsAdded(ops);
      }
    }
  }

  /** The names keyed in a `Variables` map (none when the map is nil). */
  function VariableNames(vars: Option<map<string, string>>): set<string>
  {
    if vars.Some? then vars.value.Keys else {}
  }

  /** The names a chain's `WithVariable` calls bind. */
  function NamesBound(ops: seq<Setter>): set<string>
    decreases |ops|
  {
    if ops == [] then {}
    else
      var op := ops[0];
      (if op.OnAppearance? && op.appearanceCall.WithVariable? then {op.appearanceCall.name} else {}) + NamesBound(ops[1..])
  }

  lemma ApplyVariableNames(s: ConfigValue, op: Setter)
    ensures VariableNames(Apply(s, op).appearance.variables)
         == VariableNames(s.appearance.variables) + NamesBound([op])
  {
    assert [op][1..] == [];
  }

  /**
   * No setter removes a variable or replaces the map: after a chain the map
   * holds exactly the names it held before plus the names the chain's
   * `WithVariable` calls bound.
   */
  lemma {:induction false} ChainVariableNames(s: ConfigValue, ops: seq<Setter>)
    ensures VariableNames(Chain(s, ops).appearance.variables)
         == VariableNames(s.appearance.variables) + NamesBound(ops)
    decreases |ops|
  {
    if ops != [] {
      ApplyVariableNames(s, ops[0]);
      ChainVariableNames(Apply(s, ops[0]), ops[1..]);
      assert NamesBound(ops) == NamesBound([ops[0]]) + NamesBound(ops[1..]) by {
        assert [ops[0]][1..] == [];
      }
    }
  }

  lemma VisibilityHideFlags(v: Visibility, c: VisibilitySetter)
    ensures ApplyVisibility(v, c).hideMethods <==> v.hideMethods || c.HideHTTPMethods?
    ensures ApplyVisibility(v, c).hideModels <==> v.hideModels || c.HideModelsSection?
    ensures ApplyVisibility(v, c).hideDownloadButton <==> v.hideDownloadButton || c.HideDownload?
  {
    match c
    case WithSidebar(_) =>
    case HideHTTPMethods =>
    case HideModelsSection =>
    case HideDownload =>
    case WithHideSearch(_) =>
    case WithHideTestRequestButton(_) =>
    case WithHideClientButton(_) =>
    case WithHideDarkModeToggle(_) =>
    case WithDocumentDownloadType(_) =>
    case WithOperationTitleSource(_) =>
    case WithOrderRequiredFirst(_) =>
    case WithOrderSchemaPropertiesBy(_) =>
  }

  lemma ApplyHideFlags(s: ConfigValue, op: Setter)
    ensures Apply(s, op).visibility.hideMethods
        <==> s.visibility.hideMethods || op == Setter.OnVisibility(HideHTTPMethods)
    ensures Apply(s, op).visibility.hideModels
        <==> s.visibility.hideModels || op == Setter.OnVisibility(HideModelsSection)
    ensures Apply(s, op).visibility.hideDownloadButton
        <==> s.visibility.hideDownloadButton || op == Setter.OnVisibility(HideDownload)
  {
    if op.OnVisibility? {
      VisibilityHideFlags(s.visibility, op.visibilityCall);
    }
  }

  /**
   * `HideHTTPMethods`, `HideModelsSection` and `HideDownload` only ever set
   * their flag, and no other setter writes it: after a chain each flag is set
   * exactly when it was set before or the chain calls its `Hide*` method.
   */
  lemma {:induction false} ChainHideFlags(s: ConfigValue, ops: seq<Setter>)
    ensures Chain(s, ops).visibility.hideMethods
        <==> s.visibility.hideMethods || Setter.OnVisibility(HideHTTPMethods) in ops
    ensures Chain(s, ops).visibility.hideModels
        <==> s.visibility.hideModels || Setter.OnVisibility(HideModelsSection) in ops
    ensures Chain(s, ops).visibility.hideDownloadButton
        <==> s.visibility.hideDownloadButton || Setter.OnVisibility(HideDownload) in ops
    decreases |ops|
  {
    if ops != [] {
      ApplyHideFlags(s, ops[0]);
      ChainHideFlags(Apply(s, ops[0]), ops[1..]);
      assert ops == [ops[0]] + ops[1..];
    }
  }
}
