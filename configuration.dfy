/**
 * The configuration record of config.go and its fluent builder.
 *
 * Go's nil maps are `None`; a nil and an empty slice are not told apart (the
 * builder only appends and the encoder only looks at the length). A Go
 * `interface{}` field is an `Option<JsonValue>` whose `None` is the nil
 * interface.
 */
module Configuration {
  import opened Wrappers
  import opened Json

  /** A Go `interface{}` value: `None` is the nil interface. */
  type Opaque = Option<JsonValue>

  /** One server override (config.go, Server). */
  datatype Server = Server(url: string, description: string, variables: Option<Document>)

  /** One document of a multi-document page (config.go, SourceConfig). */
  datatype SourceConfig = SourceConfig(title: string, slug: string, url: string, content: Opaque, default: bool)

  /** One plugin definition (config.go, Plugin). */
  datatype Plugin = Plugin(name: string, config: Option<Document>, enabled: bool)

  /** One group of fields of `Config` per banner comment of config.go. */
  datatype Basic = Basic(url: string, content: Opaque, proxyUrl: string, hotReloadUrl: string)
  datatype Display = Display(title: string, description: string, favicon: string)
  datatype Appearance = Appearance(theme: string, layout: string, darkMode: bool, forceDarkModeState: string, customCss: string, variables: Option<map<string, string>>, withDefaultFonts: bool)
  datatype Visibility = Visibility(showSidebar: bool, hideMethods: bool, hideModels: bool, hideSearch: bool, hideTestRequestButton: bool, hideClientButton: bool, hideDownloadButton: bool, hideDarkModeToggle: bool, documentDownloadType: string, operationTitleSource: string, orderRequiredFirst: bool, orderSchemaPropertiesBy: string)
  datatype Expansion = Expansion(expandAllResponses: bool, expandAllModelSections: bool, defaultOpenAllTags: bool)
  datatype DeveloperTools = DeveloperTools(showDeveloperTools: string, interactive: bool)
  datatype Auth = Auth(persistAuth: bool, authentication: Option<Document>, withCredentials: bool)
  datatype Routing = Routing(servers: seq<Server>, pathRouting: Option<Document>, baseServerUrl: string)
  datatype ClientOptions = ClientOptions(defaultHttpClient: Option<Document>, hiddenClients: Opaque)
  datatype Status = Status(telemetry: bool, isLoading: bool)
  datatype Callbacks = Callbacks(onSpecUpdate: Opaque, onLoaded: Opaque, onBeforeRequest: Opaque, onRequestSent: Opaque, onDocumentSelect: Opaque, onServerChange: Opaque, onShowMore: Opaque, onSidebarClick: Opaque)
  datatype SlugGenerators = SlugGenerators(generateHeadingSlug: Opaque, generateModelSlug: Opaque, generateOperationSlug: Opaque, generateTagSlug: Opaque, generateWebhookSlug: Opaque)
  datatype Sorting = Sorting(tagsSorter: Opaque, operationsSorter: Opaque)

  /** The value of a `Config` struct: its fields, grouped as config.go lays them out. */
  datatype ConfigValue = ConfigValue(
    basic: Basic,
    display: Display,
    appearance: Appearance,
    visibility: Visibility,
    expansion: Expansion,
    developerTools: DeveloperTools,
    auth: Auth,
    routing: Routing,
    sources: seq<SourceConfig>,
    metaData: Option<Document>,
    client: ClientOptions,
    status: Status,
    callbacks: Callbacks,
    slugs: SlugGenerators,
    sorting: Sorting,
    redirect: Opaque,
    plugins: seq<Plugin>
  )

  /** Go's zero value of `Config`: the struct literal `Config{}`. */
  function ZeroConfig(): ConfigValue
  {
    ConfigValue(
      Basic("", None, "", ""),
      Display("", "", ""),
      Appearance("", "", false, "", "", None, false),
      Visibility(false, false, false, false, false, false, false, false, "", "", false, ""),
      Expansion(false, false, false),
      DeveloperTools("", false),
      Auth(false, None, false),
      Routing([], None, ""),
      [],
      None,
      ClientOptions(None, None),
      Status(false, false),
      Callbacks(None, None, None, None, None, None, None, None),
      SlugGenerators(None, None, None, None, None),
      Sorting(None, None),
      None,
      []
    )
  }

  const DefaultTheme := "default"
  const DefaultLayout := "modern"
  const DefaultProxyUrl := "https://proxy.scalar.com"

  /** The value `NewConfig` builds: the zero struct with ten fields filled in. */
  function Defaults(): ConfigValue
  {
    var z := ZeroConfig();
    z.(
      basic := z.basic.(proxyUrl := DefaultProxyUrl),
      appearance := z.appearance.(theme := DefaultTheme, layout := DefaultLayout, variables := Some(map[])),
      visibility := z.visibility.(showSidebar := true),
      developerTools := DeveloperTools(showDeveloperTools := "always", interactive := true),
      auth := z.auth.(authentication := Some(map[])),
      metaData := Some(map[]),
      client := z.client.(defaultHttpClient := Some(map[]))
    )
  }

  /**
   * The ten values `NewConfig` fills in: the four maps are allocated (not
   * nil) and empty.
   */
  lemma DefaultValues()
    ensures Defaults().appearance.theme == "default" && Defaults().appearance.layout == "modern"
    ensures Defaults().visibility.showSidebar && Defaults().developerTools.interactive
    ensures Defaults().developerTools.showDeveloperTools == "always"
    ensures Defaults().basic.proxyUrl == "https://proxy.scalar.com"
    ensures Defaults().appearance.variables == Some(map[]) && Defaults().auth.authentication == Some(map[])
    ensures Defaults().metaData == Some(map[]) && Defaults().client.defaultHttpClient == Some(map[])
  {
  }

  /**
   * `WithVariable`'s map update: a nil map is first replaced by an empty one,
   * then `name` is bound to `value`; no other key changes.
   */
  function PutVariable(vars: Option<map<string, string>>, name: string, value: string): (r: Option<map<string, string>>)
    ensures r.Some? && name in r.value && r.value[name] == value
    ensures r.value.Keys == (if vars.Some? then vars.value.Keys else {}) + {name}
    ensures forall k :: k in r.value && k != name ==> vars.Some? && k in vars.value && r.value[k] == vars.value[k]
  {
    var m := if vars.None? then map[] else vars.value;
    Some(m[name := value])
  }

  /**
   * One call of a `With*` or `Hide*` method of `Config`, with its arguments,
   * filed under the group of fields it writes.
   */
  datatype BasicSetter =
    | WithURL(url: string)
    | WithContent(content: string)
    | WithProxyURL(proxyURL: string)

  datatype DisplaySetter =
    | WithTitle(title: string)
    | WithDescription(description: string)

  datatype AppearanceSetter =
    | WithTheme(theme: string)
    | WithDarkMode(enabled: bool)
    | WithCustomCSS(css: string)
    | WithVariable(name: string, value: string)
    | WithForceDarkModeState(state: string)

  datatype VisibilitySetter =
    | WithSidebar(show: bool)
    | HideHTTPMethods
    | HideModelsSection
    | HideDownload
    | WithHideSearch(hidden: bool)
    | WithHideTestRequestButton(hidden: bool)
    | WithHideClientButton(hidden: bool)
    | WithHideDarkModeToggle(hidden: bool)
    | WithDocumentDownloadType(t: string)
    | WithOperationTitleSource(source: string)
    | WithOrderRequiredFirst(enabled: bool)
    | WithOrderSchemaPropertiesBy(mode: string)

  datatype ExpansionSetter =
    | WithExpandAllResponses(enabled: bool)
    | WithExpandAllModelSections(enabled: bool)
    | WithDefaultOpenAllTags(enabled: bool)

  datatype DeveloperToolsSetter =
    | WithInteractive(interactive: bool)
    | WithDeveloperTools(show: bool)

  datatype AuthSetter =
    | WithAuthentication(authentication: Option<Document>)
    | WithPersistAuth(enabled: bool)
    | WithWithCredentials(enabled: bool)

  datatype RoutingSetter =
    | WithServer(url: string, description: string)
    | WithBaseServerURL(url: string)
    | WithPathRouting(cfg: Option<Document>)

  datatype ClientOptionsSetter =
    | WithDefaultHttpClient(cfg: Option<Document>)
    | WithHiddenClients(h: Opaque)

  datatype StatusSetter =
    | WithTelemetry(enabled: bool)
    | WithIsLoading(loading: bool)

  datatype CallbackSetter =
    | WithOnSpecUpdate(fn: Opaque)
    | WithOnLoaded(fn: Opaque)
    | WithOnBeforeRequest(fn: Opaque)
    | WithOnRequestSent(fn: Opaque)
    | WithOnDocumentSelect(fn: Opaque)
    | WithOnServerChange(fn: Opaque)
    | WithOnShowMore(fn: Opaque)
    | WithOnSidebarClick(fn: Opaque)

  datatype SlugGeneratorSetter =
    | WithGenerateHeadingSlug(fn: Opaque)
    | WithGenerateModelSlug(fn: Opaque)
    | WithGenerateOperationSlug(fn: Opaque)
    | WithGenerateTagSlug(fn: Opaque)
    | WithGenerateWebhookSlug(fn: Opaque)

  datatype SortingSetter =
    | WithTagsSorter(fn: Opaque)
    | WithOperationsSorter(fn: Opaque)

  /** One call of a `With*` or `Hide*` method: a call into one group, or one of the four setters of a group with one field. */
  datatype Setter =
    | OnBasic(basicCall: BasicSetter)
    | OnDisplay(displayCall: DisplaySetter)
    | OnAppearance(appearanceCall: AppearanceSetter)
    | OnVisibility(visibilityCall: VisibilitySetter)
    | OnExpansion(expansionCall: ExpansionSetter)
    | OnDeveloperTools(developerToolsCall: DeveloperToolsSetter)
    | OnAuth(authCall: AuthSetter)
    | OnRouting(routingCall: RoutingSetter)
    | WithSource(src: SourceConfig)
    | WithMetaData(md: Option<Document>)
    | OnClient(clientCall: ClientOptionsSetter)
    | OnStatus(statusCall: StatusSetter)
    | OnCallbacks(callbacksCall: CallbackSetter)
    | OnSlugs(slugsCall: SlugGeneratorSetter)
    | OnSorting(sortingCall: SortingSetter)
    | WithRedirect(fn: Opaque)
    | WithPlugin(p: Plugin)
  {
    /** The setters that append to one of the three lists. */
    predicate Appends()
    {
      WithSource? || WithPlugin? || (OnRouting? && routingCall.WithServer?)
    }
  }

  /** How one call changes the fields of its group. */
  function ApplyBasic(v: Basic, op: BasicSetter): Basic
  {
    match op
    case WithURL(url) => v.(url := url)
    case WithContent(content) => v.(content := Some(JString(content)))
    case WithProxyURL(proxyURL) => v.(proxyUrl := proxyURL)
  }

  function ApplyDisplay(v: Display, op: DisplaySetter): Display
  {
    match op
    case WithTitle(title) => v.(title := title)
    case WithDescription(description) => v.(description := description)
  }

  function ApplyAppearance(v: Appearance, op: AppearanceSetter): Appearance
  {
    match op
    case WithTheme(theme) => v.(theme := theme)
    case WithDarkMode(enabled) => v.(darkMode := enabled)
    case WithCustomCSS(css) => v.(customCss := css)
    case WithVariable(name, value) => v.(variables := PutVariable(v.variables, name, value))
    case WithForceDarkModeState(state) => v.(forceDarkModeState := state)
  }

  function ApplyVisibility(v: Visibility, op: VisibilitySetter): Visibility
  {
    match op
    case WithSidebar(show) => v.(showSidebar := show)
    case HideHTTPMethods => v.(hideMethods := true)
    case HideModelsSection => v.(hideModels := true)
    case HideDownload => v.(hideDownloadButton := true)
    case WithHideSearch(hidden) => v.(hideSearch := hidden)
    case WithHideTestRequestButton(hidden) => v.(hideTestRequestButton := hidden)
    case WithHideClientButton(hidden) => v.(hideClientButton := hidden)
    case WithHideDarkModeToggle(hidden) => v.(hideDarkModeToggle := hidden)
    case WithDocumentDownloadType(t) => v.(documentDownloadType := t)
    case WithOperationTitleSource(source) => v.(operationTitleSource := source)
    case WithOrderRequiredFirst(enabled) => v.(orderRequiredFirst := enabled)
    case WithOrderSchemaPropertiesBy(mode) => v.(orderSchemaPropertiesBy := mode)
  }

  function ApplyExpansion(v: Expansion, op: ExpansionSetter): Expansion
  {
    match op
    case WithExpandAllResponses(enabled) => v.(expandAllResponses := enabled)
    case WithExpandAllModelSections(enabled) => v.(expandAllModelSections := enabled)
    case WithDefaultOpenAllTags(enabled) => v.(defaultOpenAllTags := enabled)
  }

  function ApplyDeveloperTools(v: DeveloperTools, op: DeveloperToolsSetter): DeveloperTools
  {
    match op
    case WithInteractive(interactive) => v.(interactive := interactive)
    case WithDeveloperTools(show) => v.(showDeveloperTools := (if show then "always" else "never"))
  }

  function ApplyAuth(v: Auth, op: AuthSetter): Auth
  {
    match op
    case WithAuthentication(authentication) => v.(authentication := authentication)
    case WithPersistAuth(enabled) => v.(persistAuth := enabled)
    case WithWithCredentials(enabled) => v.(withCredentials := enabled)
  }

  function ApplyRouting(v: Routing, op: RoutingSetter): Routing
  {
    match op
    case WithServer(url, description) => v.(servers := v.servers + [Server(url, description, None)])
    case WithBaseServerURL(url) => v.(baseServerUrl := url)
    case WithPathRouting(cfg) => v.(pathRouting := cfg)
  }

  function ApplyClient(v: ClientOptions, op: ClientOptionsSetter): ClientOptions
  {
    match op
    case WithDefaultHttpClient(cfg) => v.(defaultHttpClient := cfg)
    case WithHiddenClients(h) => v.(hiddenClients := h)
  }

  function ApplyStatus(v: Status, op: StatusSetter): Status
  {
    match op
    case WithTelemetry(enabled) => v.(telemetry := enabled)
    case WithIsLoading(loading) => v.(isLoading := loading)
  }

  function ApplyCallbacks(v: Callbacks, op: CallbackSetter): Callbacks
  {
    match op
    case WithOnSpecUpdate(fn) => v.(onSpecUpdate := fn)
    case WithOnLoaded(fn) => v.(onLoaded := fn)
    case WithOnBeforeRequest(fn) => v.(onBeforeRequest := fn)
    case WithOnRequestSent(fn) => v.(onRequestSent := fn)
    case WithOnDocumentSelect(fn) => v.(onDocumentSelect := fn)
    case WithOnServerChange(fn) => v.(onServerChange := fn)
    case WithOnShowMore(fn) => v.(onShowMore := fn)
    case WithOnSidebarClick(fn) => v.(onSidebarClick := fn)
  }

  function ApplySlugs(v: SlugGenerators, op: SlugGeneratorSetter): SlugGenerators
  {
    match op
    case WithGenerateHeadingSlug(fn) => v.(generateHeadingSlug := fn)
    case WithGenerateModelSlug(fn) => v.(generateModelSlug := fn)
    case WithGenerateOperationSlug(fn) => v.(generateOperationSlug := fn)
    case WithGenerateTagSlug(fn) => v.(generateTagSlug := fn)
    case WithGenerateWebhookSlug(fn) => v.(generateWebhookSlug := fn)
  }

  function ApplySorting(v: Sorting, op: SortingSetter): Sorting
  {
    match op
    case WithTagsSorter(fn) => v.(tagsSorter := fn)
    case WithOperationsSorter(fn) => v.(operationsSorter := fn)
  }

  /** The configuration value after one setter call: the call's group changes, every other group stays as it was. */
  function Apply(s: ConfigValue, op: Setter): ConfigValue
  {
    match op
    case OnBasic(c) => s.(basic := ApplyBasic(s.basic, c))
    case OnDisplay(c) => s.(display := ApplyDisplay(s.display, c))
    case OnAppearance(c) => s.(appearance := ApplyAppearance(s.appearance, c))
    case OnVisibility(c) => s.(visibility := ApplyVisibility(s.visibility, c))
    case OnExpansion(c) => s.(expansion := ApplyExpansion(s.expansion, c))
    case OnDeveloperTools(c) => s.(developerTools := ApplyDeveloperTools(s.developerTools, c))
    case OnAuth(c) => s.(auth := ApplyAuth(s.auth, c))
    case OnRouting(c) => s.(routing := ApplyRouting(s.routing, c))
    case WithSource(src) => s.(sources := s.sources + [src])
    case WithMetaData(md) => s.(metaData := md)
    case OnClient(c) => s.(client := ApplyClient(s.client, c))
    case OnStatus(c) => s.(status := ApplyStatus(s.status, c))
    case OnCallbacks(c) => s.(callbacks := ApplyCallbacks(s.callbacks, c))
    case OnSlugs(c) => s.(slugs := ApplySlugs(s.slugs, c))
    case OnSorting(c) => s.(sorting := ApplySorting(s.sorting, c))
    case WithRedirect(fn) => s.(redirect := fn)
    case WithPlugin(p) => s.(plugins := s.plugins + [p])
  }

  /** `WithDeveloperTools` maps its flag onto exactly two of the three modes. */
  lemma DeveloperToolsMode(s: ConfigValue, show: bool)
    ensures Apply(s, OnDeveloperTools(WithDeveloperTools(show))).developerTools.showDeveloperTools in {"always", "never"}
    ensures Apply(s, OnDeveloperTools(WithDeveloperTools(show))).developerTools.showDeveloperTools == "always" <==> show
  {
  }

  /**
   * A configuration being built (config.go, `*Config`), one field per group of
   * struct fields. The fields are public, as Go's are: callers may also assign
   * them directly.
   */
  class Config {
    var basic: Basic
    var display: Display
    var appearance: Appearance
    var visibility: Visibility
    var expansion: Expansion
    var developerTools: DeveloperTools
    var auth: Auth
    var routing: Routing
    var sources: seq<SourceConfig>
    var metaData: Option<Document>
    var client: ClientOptions
    var status: Status
    var callbacks: Callbacks
    var slugs: SlugGenerators
    var sorting: Sorting
    var redirect: Opaque
    var plugins: seq<Plugin>

    /** The struct this object currently holds. */
    function Value(): ConfigValue
      reads this
    {
      ConfigValue(
        basic, display, appearance, visibility,
        expansion, developerTools, auth, routing,
        sources, metaData, client, status,
        callbacks, slugs, sorting, redirect,
        plugins
      )
    }

    /** `NewConfig`: the zero struct with the ten defaults filled in. */
    constructor ()
      ensures Value() == Defaults()
    {
      var d := Defaults();
      basic := d.basic;
      display := d.display;
      appearance := d.appearance;
      visibility := d.visibility;
      expansion := d.expansion;
      developerTools := d.developerTools;
      auth := d.auth;
      routing := d.routing;
      sources := d.sources;
      metaData := d.metaData;
      client := d.client;
      status := d.status;
      callbacks := d.callbacks;
      slugs := d.slugs;
      sorting := d.sorting;
      redirect := d.redirect;
      plugins := d.plugins;
    }

    method WithURL(url: string) returns (self: Config)
      modifies this
      ensures self == this
      ensures Value() == Apply(old(Value()), Setter.OnBasic(BasicSetter.WithURL(url)))
      ensures Value() == old(Value()).(basic := old(basic).(url := url))
    {
      this.basic := this.basic.(url := url);
      return this;
    }

    method WithContent(content: string) returns (self: Config)
      modifies this
      ensures self == this
      ensures Value() == Apply(old(Value()), Setter.OnBasic(BasicSetter.WithContent(content)))
      ensures Value() == old(Value()).(basic := old(basic).(content := Some(JString(content))))
    {
      this.basic := this.basic.(content := Some(JString(content)));
      return this;
    }

    method WithTitle(title: string) returns (self: Config)
      modifies this
      ensures self == this
      ensures Value() == Apply(old(Value()), Setter.OnDisplay(DisplaySetter.WithTitle(title)))
      ensures Value() == old(Value()).(display := old(display).(title := title))
    {
      this.display := this.display.(title := title);
      return this;
    }

    method WithDescription(description: string) returns (self: Config)
      modifies this
      ensures self == this
      ensures Value() == Apply(old(Value()), Setter.OnDisplay(DisplaySetter.WithDescription(description)))
      ensures Value() == old(Value()).(display := old(display).(description := description))
    {
      this.display := this.display.(description := description);
      return this;
    }

    method WithTheme(theme: string) returns (self: Config)
      modifies this
      ensures self == this
      ensures Value() == Apply(old(Value()), Setter.OnAppearance(AppearanceSetter.WithTheme(theme)))
      ensures Value() == old(Value()).(appearance := old(appearance).(theme := theme))
    {
      this.appearance := this.appearance.(theme := theme);
      return this;
    }

    method WithDarkMode(enabled: bool) returns (self: Config)
      modifies this
      ensures self == this
      ensures Value() == Apply(old(Value()), Setter.OnAppearance(AppearanceSetter.WithDarkMode(enabled)))
      ensures Value() == old(Value()).(appearance := old(appearance).(darkMode := enabled))
    {
      this.appearance := this.appearance.(darkMode := enabled);
      return this;
    }

    method WithProxyURL(proxyURL: string) returns (self: Config)
      modifies this
      ensures self == this
      ensures Value() == Apply(old(Value()), Setter.OnBasic(BasicSetter.WithProxyURL(proxyURL)))
      ensures Value() == old(Value()).(basic := old(basic).(proxyUrl := proxyURL))
    {
      this.basic := this.basic.(proxyUrl := proxyURL);
      return this;
    }

    method WithCustomCSS(css: string) returns (self: Config)
      modifies this
      ensures self == this
      ensures Value() == Apply(old(Value()), Setter.OnAppearance(AppearanceSetter.WithCustomCSS(css)))
      ensures Value() == old(Value()).(appearance := old(appearance).(customCss := css))
    {
      this.appearance := this.appearance.(customCss := css);
      return this;
    }

    method WithVariable(name: string, value: string) returns (self: Config)
      modifies this
      ensures self == this
      ensures Value() == Apply(old(Value()), Setter.OnAppearance(AppearanceSetter.WithVariable(name, value)))
      ensures Value() == old(Value()).(appearance := old(appearance).(variables := PutVariable(old(appearance).variables, name, value)))
    {
      this.appearance := this.appearance.(variables := PutVariable(this.appearance.variables, name, value));
      return this;
    }

    method WithServer(url: string, description: string) returns (self: Config)
      modifies this
      ensures self == this
      ensures Value() == Apply(old(Value()), Setter.OnRouting(RoutingSetter.WithServer(url, description)))
      ensures Value() == old(Value()).(routing := old(routing).(servers := old(routing).servers + [Server(url, description, None)]))
    {
      this.routing := this.routing.(servers := this.routing.servers + [Server(url, description, None)]);
      return this;
    }

    method WithAuthentication(authentication: Option<Document>) returns (self: Config)
      modifies this
      ensures self == this
      ensures Value() == Apply(old(Value()), Setter.OnAuth(AuthSetter.WithAuthentication(authentication)))
      ensures Value() == old(Value()).(auth := old(auth).(authentication := authentication))
    {
      this.auth := this.auth.(authentication := authentication);
      return this;
    }

    method WithInteractive(interactive: bool) returns (self: Config)
      modifies this
      ensures self == this
      ensures Value() == Apply(old(Value()), Setter.OnDeveloperTools(DeveloperToolsSetter.WithInteractive(interactive)))
      ensures Value() == old(Value()).(developerTools := old(developerTools).(interactive := interactive))
    {
      this.developerTools := this.developerTools.(interactive := interactive);
      return this;
    }

    method WithSidebar(show: bool) returns (self: Config)
      modifies this
      ensures self == this
      ensures Value() == Apply(old(Value()), Setter.OnVisibility(VisibilitySetter.WithSidebar(show)))
      ensures Value() == old(Value()).(visibility := old(visibility).(showSidebar := show))
    {
      this.visibility := this.visibility.(showSidebar := show);
      return this;
    }

    method WithDeveloperTools(show: bool) returns (self: Config)
      modifies this
      ensures self == this
      ensures Value() == Apply(old(Value()), Setter.OnDeveloperTools(DeveloperToolsSetter.WithDeveloperTools(show)))
      ensures Value() == old(Value()).(developerTools := old(developerTools).(showDeveloperTools := (if show then "always" else "never")))
    {
      this.developerTools := this.developerTools.(showDeveloperTools := (if show then "always" else "never"));
      return this;
    }

    method HideHTTPMethods() returns (self: Config)
      modifies this
      ensures self == this
      ensures Value() == Apply(old(Value()), Setter.OnVisibility(VisibilitySetter.HideHTTPMethods))
      ensures Value() == old(Value()).(visibility := old(visibility).(hideMethods := true))
    {
      this.visibility := this.visibility.(hideMethods := true);
      return this;
    }

    method HideModelsSection() returns (self: Config)
      modifies this
      ensures self == this
      ensures Value() == Apply(old(Value()), Setter.OnVisibility(VisibilitySetter.HideModelsSection))
      ensures Value() == old(Value()).(visibility := old(visibility).(hideModels := true))
    {
      this.visibility := this.visibility.(hideModels := true);
      return this;
    }

    method HideDownload() returns (self: Config)
      modifies this
      ensures self == this
      ensures Value() == Apply(old(Value()), Setter.OnVisibility(VisibilitySetter.HideDownload))
      ensures Value() == old(Value()).(visibility := old(visibility).(hideDownloadButton := true))
    {
      this.visibility := this.visibility.(hideDownloadButton := true);
      return this;
    }

    method WithForceDarkModeState(state: string) returns (self: Config)
      modifies this
      ensures self == this
      ensures Value() == Apply(old(Value()), Setter.OnAppearance(AppearanceSetter.WithForceDarkModeState(state)))
      ensures Value() == old(Value()).(appearance := old(appearance).(forceDarkModeState := state))
    {
      this.appearance := this.appearance.(forceDarkModeState := state);
      return this;
    }

    method WithHideSearch(hidden: bool) returns (self: Config)
      modifies this
      ensures self == this
      ensures Value() == Apply(old(Value()), Setter.OnVisibility(VisibilitySetter.WithHideSearch(hidden)))
      ensures Value() == old(Value()).(visibility := old(visibility).(hideSearch := hidden))
    {
      this.visibility := this.visibility.(hideSearch := hidden);
      return this;
    }

    method WithHideTestRequestButton(hidden: bool) returns (self: Config)
      modifies this
      ensures self == this
      ensures Value() == Apply(old(Value()), Setter.OnVisibility(VisibilitySetter.WithHideTestRequestButton(hidden)))
      ensures Value() == old(Value()).(visibility := old(visibility).(hideTestRequestButton := hidden))
    {
      this.visibility := this.visibility.(hideTestRequestButton := hidden);
      return this;
    }

    method WithHideClientButton(hidden: bool) returns (self: Config)
      modifies this
      ensures self == this
      ensures Value() == Apply(old(Value()), Setter.OnVisibility(VisibilitySetter.WithHideClientButton(hidden)))
      ensures Value() == old(Value()).(visibility := old(visibility).(hideClientButton := hidden))
    {
      this.visibility := this.visibility.(hideClientButton := hidden);
      return this;
    }

    method WithHideDarkModeToggle(hidden: bool) returns (self: Config)
      modifies this
      ensures self == this
      ensures Value() == Apply(old(Value()), Setter.OnVisibility(VisibilitySetter.WithHideDarkModeToggle(hidden)))
      ensures Value() == old(Value()).(visibility := old(visibility).(hideDarkModeToggle := hidden))
    {
      this.visibility := this.visibility.(hideDarkModeToggle := hidden);
      return this;
    }

    method WithDocumentDownloadType(t: string) returns (self: Config)
      modifies this
      ensures self == this
      ensures Value() == Apply(old(Value()), Setter.OnVisibility(VisibilitySetter.WithDocumentDownloadType(t)))
      ensures Value() == old(Value()).(visibility := old(visibility).(documentDownloadType := t))
    {
      this.visibility := this.visibility.(documentDownloadType := t);
      return this;
    }

    method WithOperationTitleSource(source: string) returns (self: Config)
      modifies this
      ensures self == this
      ensures Value() == Apply(old(Value()), Setter.OnVisibility(VisibilitySetter.WithOperationTitleSource(source)))
      ensures Value() == old(Value()).(visibility := old(visibility).(operationTitleSource := source))
    {
      this.visibility := this.visibility.(operationTitleSource := source);
      return this;
    }

    method WithOrderRequiredFirst(enabled: bool) returns (self: Config)
      modifies this
      ensures self == this
      ensures Value() == Apply(old(Value()), Setter.OnVisibility(VisibilitySetter.WithOrderRequiredFirst(enabled)))
      ensures Value() == old(Value()).(visibility := old(visibility).(orderRequiredFirst := enabled))
    {
      this.visibility := this.visibility.(orderRequiredFirst := enabled);
      return this;
    }

    method WithOrderSchemaPropertiesBy(mode: string) returns (self: Config)
      modifies this
      ensures self == this
      ensures Value() == Apply(old(Value()), Setter.OnVisibility(VisibilitySetter.WithOrderSchemaPropertiesBy(mode)))
      ensures Value() == old(Value()).(visibility := old(visibility).(orderSchemaPropertiesBy := mode))
    {
      this.visibility := this.visibility.(orderSchemaPropertiesBy := mode);
      return this;
    }

    method WithExpandAllResponses(enabled: bool) returns (self: Config)
      modifies this
      ensures self == this
      ensures Value() == Apply(old(Value()), Setter.OnExpansion(ExpansionSetter.WithExpandAllResponses(enabled)))
      ensures Value() == old(Value()).(expansion := old(expansion).(expandAllResponses := enabled))
    {
      this.expansion := this.expansion.(expandAllResponses := enabled);
      return this;
    }

    method WithExpandAllModelSections(enabled: bool) returns (self: Config)
      modifies this
      ensures self == this
      ensures Value() == Apply(old(Value()), Setter.OnExpansion(ExpansionSetter.WithExpandAllModelSections(enabled)))
      ensures Value() == old(Value()).(expansion := old(expansion).(expandAllModelSections := enabled))
    {
      this.expansion := this.expansion.(expandAllModelSections := enabled);
      return this;
    }

    method WithDefaultOpenAllTags(enabled: bool) returns (self: Config)
      modifies this
      ensures self == this
      ensures Value() == Apply(old(Value()), Setter.OnExpansion(ExpansionSetter.WithDefaultOpenAllTags(enabled)))
      ensures Value() == old(Value()).(expansion := old(expansion).(defaultOpenAllTags := enabled))
    {
      this.expansion := this.expansion.(defaultOpenAllTags := enabled);
      return this;
    }

    method WithPersistAuth(enabled: bool) returns (self: Config)
      modifies this
      ensures self == this
      ensures Value() == Apply(old(Value()), Setter.OnAuth(AuthSetter.WithPersistAuth(enabled)))
      ensures Value() == old(Value()).(auth := old(auth).(persistAuth := enabled))
    {
      this.auth := this.auth.(persistAuth := enabled);
      return this;
    }

    method WithWithCredentials(enabled: bool) returns (self: Config)
      modifies this
      ensures self == this
      ensures Value() == Apply(old(Value()), Setter.OnAuth(AuthSetter.WithWithCredentials(enabled)))
      ensures Value() == old(Value()).(auth := old(auth).(withCredentials := enabled))
    {
      this.auth := this.auth.(withCredentials := enabled);
      return this;
    }

    method WithBaseServerURL(url: string) returns (self: Config)
      modifies this
      ensures self == this
      ensures Value() == Apply(old(Value()), Setter.OnRouting(RoutingSetter.WithBaseServerURL(url)))
      ensures Value() == old(Value()).(routing := old(routing).(baseServerUrl := url))
    {
      this.routing := this.routing.(baseServerUrl := url);
      return this;
    }

    method WithPathRouting(cfg: Option<Document>) returns (self: Config)
      modifies this
      ensures self == this
      ensures Value() == Apply(old(Value()), Setter.OnRouting(RoutingSetter.WithPathRouting(cfg)))
      ensures Value() == old(Value()).(routing := old(routing).(pathRouting := cfg))
    {
      this.routing := this.routing.(pathRouting := cfg);
      return this;
    }

    method WithSource(src: SourceConfig) returns (self: Config)
      modifies this
      ensures self == this
      ensures Value() == Apply(old(Value()), Setter.WithSource(src))
      ensures Value() == old(Value()).(sources := old(sources) + [src])
    {
      this.sources := this.sources + [src];
      return this;
    }

    method WithMetaData(md: Option<Document>) returns (self: Config)
      modifies this
      ensures self == this
      ensures Value() == Apply(old(Value()), Setter.WithMetaData(md))
      ensures Value() == old(Value()).(metaData := md)
    {
      this.metaData := md;
      return this;
    }

    method WithDefaultHttpClient(cfg: Option<Document>) returns (self: Config)
      modifies this
      ensures self == this
      ensures Value() == Apply(old(Value()), Setter.OnClient(ClientOptionsSetter.WithDefaultHttpClient(cfg)))
      ensures Value() == old(Value()).(client := old(client).(defaultHttpClient := cfg))
    {
      this.client := this.client.(defaultHttpClient := cfg);
      return this;
    }

    method WithHiddenClients(h: Opaque) returns (self: Config)
      modifies this
      ensures self == this
      ensures Value() == Apply(old(Value()), Setter.OnClient(ClientOptionsSetter.WithHiddenClients(h)))
      ensures Value() == old(Value()).(client := old(client).(hiddenClients := h))
    {
      this.client := this.client.(hiddenClients := h);
      return this;
    }

    method WithTelemetry(enabled: bool) returns (self: Config)
      modifies this
      ensures self == this
      ensures Value() == Apply(old(Value()), Setter.OnStatus(StatusSetter.WithTelemetry(enabled)))
      ensures Value() == old(Value()).(status := old(status).(telemetry := enabled))
    {
      this.status := this.status.(telemetry := enabled);
      return this;
    }

    method WithIsLoading(loading: bool) returns (self: Config)
      modifies this
      ensures self == this
      ensures Value() == Apply(old(Value()), Setter.OnStatus(StatusSetter.WithIsLoading(loading)))
      ensures Value() == old(Value()).(status := old(status).(isLoading := loading))
    {
      this.status := this.status.(isLoading := loading);
      return this;
    }

    method WithOnSpecUpdate(fn: Opaque) returns (self: Config)
      modifies this
      ensures self == this
      ensures Value() == Apply(old(Value()), Setter.OnCallbacks(CallbackSetter.WithOnSpecUpdate(fn)))
      ensures Value() == old(Value()).(callbacks := old(callbacks).(onSpecUpdate := fn))
    {
      this.callbacks := this.callbacks.(onSpecUpdate := fn);
      return this;
    }

    method WithOnLoaded(fn: Opaque) returns (self: Config)
      modifies this
      ensures self == this
      ensures Value() == Apply(old(Value()), Setter.OnCallbacks(CallbackSetter.WithOnLoaded(fn)))
      ensures Value() == old(Value()).(callbacks := old(callbacks).(onLoaded := fn))
    {
      this.callbacks := this.callbacks.(onLoaded := fn);
      return this;
    }

    method WithOnBeforeRequest(fn: Opaque) returns (self: Config)
      modifies this
      ensures self == this
      ensures Value() == Apply(old(Value()), Setter.OnCallbacks(CallbackSetter.WithOnBeforeRequest(fn)))
      ensures Value() == old(Value()).(callbacks := old(callbacks).(onBeforeRequest := fn))
    {
      this.callbacks := this.callbacks.(onBeforeRequest := fn);
      return this;
    }

    method WithOnRequestSent(fn: Opaque) returns (self: Config)
      modifies this
      ensures self == this
      ensures Value() == Apply(old(Value()), Setter.OnCallbacks(CallbackSetter.WithOnRequestSent(fn)))
      ensures Value() == old(Value()).(callbacks := old(callbacks).(onRequestSent := fn))
    {
      this.callbacks := this.callbacks.(onRequestSent := fn);
      return this;
    }

    method WithOnDocumentSelect(fn: Opaque) returns (self: Config)
      modifies this
      ensures self == this
      ensures Value() == Apply(old(Value()), Setter.OnCallbacks(CallbackSetter.WithOnDocumentSelect(fn)))
      ensures Value() == old(Value()).(callbacks := old(callbacks).(onDocumentSelect := fn))
    {
      this.callbacks := this.callbacks.(onDocumentSelect := fn);
      return this;
    }

    method WithOnServerChange(fn: Opaque) returns (self: Config)
      modifies this
      ensures self == this
      ensures Value() == Apply(old(Value()), Setter.OnCallbacks(CallbackSetter.WithOnServerChange(fn)))
      ensures Value() == old(Value()).(callbacks := old(callbacks).(onServerChange := fn))
    {
      this.callbacks := this.callbacks.(onServerChange := fn);
      return this;
    }

    method WithOnShowMore(fn: Opaque) returns (self: Config)
      modifies this
      ensures self == this
      ensures Value() == Apply(old(Value()), Setter.OnCallbacks(CallbackSetter.WithOnShowMore(fn)))
      ensures Value() == old(Value()).(callbacks := old(callbacks).(onShowMore := fn))
    {
      this.callbacks := this.callbacks.(onShowMore := fn);
      return this;
    }

    method WithOnSidebarClick(fn: Opaque) returns (self: Config)
      modifies this
      ensures self == this
      ensures Value() == Apply(old(Value()), Setter.OnCallbacks(CallbackSetter.WithOnSidebarClick(fn)))
      ensures Value() == old(Value()).(callbacks := old(callbacks).(onSidebarClick := fn))
    {
      this.callbacks := this.callbacks.(onSidebarClick := fn);
      return this;
    }

    method WithGenerateHeadingSlug(fn: Opaque) returns (self: Config)
      modifies this
      ensures self == this
      ensures Value() == Apply(old(Value()), Setter.OnSlugs(SlugGeneratorSetter.WithGenerateHeadingSlug(fn)))
      ensures Value() == old(Value()).(slugs := old(slugs).(generateHeadingSlug := fn))
    {
      this.slugs := this.slugs.(generateHeadingSlug := fn);
      return this;
    }

    method WithGenerateModelSlug(fn: Opaque) returns (self: Config)
      modifies this
      ensures self == this
      ensures Value() == Apply(old(Value()), Setter.OnSlugs(SlugGeneratorSetter.WithGenerateModelSlug(fn)))
      ensures Value() == old(Value()).(slugs := old(slugs).(generateModelSlug := fn))
    {
      this.slugs := this.slugs.(generateModelSlug := fn);
      return this;
    }

    method WithGenerateOperationSlug(fn: Opaque) returns (self: Config)
      modifies this
      ensures self == this
      ensures Value() == Apply(old(Value()), Setter.OnSlugs(SlugGeneratorSetter.WithGenerateOperationSlug(fn)))
      ensures Value() == old(Value()).(slugs := old(slugs).(generateOperationSlug := fn))
    {
      this.slugs := this.slugs.(generateOperationSlug := fn);
      return this;
    }

    method WithGenerateTagSlug(fn: Opaque) returns (self: Config)
      modifies this
      ensures self == this
      ensures Value() == Apply(old(Value()), Setter.OnSlugs(SlugGeneratorSetter.WithGenerateTagSlug(fn)))
      ensures Value() == old(Value()).(slugs := old(slugs).(generateTagSlug := fn))
    {
      this.slugs := this.slugs.(generateTagSlug := fn);
      return this;
    }

    method WithGenerateWebhookSlug(fn: Opaque) returns (self: Config)
      modifies this
      ensures self == this
      ensures Value() == Apply(old(Value()), Setter.OnSlugs(SlugGeneratorSetter.WithGenerateWebhookSlug(fn)))
      ensures Value() == old(Value()).(slugs := old(slugs).(generateWebhookSlug := fn))
    {
      this.slugs := this.slugs.(generateWebhookSlug := fn);
      return this;
    }

    method WithTagsSorter(fn: Opaque) returns (self: Config)
      modifies this
      ensures self == this
      ensures Value() == Apply(old(Value()), Setter.OnSorting(SortingSetter.WithTagsSorter(fn)))
      ensures Value() == old(Value()).(sorting := old(sorting).(tagsSorter := fn))
    {
      this.sorting := this.sorting.(tagsSorter := fn);
      return this;
    }

    method WithOperationsSorter(fn: Opaque) returns (self: Config)
      modifies this
      ensures self == this
      ensures Value() == Apply(old(Value()), Setter.OnSorting(SortingSetter.WithOperationsSorter(fn)))
      ensures Value() == old(Value()).(sorting := old(sorting).(operationsSorter := fn))
    {
      this.sorting := this.sorting.(operationsSorter := fn);
      return this;
    }

    method WithRedirect(fn: Opaque) returns (self: Config)
      modifies this
      ensures self == this
      ensures Value() == Apply(old(Value()), Setter.WithRedirect(fn))
      ensures Value() == old(Value()).(redirect := fn)
    {
      this.redirect := fn;
      return this;
    }

    method WithPlugin(p: Plugin) returns (self: Config)
      modifies this
      ensures self == this
      ensures Value() == Apply(old(Value()), Setter.WithPlugin(p))
      ensures Value() == old(Value()).(plugins := old(plugins) + [p])
    {
      this.plugins := this.plugins + [p];
      return this;
    }
  }
}
