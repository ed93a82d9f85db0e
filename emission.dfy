/**
 * Which keys the JSON object of a `Config` holds (config.go, the struct tags).
 *
 * Every field of `Config` is tagged `omitempty`, so `encoding/json` leaves out
 * the key of every field that holds its type's empty value: "", false, a nil
 * interface, a nil or empty map, a nil or empty slice. `Server.URL` and
 * `Plugin.Name` have no `omitempty` and are always written. Which keys appear
 * is modelled; their order and the bytes of the encoding are not.
 */
module Emission {
  import opened Wrappers
  import opened Json
  import opened Configuration
  import opened Builder

  /** The value of one struct field, by the Go kind that decides its emptiness. */
  datatype FieldValue =
    | Str(str: string)
    | Flag(flag: bool)
    | Any(any: Opaque)
    | StrMap(strMap: Option<map<string, string>>)
    | DocMap(docMap: Option<Document>)
    | List(length: nat)

  /** A struct tag: the key name and whether `omitempty` is set. */
  datatype Tag = Tag(name: string, omitEmpty: bool)

  /** The empty values that `omitempty` drops (a nil map and an empty one alike). */
  predicate IsEmptyValue(v: FieldValue)
  {
    match v
    case Str(s) => |s| == 0
    case Flag(b) => !b
    case Any(x) => x.None?
    case StrMap(m) => m.None? || |m.value| == 0
    case DocMap(m) => m.None? || |m.value| == 0
    case List(n) => n == 0
  }

  /** Whether the encoder writes a field with this tag and value. */
  predicate Emits(tag: Tag, v: FieldValue)
  {
    !tag.omitEmpty || !IsEmptyValue(v)
  }

  /** The key a field contributes to its object: none when `omitempty` drops it. */
  function KeyOf(tag: Tag, v: FieldValue): set<string>
  {
    if Emits(tag, v) then {tag.name} else {}
  }

  /** The fields of `Config`, one per struct field. */
  datatype FieldName =
    | Url | Content | ProxyUrl | HotReloadUrl
    | Title | Description | Favicon
    | Theme | Layout | DarkMode | ForceDarkModeState | CustomCss | Variables | WithDefaultFonts
    | ShowSidebar | HideMethods | HideModels | HideSearch | HideTestRequestButton | HideClientButton
    | HideDownloadButton | HideDarkModeToggle | DocumentDownloadType | OperationTitleSource
    | OrderRequiredFirst | OrderSchemaPropertiesBy
    | ExpandAllResponses | ExpandAllModelSections | DefaultOpenAllTags
    | ShowDeveloperTools | Interactive
    | PersistAuth | Authentication | WithCredentials
    | Servers | PathRouting | BaseServerUrl
    | Sources
    | MetaData
    | DefaultHttpClient | HiddenClients
    | Telemetry | IsLoading
    | OnSpecUpdate | OnLoaded | OnBeforeRequest | OnRequestSent | OnDocumentSelect | OnServerChange
    | OnShowMore | OnSidebarClick
    | GenerateHeadingSlug | GenerateModelSlug | GenerateOperationSlug | GenerateTagSlug | GenerateWebhookSlug
    | TagsSorter | OperationsSorter
    | Redirect
    | Plugins

  /** Reads one field of a configuration value. */
  function ValueOf(s: ConfigValue, f: FieldName): FieldValue
  {
    match f
    case Url => Str(s.basic.url)
    case Content => Any(s.basic.content)
    case ProxyUrl => Str(s.basic.proxyUrl)
    case HotReloadUrl => Str(s.basic.hotReloadUrl)
    case Title => Str(s.display.title)
    case Description => Str(s.display.description)
    case Favicon => Str(s.display.favicon)
    case Theme => Str(s.appearance.theme)
    case Layout => Str(s.appearance.layout)
    case DarkMode => Flag(s.appearance.darkMode)
    case ForceDarkModeState => Str(s.appearance.forceDarkModeState)
    case CustomCss => Str(s.appearance.customCss)
    case Variables => StrMap(s.appearance.variables)
    case WithDefaultFonts => Flag(s.appearance.withDefaultFonts)
    case ShowSidebar => Flag(s.visibility.showSidebar)
    case HideMethods => Flag(s.visibility.hideMethods)
    case HideModels => Flag(s.visibility.hideModels)
    case HideSearch => Flag(s.visibility.hideSearch)
    case HideTestRequestButton => Flag(s.visibility.hideTestRequestButton)
    case HideClientButton => Flag(s.visibility.hideClientButton)
    case HideDownloadButton => Flag(s.visibility.hideDownloadButton)
    case HideDarkModeToggle => Flag(s.visibility.hideDarkModeToggle)
    case DocumentDownloadType => Str(s.visibility.documentDownloadType)
    case OperationTitleSource => Str(s.visibility.operationTitleSource)
    case OrderRequiredFirst => Flag(s.visibility.orderRequiredFirst)
    case OrderSchemaPropertiesBy => Str(s.visibility.orderSchemaPropertiesBy)
    case ExpandAllResponses => Flag(s.expansion.expandAllResponses)
    case ExpandAllModelSections => Flag(s.expansion.expandAllModelSections)
    case DefaultOpenAllTags => Flag(s.expansion.defaultOpenAllTags)
    case ShowDeveloperTools => Str(s.developerTools.showDeveloperTools)
    case Interactive => Flag(s.developerTools.interactive)
    case PersistAuth => Flag(s.auth.persistAuth)
    case Authentication => DocMap(s.auth.authentication)
    case WithCredentials => Flag(s.auth.withCredentials)
    case Servers => List(|s.routing.servers|)
    case PathRouting => DocMap(s.routing.pathRouting)
    case BaseServerUrl => Str(s.routing.baseServerUrl)
    case Sources => List(|s.sources|)
    case MetaData => DocMap(s.metaData)
    case DefaultHttpClient => DocMap(s.client.defaultHttpClient)
    case HiddenClients => Any(s.client.hiddenClients)
    case Telemetry => Flag(s.status.telemetry)
    case IsLoading => Flag(s.status.isLoading)
    case OnSpecUpdate => Any(s.callbacks.onSpecUpdate)
    case OnLoaded => Any(s.callbacks.onLoaded)
    case OnBeforeRequest => Any(s.callbacks.onBeforeRequest)
    case OnRequestSent => Any(s.callbacks.onRequestSent)
    case OnDocumentSelect => Any(s.callbacks.onDocumentSelect)
    case OnServerChange => Any(s.callbacks.onServerChange)
    case OnShowMore => Any(s.callbacks.onShowMore)
    case OnSidebarClick => Any(s.callbacks.onSidebarClick)
    case GenerateHeadingSlug => Any(s.slugs.generateHeadingSlug)
    case GenerateModelSlug => Any(s.slugs.generateModelSlug)
    case GenerateOperationSlug => Any(s.slugs.generateOperationSlug)
    case GenerateTagSlug => Any(s.slugs.generateTagSlug)
    case GenerateWebhookSlug => Any(s.slugs.generateWebhookSlug)
    case TagsSorter => Any(s.sorting.tagsSorter)
    case OperationsSorter => Any(s.sorting.operationsSorter)
    case Redirect => Any(s.redirect)
    case Plugins => List(|s.plugins|)
  }

  /** The key name in each field's tag. */
  function JsonKey(f: FieldName): string
  {
    match f
    case Url => "url"
    case Content => "content"
    case ProxyUrl => "proxyUrl"
    case HotReloadUrl => "hotReloadUrl"
    case Title => "title"
    case Description => "description"
    case Favicon => "favicon"
    case Theme => "theme"
    case Layout => "layout"
    case DarkMode => "darkMode"
    case ForceDarkModeState => "forceDarkModeState"
    case CustomCss => "customCss"
    case Variables => "variables"
    case WithDefaultFonts => "withDefaultFonts"
    case ShowSidebar => "showSidebar"
    case HideMethods => "hideMethods"
    case HideModels => "hideModels"
    case HideSearch => "hideSearch"
    case HideTestRequestButton => "hideTestRequestButton"
    case HideClientButton => "hideClientButton"
    case HideDownloadButton => "hideDownloadButton"
    case HideDarkModeToggle => "hideDarkModeToggle"
    case DocumentDownloadType => "documentDownloadType"
    case OperationTitleSource => "operationTitleSource"
    case OrderRequiredFirst => "orderRequiredPropertiesFirst"
    case OrderSchemaPropertiesBy => "orderSchemaPropertiesBy"
    case ExpandAllResponses => "expandAllResponses"
    case ExpandAllModelSections => "expandAllModelSections"
    case DefaultOpenAllTags => "defaultOpenAllTags"
    case ShowDeveloperTools => "showDeveloperTools"
    case Interactive => "interactive"
    case PersistAuth => "persistAuth"
    case Authentication => "authentication"
    case WithCredentials => "withCredentials"
    case Servers => "servers"
    case PathRouting => "pathRouting"
    case BaseServerUrl => "baseServerURL"
    case Sources => "sources"
    case MetaData => "metaData"
    case DefaultHttpClient => "defaultHttpClient"
    case HiddenClients => "hiddenClients"
    case Telemetry => "telemetry"
    case IsLoading => "isLoading"
    case OnSpecUpdate => "onSpecUpdate"
    case OnLoaded => "onLoaded"
    case OnBeforeRequest => "onBeforeRequest"
    case OnRequestSent => "onRequestSent"
    case OnDocumentSelect => "onDocumentSelect"
    case OnServerChange => "onServerChange"
    case OnShowMore => "onShowMore"
    case OnSidebarClick => "onSidebarClick"
    case GenerateHeadingSlug => "generateHeadingSlug"
    case GenerateModelSlug => "generateModelSlug"
    case GenerateOperationSlug => "generateOperationSlug"
    case GenerateTagSlug => "generateTagSlug"
    case GenerateWebhookSlug => "generateWebhookSlug"
    case TagsSorter => "tagsSorter"
    case OperationsSorter => "operationsSorter"
    case Redirect => "redirect"
    case Plugins => "plugins"
  }

  /**
   * Whether the JSON object of `s` holds the key `JsonKey(f)`. Every field of
   * `Config` is tagged `json:"<key>,omitempty"`, so the key is written exactly
   * when the field is not empty.
   */
  predicate Emitted(s: ConfigValue, f: FieldName)
  {
    !IsEmptyValue(ValueOf(s, f))
  }

  /** The struct tag of each `Config` field: its key, always with `omitempty`. */
  function ConfigTag(f: FieldName): Tag
  {
    Tag(JsonKey(f), true)
  }

  /**
   * `Emitted` is the tag rule applied to a top-level field: the field
   * contributes its own key when emitted, and no key otherwise.
   */
  lemma EmittedByTag(s: ConfigValue, f: FieldName)
    ensures KeyOf(ConfigTag(f), ValueOf(s, f)) == (if Emitted(s, f) then {JsonKey(f)} else {})
  {
  }

  /** The keys of one `Server`: `url` has no `omitempty`. */
  function ServerKeys(sv: Server): set<string>
  {
    KeyOf(Tag("url", false), Str(sv.url))
    + KeyOf(Tag("description", true), Str(sv.description))
    + KeyOf(Tag("variables", true), DocMap(sv.variables))
  }

  /** The keys of one `SourceConfig`. */
  function SourceKeys(src: SourceConfig): set<string>
  {
    KeyOf(Tag("title", true), Str(src.title))
    + KeyOf(Tag("slug", true), Str(src.slug))
    + KeyOf(Tag("url", true), Str(src.url))
    + KeyOf(Tag("content", true), Any(src.content))
    + KeyOf(Tag("default", true), Flag(src.default))
  }

  /** The keys of one `Plugin`: `name` has no `omitempty`. */
  function PluginKeys(p: Plugin): set<string>
  {
    KeyOf(Tag("name", false), Str(p.name))
    + KeyOf(Tag("config", true), DocMap(p.config))
    + KeyOf(Tag("enabled", true), Flag(p.enabled))
  }

  /** `NewConfig()` writes "proxyUrl" and "theme": both defaults are non-empty strings. */
  lemma DefaultProxyAndThemeEmitted()
    ensures Emitted(Defaults(), ProxyUrl) && Emitted(Defaults(), Theme)
  {
  }

  /** `NewConfig()` writes "layout" and "showDeveloperTools". */
  lemma DefaultLayoutAndToolsEmitted()
    ensures Emitted(Defaults(), Layout) && Emitted(Defaults(), ShowDeveloperTools)
  {
  }

  /** `NewConfig()` writes the keys of its two true flags. */
  lemma DefaultFlagsEmitted()
    ensures Emitted(Defaults(), ShowSidebar) && Emitted(Defaults(), Interactive)
  {
  }

  /**
   * `NewConfig()` allocates the `Variables` map but leaves it empty, and
   * `omitempty` drops an empty map like a nil one: "variables" does not appear.
   */
  lemma DefaultVariablesOmitted()
    ensures ValueOf(Defaults(), Variables) == StrMap(Some(map[]))
    ensures !Emitted(Defaults(), Variables)
  {
  }

  /** The empty `Authentication` map of `NewConfig()` is not written. */
  lemma DefaultAuthenticationOmitted()
    ensures ValueOf(Defaults(), Authentication) == DocMap(Some(map[]))
    ensures !Emitted(Defaults(), Authentication)
  {
  }

  /** The empty `MetaData` map of `NewConfig()` is not written. */
  lemma DefaultMetaDataOmitted()
    ensures ValueOf(Defaults(), MetaData) == DocMap(Some(map[]))
    ensures !Emitted(Defaults(), MetaData)
  {
  }

  /** The empty `DefaultHttpClient` map of `NewConfig()` is not written. */
  lemma DefaultHttpClientOmitted()
    ensures ValueOf(Defaults(), DefaultHttpClient) == DocMap(Some(map[]))
    ensures !Emitted(Defaults(), DefaultHttpClient)
  {
  }

  /** `WithSidebar(false)` leaves "showSidebar" out: false is the empty bool. */
  lemma SidebarEmission(s: ConfigValue, show: bool)
    ensures Emitted(Apply(s, OnVisibility(WithSidebar(show))), ShowSidebar) <==> show
  {
  }

  /** `WithDeveloperTools` always writes "showDeveloperTools": both of its modes are non-empty strings. */
  lemma DeveloperToolsEmission(s: ConfigValue, show: bool)
    ensures Emitted(Apply(s, OnDeveloperTools(WithDeveloperTools(show))), ShowDeveloperTools)
  {
  }

  /**
   * `WithContent` stores its string in an interface, which is not nil even when
   * the string is empty: "content" is written after `WithContent("")`.
   */
  lemma ContentEmission(s: ConfigValue, content: string)
    ensures Emitted(Apply(s, OnBasic(WithContent(content))), Content)
  {
  }

  /** After `WithVariable` the map holds a key, so "variables" is written. */
  lemma VariableEmission(s: ConfigValue, name: string, value: string)
    ensures Emitted(Apply(s, OnAppearance(WithVariable(name, value))), Variables)
  {
  }

  /** After `WithServer` the list is not empty, so "servers" is written. */
  lemma ServerEmission(s: ConfigValue, url: string, description: string)
    ensures Emitted(Apply(s, OnRouting(WithServer(url, description))), Servers)
  {
  }

  /** After `WithSource` the list is not empty, so "sources" is written. */
  lemma SourceEmission(s: ConfigValue, src: SourceConfig)
    ensures Emitted(Apply(s, WithSource(src)), Sources)
  {
  }

  /** After `WithPlugin` the list is not empty, so "plugins" is written. */
  lemma PluginEmission(s: ConfigValue, p: Plugin)
    ensures Emitted(Apply(s, WithPlugin(p)), Plugins)
  {
  }

  /**
   * The wholesale map setters decide the key by their argument alone: a nil
   * or empty map drops it, whatever the field held before.
   */
  lemma AuthenticationEmission(s: ConfigValue, m: Option<Document>)
    ensures Emitted(Apply(s, OnAuth(WithAuthentication(m))), Authentication) <==> m.Some? && |m.value| > 0
  {
  }

  /** `WithPathRouting` decides "pathRouting" by its argument alone. */
  lemma PathRoutingEmission(s: ConfigValue, m: Option<Document>)
    ensures Emitted(Apply(s, OnRouting(WithPathRouting(m))), PathRouting) <==> m.Some? && |m.value| > 0
  {
  }

  /** `WithMetaData` decides "metaData" by its argument alone. */
  lemma MetaDataEmission(s: ConfigValue, m: Option<Document>)
    ensures Emitted(Apply(s, WithMetaData(m)), MetaData) <==> m.Some? && |m.value| > 0
  {
  }

  /** `WithDefaultHttpClient` decides "defaultHttpClient" by its argument alone. */
  lemma HttpClientEmission(s: ConfigValue, m: Option<Document>)
    ensures Emitted(Apply(s, OnClient(WithDefaultHttpClient(m))), DefaultHttpClient) <==> m.Some? && |m.value| > 0
  {
  }

  /** A server's "url" is written even when empty; a server from `WithServer(url, "")` writes nothing else. */
  lemma ServerAlwaysEmitsUrl(sv: Server)
    ensures "url" in ServerKeys(sv)
    ensures sv.description == "" && sv.variables.None? ==> ServerKeys(sv) == {"url"}
  {
  }

  /** A plugin's "name" is written even when empty. */
  lemma PluginAlwaysEmitsName(p: Plugin)
    ensures "name" in PluginKeys(p)
    ensures p.config.None? && !p.enabled ==> PluginKeys(p) == {"name"}
  {
  }

  /** A source whose fields are all empty writes `{}`. */
  lemma EmptySourceEmitsNothing(src: SourceConfig)
    requires src.title == "" && src.slug == "" && src.url == "" && src.content.None? && !src.default
    ensures SourceKeys(src) == {}
  {
  }

  /**
   * After any chain of setters "plugins" is written exactly when the config
   * already held a plugin or the chain calls `WithPlugin`.
   */
  lemma ChainPluginsEmitted(s: ConfigValue, ops: seq<Setter>)
    ensures Emitted(Chain(s, ops), Plugins) <==> |s.plugins| > 0 || |PluginsAdded(ops)| > 0
  {
    ChainPlugins(s, ops);
  }

  /** The same for "sources" and `WithSource`. */
  lemma ChainSourcesEmitted(s: ConfigValue, ops: seq<Setter>)
    ensures Emitted(Chain(s, ops), Sources) <==> |s.sources| > 0 || |SourcesAdded(ops)| > 0
  {
    ChainSources(s, ops);
  }

  /** The same for "servers" and `WithServer`. */
  lemma ChainServersEmitted(s: ConfigValue, ops: seq<Setter>)
    ensures Emitted(Chain(s, ops), Servers) <==> |s.routing.servers| > 0 || |ServersAdded(ops)| > 0
  {
    ChainServers(s, ops);
  }

  /**
   * No setter removes a CSS variable: after any chain "variables" is written
   * exactly when the map already had a key or the chain calls `WithVariable`.
   */
  lemma ChainVariablesEmitted(s: ConfigValue, ops: seq<Setter>)
    ensures Emitted(Chain(s, ops), Variables) <==> VariableNames(s.appearance.variables) + NamesBound(ops) != {}
  {
    var vars := Chain(s, ops).appearance.variables;
    ChainVariableNames(s, ops);
    if vars.Some? && vars.value.Keys == {} {
      assert vars.value == map[];
    }
    if vars.Some? && vars.value.Keys != {} {
      var k :| k in vars.value.Keys;
      assert k in vars.value;
    }
  }

  /** After any chain "hideMethods" is written exactly when it was set or the chain calls `HideHTTPMethods`. */
  lemma ChainHideMethodsEmitted(s: ConfigValue, ops: seq<Setter>)
    ensures Emitted(Chain(s, ops), HideMethods) <==> s.visibility.hideMethods || Setter.OnVisibility(HideHTTPMethods) in ops
  {
    ChainHideFlags(s, ops);
  }
}
