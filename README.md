# scalarui configuration and render pipeline, in Dafny

This project models the core of `scalarui`, a Go package that builds the
configuration of a Scalar API-reference page and renders it into one HTML
document with the configuration embedded as JSON.

- `wrappers.dfy`, `json.dfy` — `Option`/`Result`, and `JsonValue`, the
  stand-in for Go's `interface{}` and `map[string]interface{}` values.
- `configuration.dfy` (module `Configuration`, config.go) — the `Config`
  struct as the value `ConfigValue` (its fields grouped into sub-records),
  `Server`, `SourceConfig`, `Plugin`, the zero value and the defaults of
  `NewConfig`, every `With*`/`Hide*` setter as a `Setter` and its effect
  `Apply`, and the `class Config` whose 56 methods update the object in
  place and return the receiver. Each method states its full new state and
  that it equals `Apply` of the corresponding setter.
- `builder.dfy` (module `Builder`) — fluent chains of setters (`Chain`):
  idempotence of every non-appending setter, the lists `Servers`, `Sources`
  and `Plugins` after any chain, the keys of `Variables` after any chain,
  and the three `Hide*` flags after any chain.
- `emission.dfy` (module `Emission`, the struct tags) — which keys the
  marshalled object holds: every `Config` field is tagged `omitempty`,
  `Server.URL` and `Plugin.Name` are not.
- `scenarios.dfy` (module `Scenarios`) — two example chains on top of
  `NewConfig()`, chosen for this model, and the keys their JSON holds.
- `renderer.dfy` (module `Renderer`, scalarui.go) — `TemplateData`, the
  three-step `renderTemplate` with the JSON encoder and the template engine
  as opaque functions, and the `ScalarUI` class.

Go semantics kept explicit: a nil map is `None` and an allocated one is
`Some(m)`; a nil `interface{}` is `None`; `omitempty` drops "", false, a nil
interface, a nil or empty map and an empty slice. `WithContent("")` stores a
string in an interface, which is not nil, so "content" is still written.

A scenario in the model (URL, title "Docs", theme "purple",
`WithSidebar(false)`, one CSS variable) shows a consequence of the tags that
a reader might not expect: `ShowSidebar` is tagged `omitempty`, so after
`WithSidebar(false)` the JSON holds no "showSidebar" key at all rather than
`"showSidebar": false` (`Scenarios.DocsOmitsSidebar`,
`Emission.SidebarEmission`).

## Model

| member | source | states |
|---|---|---|
| Configuration.DefaultValues | config.go:183-196 | `NewConfig` sets theme "default", layout "modern", sidebar shown, developer tools "always", interactive on, the hosted proxy URL, and four allocated empty maps |
| Configuration.Config.constructor | config.go:183-196 | the new object holds the zero struct with exactly those ten fields filled in |
| Configuration.PutVariable | config.go:247-253 | the map afterwards is non-nil, binds `name` to `value`, has the old keys plus `name`, and every other key keeps its value; a nil map starts empty |
| Configuration.DeveloperToolsMode | config.go:283-290 | `WithDeveloperTools` yields only "always" or "never", and "always" exactly when `show` holds |
| Configuration.Config.WithURL | config.go:199-202 | `URL` becomes the argument; nothing else changes; returns the receiver; equal to `Apply` of the matching `Setter` |
| Configuration.Config.WithContent | config.go:205-208 | `Content` becomes the string boxed in a non-nil interface, even when empty; nothing else changes; returns the receiver; equal to `Apply` of the matching `Setter` |
| Configuration.Config.WithTitle | config.go:211-214 | `Title` becomes the argument; nothing else changes; returns the receiver; equal to `Apply` of the matching `Setter` |
| Configuration.Config.WithDescription | config.go:217-220 | `Description` becomes the argument; nothing else changes; returns the receiver; equal to `Apply` of the matching `Setter` |
| Configuration.Config.WithTheme | config.go:223-226 | `Theme` becomes the argument; nothing else changes; returns the receiver; equal to `Apply` of the matching `Setter` |
| Configuration.Config.WithDarkMode | config.go:229-232 | `DarkMode` becomes the argument; nothing else changes; returns the receiver; equal to `Apply` of the matching `Setter` |
| Configuration.Config.WithProxyURL | config.go:235-238 | `ProxyURL` becomes the argument; nothing else changes; returns the receiver; equal to `Apply` of the matching `Setter` |
| Configuration.Config.WithCustomCSS | config.go:241-244 | `CustomCSS` becomes the argument; nothing else changes; returns the receiver; equal to `Apply` of the matching `Setter` |
| Configuration.Config.WithVariable | config.go:247-253 | `Variables` becomes the old map (an empty one if it was nil) with `name` bound to `value`; other keys and all other fields unchanged; returns the receiver; equal to `Apply` of the matching `Setter` |
| Configuration.Config.WithServer | config.go:256-262 | `Server{URL: url, Description: description}` with nil `Variables` is appended to `Servers`, the old list is kept as prefix; nothing else changes; returns the receiver; equal to `Apply` of the matching `Setter` |
| Configuration.Config.WithAuthentication | config.go:265-268 | `Authentication` is replaced by the argument map as a whole (no old key survives); nothing else changes; returns the receiver; equal to `Apply` of the matching `Setter` |
| Configuration.Config.WithInteractive | config.go:271-274 | `Interactive` becomes the argument; nothing else changes; returns the receiver; equal to `Apply` of the matching `Setter` |
| Configuration.Config.WithSidebar | config.go:277-280 | `ShowSidebar` becomes the argument; nothing else changes; returns the receiver; equal to `Apply` of the matching `Setter` |
| Configuration.Config.WithDeveloperTools | config.go:283-290 | `ShowDeveloperTools` becomes "always" when `show` holds and "never" otherwise; nothing else changes; returns the receiver; equal to `Apply` of the matching `Setter` |
| Configuration.Config.HideHTTPMethods | config.go:293-296 | `HideMethods` becomes true whatever it was; nothing else changes; returns the receiver; equal to `Apply` of the matching `Setter` |
| Configuration.Config.HideModelsSection | config.go:299-302 | `HideModels` becomes true whatever it was; nothing else changes; returns the receiver; equal to `Apply` of the matching `Setter` |
| Configuration.Config.HideDownload | config.go:305-308 | `HideDownloadButton` becomes true whatever it was; nothing else changes; returns the receiver; equal to `Apply` of the matching `Setter` |
| Configuration.Config.WithForceDarkModeState | config.go:311-314 | `ForceDarkModeState` becomes the argument; nothing else changes; returns the receiver; equal to `Apply` of the matching `Setter` |
| Configuration.Config.WithHideSearch | config.go:317-320 | `HideSearch` becomes the argument; nothing else changes; returns the receiver; equal to `Apply` of the matching `Setter` |
| Configuration.Config.WithHideTestRequestButton | config.go:323-326 | `HideTestRequestButton` becomes the argument; nothing else changes; returns the receiver; equal to `Apply` of the matching `Setter` |
| Configuration.Config.WithHideClientButton | config.go:329-332 | `HideClientButton` becomes the argument; nothing else changes; returns the receiver; equal to `Apply` of the matching `Setter` |
| Configuration.Config.WithHideDarkModeToggle | config.go:335-338 | `HideDarkModeToggle` becomes the argument; nothing else changes; returns the receiver; equal to `Apply` of the matching `Setter` |
| Configuration.Config.WithDocumentDownloadType | config.go:341-344 | `DocumentDownloadType` becomes the argument; nothing else changes; returns the receiver; equal to `Apply` of the matching `Setter` |
| Configuration.Config.WithOperationTitleSource | config.go:347-350 | `OperationTitleSource` becomes the argument; nothing else changes; returns the receiver; equal to `Apply` of the matching `Setter` |
| Configuration.Config.WithOrderRequiredFirst | config.go:353-356 | `OrderRequiredFirst` becomes the argument; nothing else changes; returns the receiver; equal to `Apply` of the matching `Setter` |
| Configuration.Config.WithOrderSchemaPropertiesBy | config.go:359-362 | `OrderSchemaPropertiesBy` becomes the argument; nothing else changes; returns the receiver; equal to `Apply` of the matching `Setter` |
| Configuration.Config.WithExpandAllResponses | config.go:365-368 | `ExpandAllResponses` becomes the argument; nothing else changes; returns the receiver; equal to `Apply` of the matching `Setter` |
| Configuration.Config.WithExpandAllModelSections | config.go:371-374 | `ExpandAllModelSections` becomes the argument; nothing else changes; returns the receiver; equal to `Apply` of the matching `Setter` |
| Configuration.Config.WithDefaultOpenAllTags | config.go:377-380 | `DefaultOpenAllTags` becomes the argument; nothing else changes; returns the receiver; equal to `Apply` of the matching `Setter` |
| Configuration.Config.WithPersistAuth | config.go:383-386 | `PersistAuth` becomes the argument; nothing else changes; returns the receiver; equal to `Apply` of the matching `Setter` |
| Configuration.Config.WithWithCredentials | config.go:389-392 | `WithCredentials` becomes the argument; nothing else changes; returns the receiver; equal to `Apply` of the matching `Setter` |
| Configuration.Config.WithBaseServerURL | config.go:395-398 | `BaseServerURL` becomes the argument; nothing else changes; returns the receiver; equal to `Apply` of the matching `Setter` |
| Configuration.Config.WithPathRouting | config.go:401-404 | `PathRouting` is replaced by the argument map as a whole (no old key survives); nothing else changes; returns the receiver; equal to `Apply` of the matching `Setter` |
| Configuration.Config.WithSource | config.go:407-410 | `src` is appended to `Sources`, the old list is kept as prefix; nothing else changes; returns the receiver; equal to `Apply` of the matching `Setter` |
| Configuration.Config.WithMetaData | config.go:413-416 | `MetaData` is replaced by the argument map as a whole (no old key survives); nothing else changes; returns the receiver; equal to `Apply` of the matching `Setter` |
| Configuration.Config.WithDefaultHttpClient | config.go:419-422 | `DefaultHttpClient` is replaced by the argument map as a whole (no old key survives); nothing else changes; returns the receiver; equal to `Apply` of the matching `Setter` |
| Configuration.Config.WithHiddenClients | config.go:425-428 | `HiddenClients` becomes the argument; nothing else changes; returns the receiver; equal to `Apply` of the matching `Setter` |
| Configuration.Config.WithTelemetry | config.go:431-434 | `Telemetry` becomes the argument; nothing else changes; returns the receiver; equal to `Apply` of the matching `Setter` |
| Configuration.Config.WithIsLoading | config.go:437-440 | `IsLoading` becomes the argument; nothing else changes; returns the receiver; equal to `Apply` of the matching `Setter` |
| Configuration.Config.WithOnSpecUpdate | config.go:444-447 | `OnSpecUpdate` becomes the argument; nothing else changes; returns the receiver; equal to `Apply` of the matching `Setter` |
| Configuration.Config.WithOnLoaded | config.go:449-452 | `OnLoaded` becomes the argument; nothing else changes; returns the receiver; equal to `Apply` of the matching `Setter` |
| Configuration.Config.WithOnBeforeRequest | config.go:454-457 | `OnBeforeRequest` becomes the argument; nothing else changes; returns the receiver; equal to `Apply` of the matching `Setter` |
| Configuration.Config.WithOnRequestSent | config.go:459-462 | `OnRequestSent` becomes the argument; nothing else changes; returns the receiver; equal to `Apply` of the matching `Setter` |
| Configuration.Config.WithOnDocumentSelect | config.go:464-467 | `OnDocumentSelect` becomes the argument; nothing else changes; returns the receiver; equal to `Apply` of the matching `Setter` |
| Configuration.Config.WithOnServerChange | config.go:469-472 | `OnServerChange` becomes the argument; nothing else changes; returns the receiver; equal to `Apply` of the matching `Setter` |
| Configuration.Config.WithOnShowMore | config.go:474-477 | `OnShowMore` becomes the argument; nothing else changes; returns the receiver; equal to `Apply` of the matching `Setter` |
| Configuration.Config.WithOnSidebarClick | config.go:479-482 | `OnSidebarClick` becomes the argument; nothing else changes; returns the receiver; equal to `Apply` of the matching `Setter` |
| Configuration.Config.WithGenerateHeadingSlug | config.go:486-489 | `GenerateHeadingSlug` becomes the argument; nothing else changes; returns the receiver; equal to `Apply` of the matching `Setter` |
| Configuration.Config.WithGenerateModelSlug | config.go:491-494 | `GenerateModelSlug` becomes the argument; nothing else changes; returns the receiver; equal to `Apply` of the matching `Setter` |
| Configuration.Config.WithGenerateOperationSlug | config.go:496-499 | `GenerateOperationSlug` becomes the argument; nothing else changes; returns the receiver; equal to `Apply` of the matching `Setter` |
| Configuration.Config.WithGenerateTagSlug | config.go:501-504 | `GenerateTagSlug` becomes the argument; nothing else changes; returns the receiver; equal to `Apply` of the matching `Setter` |
| Configuration.Config.WithGenerateWebhookSlug | config.go:506-509 | `GenerateWebhookSlug` becomes the argument; nothing else changes; returns the receiver; equal to `Apply` of the matching `Setter` |
| Configuration.Config.WithTagsSorter | config.go:513-516 | `TagsSorter` becomes the argument; nothing else changes; returns the receiver; equal to `Apply` of the matching `Setter` |
| Configuration.Config.WithOperationsSorter | config.go:518-521 | `OperationsSorter` becomes the argument; nothing else changes; returns the receiver; equal to `Apply` of the matching `Setter` |
| Configuration.Config.WithRedirect | config.go:525-528 | `Redirect` becomes the argument; nothing else changes; returns the receiver; equal to `Apply` of the matching `Setter` |
| Configuration.Config.WithPlugin | config.go:532-535 | `p` is appended to `Plugins`, the old list is kept as prefix; nothing else changes; returns the receiver; equal to `Apply` of the matching `Setter` |
| Builder.ChainConcat | config.go:199-535 | running two chains one after the other equals running their concatenation |
| Builder.PutVariableIdempotent | config.go:247-253 | binding the same variable twice gives the map of binding it once |
| Builder.BasicIdempotent | config.go:199-208 | repeating a URL, content or proxy setter changes nothing more |
| Builder.DisplayIdempotent | config.go:211-220 | repeating a title or description setter changes nothing more |
| Builder.AppearanceIdempotent | config.go:223-314 | repeating an appearance setter changes nothing more: `WithTheme`, `WithDarkMode` (223-232), `WithCustomCSS`, `WithVariable` (241-253) and `WithForceDarkModeState` (311-314); the other setters in that span belong to other groups |
| Builder.VisibilityIdempotent | config.go:277-362 | repeating a sidebar, `Hide*` or visibility setter changes nothing more |
| Builder.ExpansionIdempotent | config.go:365-380 | repeating an expansion setter changes nothing more |
| Builder.DeveloperToolsIdempotent | config.go:283-290 | repeating `WithDeveloperTools` changes nothing more, and likewise `WithInteractive` (config.go:271-274) |
| Builder.AuthIdempotent | config.go:265-268 | repeating an authentication setter changes nothing more |
| Builder.RoutingIdempotent | config.go:395-404 | repeating `WithBaseServerURL` or `WithPathRouting` changes nothing more (`WithServer` appends) |
| Builder.ClientIdempotent | config.go:419-428 | repeating an HTTP-client setter changes nothing more |
| Builder.StatusIdempotent | config.go:431-440 | repeating `WithTelemetry` or `WithIsLoading` changes nothing more |
| Builder.CallbacksIdempotent | config.go:444-482 | repeating a callback setter changes nothing more |
| Builder.SlugsIdempotent | config.go:486-509 | repeating a slug-generator setter changes nothing more |
| Builder.SortingIdempotent | config.go:513-521 | repeating a sorter setter changes nothing more |
| Builder.ApplyIdempotent | config.go:199-528 | every setter except the three list appends is idempotent: applying it twice equals applying it once |
| Builder.ApplyAppends | config.go:256-262 | one setter grows `Servers`, `Sources` and `Plugins` only by the entry it appends, after the old list |
| Builder.ChainServers | config.go:256-262 | after any chain, `Servers` is the old list followed by one `Server{url, description}` per `WithServer`, in call order |
| Builder.ChainSources | config.go:407-410 | after any chain, `Sources` is the old list followed by every `WithSource` argument, in call order |
| Builder.ChainPlugins | config.go:532-535 | after any chain, `Plugins` is the old list followed by every `WithPlugin` argument, in call order |
| Builder.ApplyVariableNames | config.go:247-253 | one setter adds to the keys of `Variables` exactly the name a `WithVariable` binds, and removes none |
| Builder.ChainVariableNames | config.go:247-253 | after any chain, the keys of `Variables` are the old keys plus every name passed to `WithVariable` |
| Builder.VisibilityHideFlags | config.go:293-308 | each `Hide*` flag is set after a visibility setter exactly when it was set before or the setter is its `Hide*` |
| Builder.ApplyHideFlags | config.go:293-308 | the same for any setter: only the matching `Hide*` sets each flag, and nothing clears it |
| Builder.ChainHideFlags | config.go:293-308 | after any chain, each `Hide*` flag is set exactly when it was set before or its `Hide*` occurs in the chain |
| Emission.Emitted | config.go:9-147 | the key of a top-level field is written exactly when the field is not empty, since every `Config` tag carries `omitempty` |
| Emission.EmittedByTag | config.go:9-147 | applying the tag rule to a top-level field and its tag (its key from `JsonKey`, with `omitempty`) writes that key exactly when `Emitted` holds, and no other key |
| Emission.ServerKeys | config.go:154-158 | the keys of one server: "url" always (no `omitempty`), "description" and "variables" when not empty |
| Emission.SourceKeys | config.go:164-170 | the keys of one source: each of its five fields only when not empty |
| Emission.PluginKeys | config.go:176-180 | the keys of one plugin: "name" always (no `omitempty`), "config" and "enabled" when not empty |
| Emission.DefaultProxyAndThemeEmitted | config.go:183-196 | `NewConfig()` writes "proxyUrl" and "theme" |
| Emission.DefaultLayoutAndToolsEmitted | config.go:183-196 | `NewConfig()` writes "layout" and "showDeveloperTools" |
| Emission.DefaultFlagsEmitted | config.go:183-196 | `NewConfig()` writes "showSidebar" and "interactive" |
| Emission.DefaultVariablesOmitted | config.go:30 | `NewConfig()` holds an allocated empty `Variables` map and writes no "variables" key |
| Emission.DefaultAuthenticationOmitted | config.go:70 | `NewConfig()` holds an allocated empty `Authentication` map and writes no "authentication" key |
| Emission.DefaultMetaDataOmitted | config.go:91 | `NewConfig()` holds an allocated empty `MetaData` map and writes no "metaData" key |
| Emission.DefaultHttpClientOmitted | config.go:97 | `NewConfig()` holds an allocated empty `DefaultHttpClient` map and writes no "defaultHttpClient" key |
| Emission.SidebarEmission | config.go:37 | after `WithSidebar(show)`, "showSidebar" is written exactly when `show` holds |
| Emission.DeveloperToolsEmission | config.go:62 | after `WithDeveloperTools`, "showDeveloperTools" is always written |
| Emission.ContentEmission | config.go:10 | after `WithContent`, "content" is written, even for the empty string |
| Emission.VariableEmission | config.go:30 | after `WithVariable`, "variables" is written |
| Emission.ServerEmission | config.go:77 | after `WithServer`, "servers" is written |
| Emission.SourceEmission | config.go:85 | after `WithSource`, "sources" is written |
| Emission.PluginEmission | config.go:147 | after `WithPlugin`, "plugins" is written |
| Emission.AuthenticationEmission | config.go:70 | after `WithAuthentication(m)`, "authentication" is written exactly when `m` is non-nil and non-empty |
| Emission.PathRoutingEmission | config.go:78 | after `WithPathRouting(m)`, "pathRouting" is written exactly when `m` is non-nil and non-empty |
| Emission.MetaDataEmission | config.go:91 | after `WithMetaData(m)`, "metaData" is written exactly when `m` is non-nil and non-empty |
| Emission.HttpClientEmission | config.go:97 | after `WithDefaultHttpClient(m)`, "defaultHttpClient" is written exactly when `m` is non-nil and non-empty |
| Emission.ServerAlwaysEmitsUrl | config.go:155-157 | a server always writes "url"; one with no description and no variables writes only "url" |
| Emission.PluginAlwaysEmitsName | config.go:177-179 | a plugin always writes "name"; one with no config that is not enabled writes only "name" |
| Emission.EmptySourceEmitsNothing | config.go:165-169 | a source whose fields are all empty writes no key |
| Emission.ChainPluginsEmitted | config.go:147 | after any chain "plugins" is written exactly when the config already held a plugin or the chain calls `WithPlugin` (config.go:532-535) |
| Emission.ChainSourcesEmitted | config.go:85 | after any chain "sources" is written exactly when the config already held a source or the chain calls `WithSource` (config.go:407-410) |
| Emission.ChainServersEmitted | config.go:77 | after any chain "servers" is written exactly when the config already held a server or the chain calls `WithServer` (config.go:256-262) |
| Emission.ChainVariablesEmitted | config.go:30 | after any chain "variables" is written exactly when the map already had a key or the chain calls `WithVariable` (config.go:247-253) |
| Emission.ChainHideMethodsEmitted | config.go:38 | after any chain "hideMethods" is written exactly when the flag was set or the chain calls `HideHTTPMethods` (config.go:293-296) |
| Scenarios.TitleThemeChain | config.go:211-226 | `NewConfig().WithTitle("A").WithTheme("moon")` differs from `NewConfig()` in the title and the theme only |
| Scenarios.DocsFirstSetters | config.go:199-226 | URL, title and theme setters on `NewConfig()` change exactly those three fields |
| Scenarios.DocsLastSetters | config.go:247-280 | `WithSidebar(false)` then `WithVariable("--brand", "#123456")` clear the sidebar flag and bind one variable, nothing else |
| Scenarios.DocsChain | config.go:199-280 | the five-setter chain builds exactly the expected configuration |
| Scenarios.DocsEmitsSetStrings | config.go:9-25 | its JSON holds "url", "title" and "theme" |
| Scenarios.DocsEmitsVariables | config.go:30 | its JSON holds "variables", bound to `{"--brand": "#123456"}` |
| Scenarios.DocsEmitsDefaultStrings | config.go:11-26 | its JSON keeps the default "proxyUrl" and "layout" |
| Scenarios.DocsEmitsDeveloperTools | config.go:62 | its JSON keeps "showDeveloperTools" with the default "always" |
| Scenarios.DocsEmitsInteractive | config.go:63 | its JSON keeps "interactive" |
| Scenarios.DocsOmitsSidebar | config.go:37 | its JSON has no "showSidebar" key: false is dropped by `omitempty` |
| Renderer.Project | scalarui.go:70-78 | the template data copies title, description, favicon, custom CSS, variables and hot-reload URL from the config, and carries the marshalled JSON |
| Renderer.ProjectSeesOnlyItsFields | scalarui.go:70-78 | configurations that agree on those six fields give the same template data |
| Renderer.RenderedPage | scalarui.go:62-92 | the page is returned with a nil error exactly when marshal, parse and execute all succeed, and it is what execute wrote; every error comes with "" |
| Renderer.MarshalFailureStops | scalarui.go:64-67 | a marshalling error is returned with "" and the result does not depend on parse or execute |
| Renderer.ParseFailureStops | scalarui.go:81-84 | a parse error is returned with "" and the result does not depend on execute |
| Renderer.NoPartialOutput | scalarui.go:86-89 | when execute fails, whatever it wrote into the buffer is dropped and its error returned with "" |
| Renderer.RenderSeesJsonAndProjection | scalarui.go:62-92 | the result depends on the configuration only through its marshalled JSON and the six projected fields |
| Renderer.RenderTemplate | scalarui.go:62-92 | the step-by-step buffer version returns exactly `RenderedPage` of the config's current value |
| Renderer.ScalarUI.constructor | scalarui.go:32-39 | `New(c)` stores `c`; `New(nil)` stores a fresh config equal to `NewConfig()` |
| Renderer.ScalarUI.WithDefaults | scalarui.go:42-44 | `NewWithDefaults()` stores a fresh config equal to `NewConfig()` |
| Renderer.ScalarUI.GetConfig | scalarui.go:52-54 | the stored configuration reference, as it is, nil included |
| Renderer.ScalarUI.SetConfig | scalarui.go:47-54 | after `SetConfig(c)`, `GetConfig()` returns `c` |
| Renderer.ScalarUI.Render | scalarui.go:57-59 | `Render()` returns exactly `renderTemplate` of the current configuration |

## Left out

- The bytes of `json.MarshalIndent` (indentation, key order, HTML escaping of `<`, `>` and `&`): the encoder is an opaque function of the configuration value; only which top-level keys appear is modelled, through the `omitempty` rule.
- `html/template` parsing, contextual escaping and the no-double-escape behaviour of `template.JS`, and the embedded `template.html`: the parser and executor are opaque functions, and the template text is a parameter.
- When the encoder fails: the model allows any failure, including for configurations the real encoder accepts.
- demo/main.go (HTTP routing, CORS headers, file serving, the hot-reload timestamp from the clock, the listener): not part of this model.
- Concurrency between `Render` and the setters: the code has no synchronisation and the model is sequential.
- The multi-source "default" selection and any precedence among URL, content and sources: no code implements either; `SourceConfig.Default` is only a field.
- The runtime meaning of callback, slug-generator, sorter and redirect values: they are opaque `JsonValue` options passed through unchanged.
- Renderer.ScalarUI.Render: requires a non-nil configuration. The code accepts `SetConfig(nil)`, and `Render` then panics when it reads `config.Title` after marshalling; the model excludes that call instead of modelling the panic.
- Emission: key presence is stated field by field for the fields the setters and defaults touch, not as one statement over all sixty fields at once.
- Sharing of Go maps and slices: maps and slices are values in the model. `WithAuthentication`, `WithPathRouting`, `WithMetaData` and `WithDefaultHttpClient` store the caller's map itself (config.go:266, 402, 414, 420), so a later change to that map by the caller shows in the config; the model stores a snapshot. `WithVariable` updates the map in place (config.go:251), which a shallow copy of the `Config` struct shares; the model does not capture that. `WithServer`, `WithSource` and `WithPlugin` use `append` (config.go:257, 408, 533), which can write into a backing array that another copy of the slice shares; the model only appends to its own list. The sharing of the `Config` object itself between callers and `ScalarUI` is modelled: it is a class.
- Nil and empty slices are not told apart: nothing in the code distinguishes them, and `omitempty` drops both.
