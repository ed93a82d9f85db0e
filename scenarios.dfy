/**
 * Two example fluent chains on top of `NewConfig()`, chosen for this model,
 * stated on the value they build and on the keys of its JSON object.
 */
module Scenarios {
  import opened Wrappers
  import opened Configuration
  import opened Builder
  import opened Emission

  /** `NewConfig().WithTitle("A").WithTheme("moon")` as a chain of setters. */
  function TitleThemeOps(): seq<Setter>
  {
    [OnDisplay(WithTitle("A")), OnAppearance(WithTheme("moon"))]
  }

  /** The chain sets the title and the theme and leaves every other field at its default. */
  lemma TitleThemeChain()
    ensures Chain(Defaults(), TitleThemeOps()) ==
      Defaults().(display := Defaults().display.(title := "A"),
                  appearance := Defaults().appearance.(theme := "moon"))
  {
    var d := Defaults();
    var s1 := Apply(d, OnDisplay(WithTitle("A")));
    assert Chain(d, TitleThemeOps()) == Chain(s1, [OnAppearance(WithTheme("moon"))]);
    var s2 := Apply(s1, OnAppearance(WithTheme("moon")));
    assert Chain(s1, [OnAppearance(WithTheme("moon"))]) == Chain(s2, []);
  }

  /** A URL, a title, a theme, the sidebar hidden and one CSS variable, on top of `NewConfig()`. */
  function DocsOps(): seq<Setter>
  {
    [ OnBasic(WithURL("https://x/openapi.yaml")),
      OnDisplay(WithTitle("Docs")),
      OnAppearance(WithTheme("purple")),
      OnVisibility(WithSidebar(false)),
      OnAppearance(WithVariable("--brand", "#123456")) ]
  }

  /** The value `DocsOps` is expected to build. */
  function DocsConfig(): ConfigValue
  {
    var d := Defaults();
    d.(basic := d.basic.(url := "https://x/openapi.yaml"),
       display := d.display.(title := "Docs"),
       appearance := d.appearance.(theme := "purple", variables := Some(map["--brand" := "#123456"])),
       visibility := d.visibility.(showSidebar := false))
  }

  /** The state after the first three setters of `DocsOps`. */
  function DocsHalfway(): ConfigValue
  {
    var d := Defaults();
    d.(basic := d.basic.(url := "https://x/openapi.yaml"),
       display := d.display.(title := "Docs"),
       appearance := d.appearance.(theme := "purple"))
  }

  /** URL, title and theme are set; nothing else moves. */
  lemma DocsFirstSetters()
    ensures Chain(Defaults(), DocsOps()[..3]) == DocsHalfway()
  {
    var ops := DocsOps()[..3];
    var s1 := Apply(Defaults(), ops[0]);
    var s2 := Apply(s1, ops[1]);
    assert Chain(Defaults(), ops) == Chain(s1, ops[1..]);
    assert Chain(s1, ops[1..]) == Chain(s2, ops[2..]);
    assert Chain(s2, ops[2..]) == Chain(Apply(s2, ops[2]), []);
  }

  /** The sidebar is hidden and the variable added. */
  lemma DocsLastSetters()
    ensures Chain(DocsHalfway(), DocsOps()[3..]) == DocsConfig()
  {
    var ops := DocsOps()[3..];
    var s1 := Apply(DocsHalfway(), ops[0]);
    var s2 := Apply(s1, ops[1]);
    assert Chain(DocsHalfway(), ops) == Chain(s1, ops[1..]);
    assert Chain(s1, ops[1..]) == Chain(s2, []);
    assert s2.appearance.variables == Some(map[] ["--brand" := "#123456"]);
  }

  /** The chain builds exactly `DocsConfig()`. */
  lemma DocsChain()
    ensures Chain(Defaults(), DocsOps()) == DocsConfig()
  {
    var ops := DocsOps();
    assert ops == ops[..3] + ops[3..];
    ChainConcat(Defaults(), ops[..3], ops[3..]);
    DocsFirstSetters();
    DocsLastSetters();
  }

  /** The JSON object of `DocsConfig()` holds "url", "title" and "theme". */
  lemma DocsEmitsSetStrings()
    ensures Emitted(DocsConfig(), Url) && Emitted(DocsConfig(), Title) && Emitted(DocsConfig(), Theme)
  {
  }

  /** It holds "variables", whose map now has a key. */
  lemma DocsEmitsVariables()
    ensures ValueOf(DocsConfig(), Variables) == StrMap(Some(map["--brand" := "#123456"]))
    ensures Emitted(DocsConfig(), Variables)
  {
  }

  /** It keeps the default "proxyUrl" and "layout". */
  lemma DocsEmitsDefaultStrings()
    ensures Emitted(DocsConfig(), ProxyUrl) && Emitted(DocsConfig(), Layout)
  {
  }

  /** It keeps the default "showDeveloperTools". */
  lemma DocsEmitsDeveloperTools()
    ensures ValueOf(DocsConfig(), ShowDeveloperTools) == Str("always")
    ensures Emitted(DocsConfig(), ShowDeveloperTools)
  {
  }

  /** It keeps the default "interactive". */
  lemma DocsEmitsInteractive()
    ensures ValueOf(DocsConfig(), Interactive) == Flag(true)
    ensures Emitted(DocsConfig(), Interactive)
  {
  }

  /**
   * It does not hold "showSidebar": `WithSidebar(false)` stores false and the
   * tag's `omitempty` drops it, so the key is absent rather than `false`.
   */
  lemma DocsOmitsSidebar()
    ensures ValueOf(DocsConfig(), ShowSidebar) == Flag(false)
    ensures !Emitted(DocsConfig(), ShowSidebar)
  {
  }
}
