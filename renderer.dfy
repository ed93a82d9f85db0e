/**
 * The instance wrapper and the render pipeline (scalarui.go).
 *
 * `renderTemplate` marshals the configuration, projects a few of its fields
 * into `TemplateData`, parses the embedded HTML template and executes it into
 * a buffer, stopping at the first error. The JSON encoder and the template
 * engine are library code: they are fields of an `Environment`, opaque
 * functions that return a value or an error. Only the projection, the order
 * of the steps and the short-circuiting on errors are modelled exactly.
 */
module Renderer {
  import opened Wrappers
  import opened Configuration

  /** An error value returned by the encoder or the template engine. */
  datatype Error = Error(message: string)

  /** The data handed to the template: six config fields and the marshalled JSON. */
  datatype TemplateData = TemplateData(
    title: string,
    description: string,
    favicon: string,
    customCss: string,
    variables: Option<map<string, string>>,
    configJson: string,
    hotReloadUrl: string)

  /**
   * What one `Execute` call does to the buffer: the text it wrote, possibly
   * only part of the page, and the error that stopped it, if any.
   */
  datatype Execution = Execution(written: string, failure: Option<Error>)

  /**
   * The library calls `renderTemplate` makes, and the embedded template text.
   * `marshalIndent` is `json.MarshalIndent(config, "", "    ")` as text,
   * `parse(name, text)` is `template.New(name).Parse(text)`, and `execute`
   * is `tmpl.Execute(&buf, data)`.
   */
  datatype Environment<!Tmpl> = Environment(
    marshalIndent: ConfigValue -> Result<string, Error>,
    parse: (string, string) -> Result<Tmpl, Error>,
    execute: (Tmpl, TemplateData) -> Execution,
    htmlTemplate: string)

  /** The name given to the parsed template. */
  const TemplateName := "scalar"

  /** The pair `(string, error)` that `Render` returns; `err == None` is a nil error. */
  datatype RenderResult = RenderResult(html: string, err: Option<Error>)

  /** The template data built from a configuration and its marshalled JSON. */
  function Project(s: ConfigValue, json: string): (d: TemplateData)
    ensures d.title == s.display.title && d.description == s.display.description
    ensures d.favicon == s.display.favicon && d.customCss == s.appearance.customCss
    ensures d.variables == s.appearance.variables && d.hotReloadUrl == s.basic.hotReloadUrl
    ensures d.configJson == json
  {
    TemplateData(
      s.display.title, s.display.description, s.display.favicon,
      s.appearance.customCss, s.appearance.variables, json, s.basic.hotReloadUrl)
  }

  /** Which configuration fields the template sees: two configs that agree on them give the same data. */
  lemma ProjectSeesOnlyItsFields(s: ConfigValue, t: ConfigValue, json: string)
    requires s.display == t.display && s.basic.hotReloadUrl == t.basic.hotReloadUrl
    requires s.appearance.customCss == t.appearance.customCss
    requires s.appearance.variables == t.appearance.variables
    ensures Project(s, json) == Project(t, json)
  {
  }

  /**
   * The result of `renderTemplate` on the configuration value `s`. The page
   * is returned only when all three steps succeed; every error comes with
   * the empty string, never with part of the page.
   */
  function RenderedPage<Tmpl>(env: Environment<Tmpl>, s: ConfigValue): (r: RenderResult)
    ensures r.err.Some? ==> r.html == ""
    ensures r.err.None? <==>
      env.marshalIndent(s).Success? && env.parse(TemplateName, env.htmlTemplate).Success? &&
      env.execute(env.parse(TemplateName, env.htmlTemplate).value, Project(s, env.marshalIndent(s).value)).failure.None?
    ensures r.err.None? ==>
      r.html == env.execute(env.parse(TemplateName, env.htmlTemplate).value, Project(s, env.marshalIndent(s).value)).written
  {
    match env.marshalIndent(s)
    case Failure(e) => RenderResult("", Some(e))
    case Success(json) =>
      match env.parse(TemplateName, env.htmlTemplate)
      case Failure(e) => RenderResult("", Some(e))
      case Success(tmpl) =>
        var run := env.execute(tmpl, Project(s, json));
        if run.failure.Some? then RenderResult("", run.failure) else RenderResult(run.written, None)
  }

  /**
   * A marshalling error is returned as it is, and neither parse nor execute
   * is consulted: any other template engine gives the same result.
   */
  lemma MarshalFailureStops<Tmpl, Other>(env: Environment<Tmpl>, other: Environment<Other>, s: ConfigValue)
    requires env.marshalIndent(s).Failure?
    requires other.marshalIndent(s) == env.marshalIndent(s)
    ensures RenderedPage(env, s) == RenderResult("", Some(env.marshalIndent(s).error))
    ensures RenderedPage(other, s) == RenderedPage(env, s)
  {
  }

  /** A parse error is returned as it is, and execute is not consulted. */
  lemma ParseFailureStops<Tmpl>(env: Environment<Tmpl>, other: Environment<Tmpl>, s: ConfigValue)
    requires env.marshalIndent(s).Success?
    requires env.parse(TemplateName, env.htmlTemplate).Failure?
    requires other.marshalIndent(s) == env.marshalIndent(s)
    requires other.parse(TemplateName, other.htmlTemplate) == env.parse(TemplateName, env.htmlTemplate)
    ensures RenderedPage(env, s) == RenderResult("", Some(env.parse(TemplateName, env.htmlTemplate).error))
    ensures RenderedPage(other, s) == RenderedPage(env, s)
  {
  }

  /** Whatever an execution that fails has already written is dropped. */
  lemma NoPartialOutput<Tmpl>(env: Environment<Tmpl>, s: ConfigValue, tmpl: Tmpl)
    requires env.marshalIndent(s).Success?
    requires env.parse(TemplateName, env.htmlTemplate) == Success(tmpl)
    requires env.execute(tmpl, Project(s, env.marshalIndent(s).value)).failure.Some?
    ensures RenderedPage(env, s).html == ""
    ensures RenderedPage(env, s).err == env.execute(tmpl, Project(s, env.marshalIndent(s).value)).failure
  {
  }

  /**
   * The page depends on the configuration only through its marshalled JSON
   * and the fields the template data copies.
   */
  lemma RenderSeesJsonAndProjection<Tmpl>(env: Environment<Tmpl>, s: ConfigValue, t: ConfigValue)
    requires env.marshalIndent(s) == env.marshalIndent(t)
    requires s.display == t.display && s.basic.hotReloadUrl == t.basic.hotReloadUrl
    requires s.appearance.customCss == t.appearance.customCss
    requires s.appearance.variables == t.appearance.variables
    ensures RenderedPage(env, s) == RenderedPage(env, t)
  {
    if env.marshalIndent(s).Success? {
      ProjectSeesOnlyItsFields(s, t, env.marshalIndent(s).value);
    }
  }

  /**
   * `renderTemplate`: marshal, build the data, parse, execute into a buffer,
   * returning `""` with the first error.
   */
  method RenderTemplate<Tmpl>(config: Config, env: Environment<Tmpl>) returns (html: string, err: Option<Error>)
    ensures RenderResult(html, err) == RenderedPage(env, config.Value())
  {
    var marshalled := env.marshalIndent(config.Value());
    if marshalled.Failure? {
      return "", Some(marshalled.error);
    }
    var data := TemplateData(
      config.display.title, config.display.description, config.display.favicon,
      config.appearance.customCss, config.appearance.variables,
      marshalled.value, config.basic.hotReloadUrl);
    var parsed := env.parse(TemplateName, env.htmlTemplate);
    if parsed.Failure? {
      return "", Some(parsed.error);
    }
    var buf := "";
    var run := env.execute(parsed.value, data);
    buf := buf + run.written;
    if run.failure.Some? {
      return "", run.failure;
    }
    return buf, None;
  }

  /** A configured instance: one mutable reference to a `Config`. */
  class ScalarUI {
    var config: Config?

    /** The configuration `GetConfig` returns. */
    function GetConfig(): Config?
      reads this
    {
      config
    }

    /** `New(config)`: a nil config is replaced by a fresh `NewConfig()`. */
    constructor (config: Config?)
      ensures config != null ==> GetConfig() == config
      ensures config == null ==> GetConfig() != null && fresh(GetConfig()) && GetConfig().Value() == Defaults()
    {
      if config == null {
        var c := new Config();
        this.config := c;
      } else {
        this.config := config;
      }
    }

    /** `NewWithDefaults()`, which is `New(NewConfig())`. */
    constructor WithDefaults()
      ensures GetConfig() != null && fresh(GetConfig()) && GetConfig().Value() == Defaults()
    {
      var c := new Config();
      config := c;
    }

    /** `SetConfig(config)`: `GetConfig` returns it from now on; nil is stored as given. */
    method SetConfig(config: Config?)
      modifies this
      ensures GetConfig() == config
    {
      this.config := config;
    }

    /**
     * `Render()`: `renderTemplate` on the current configuration. The source
     * dereferences the config after marshalling it, so a nil config stored
     * by `SetConfig(nil)` is a panic there; here it is excluded.
     */
    method Render<Tmpl>(env: Environment<Tmpl>) returns (html: string, err: Option<Error>)
      requires GetConfig() != null
      ensures RenderResult(html, err) == RenderedPage(env, GetConfig().Value())
    {
      html, err := RenderTemplate(config, env);
    }
  }
}
