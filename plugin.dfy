/**
 * The plugin object: its options, the emit-hook handler registered by
 * `apply`, and `emitHtml`, which renders a template and registers the
 * result as an asset. The templating engine, the beautifier and the
 * minifier are outside the model and are passed in as `Engines`.
 */
module Plugin {
  import opened Wrappers
  import opened Config
  import opened Webpack
  import opened ChunkAssets
  import opened Formatter

  /** `templateParams.swigWebpackPlugin`: the derived chunk-asset map and the options. */
  datatype PluginView = PluginView(assets: map<string, string>, options: Options)

  /** The object every template is rendered with. */
  datatype TemplateParams = TemplateParams(webpack: Stats, swigWebpackPlugin: PluginView)

  /**
   * The libraries the plugin calls: `swig.compileFile` and `swig.compile`
   * (each yields a template, applied to the parameters), the HTML beautifier
   * and the HTML minifier.
   */
  datatype Engines = Engines(
    compileFile: string -> TemplateParams -> string,
    compile: string -> TemplateParams -> string,
    beautify: (string, BeautifyOptions) -> string,
    minify: (string, MinifyOptions) -> string)

  /** What the asynchronous `fs.readFile(templateFile, 'utf8', …)` reports. */
  datatype ReadResult = ReadOk(content: string) | ReadFailed

  /** An asset the handler writes: its name and the HTML it holds. */
  datatype Emission = Emission(name: string, html: string)

  /** Everything one run of the emit handler adds to the compilation. */
  datatype EmitOutcome = EmitOutcome(errors: seq<string>, dependencies: seq<string>, emitted: Option<Emission>)

  const ConflictError := "SwigWebpackPlugin: cannot specify both template and templateContent options."

  /** The message reported when the template file cannot be read. */
  function ReadError(templateFile: string): (message: string) {
    "SwigWebpackPlugin: Unable to read HTML template \"" + templateFile + "\""
  }

  /** The bundled template `template/index.html` in the plugin's own directory. */
  const DefaultTemplate := "template/index.html"

  /** The template file used in file mode: the resolved path, or the bundled template when that is empty. */
  function TemplatePath(resolved: string): (path: string)
    ensures path != ""
    ensures resolved != "" ==> path == resolved
  {
    if resolved == "" then DefaultTemplate else resolved
  }

  /** The parameter object built at the start of the handler. */
  ghost function Params(options: Options, stats: Stats, publicPath: Option<string>): (params: TemplateParams)
    requires WellFormedChunks(stats.assetsByChunkName)
    ensures params.webpack == stats && params.swigWebpackPlugin.options == options
    ensures IsChunkAssetMap(stats.assetsByChunkName, publicPath, params.swigWebpackPlugin.assets)
  {
    TemplateParams(stats, PluginView(ChunkAssetMap(stats.assetsByChunkName, publicPath), options))
  }

  /**
   * The HTML `emitHtml` stores: a truthy template file is compiled from the
   * file, otherwise the inline content is compiled; the rendered text is then
   * formatted with the options held in the parameters.
   */
  function RenderHtml(engines: Engines, htmlTemplateFile: Option<string>, htmlTemplateContent: Option<string>,
                      params: TemplateParams): (html: string)
    requires Truthy(htmlTemplateFile) || Truthy(htmlTemplateContent)
    ensures Truthy(htmlTemplateFile) ==>
      html == HtmlFormatter(params.swigWebpackPlugin.options, engines.compileFile(htmlTemplateFile.value)(params),
                            engines.beautify, engines.minify)
    ensures !Truthy(htmlTemplateFile) ==>
      html == HtmlFormatter(params.swigWebpackPlugin.options, engines.compile(htmlTemplateContent.value)(params),
                            engines.beautify, engines.minify)
  {
    var rendered := if Truthy(htmlTemplateFile) then engines.compileFile(htmlTemplateFile.value)(params)
                    else engines.compile(htmlTemplateContent.value)(params);
    HtmlFormatter(params.swigWebpackPlugin.options, rendered, engines.beautify, engines.minify)
  }

  /**
   * The registry after `assets[name] = {source, size}`: the entry `name` is
   * added or overwritten, its size is the length of its source, and every
   * other entry is kept.
   */
  function StoreHtml(assets: map<string, Asset>, name: string, html: string): (r: map<string, Asset>)
    ensures r.Keys == assets.Keys + {name}
    ensures r[name].source == html && r[name].size == Utf16Length(r[name].source)
    ensures forall other :: other in assets && other != name ==> r[other] == assets[other]
  {
    assets[name := Asset(html, Utf16Length(html))]
  }

  /**
   * What the emit handler does, as a value: a conflict reports one error;
   * inline content writes one asset; otherwise the template file becomes a
   * dependency and either its read fails (one error) or one asset is written.
   */
  ghost function EmitResult(options: Options, stats: Stats, publicPath: Option<string>, templateFile: string,
                            read: ReadResult, engines: Engines): (r: EmitOutcome)
    requires WellFormedChunks(stats.assetsByChunkName)
    // every path reports exactly one error or writes exactly one asset, never both
    ensures |r.errors| <= 1 && (|r.errors| == 1 <==> r.emitted.None?)
    // an asset is always written under `filename`, or `index.html`
    ensures r.emitted.Some? ==> r.emitted.value.name == OutputFilename(options)
    ensures Truthy(options.templateContent) && Truthy(options.template) ==>
      r.errors == [ConflictError] && r.dependencies == [] && r.emitted.None?
    ensures Truthy(options.templateContent) && !Truthy(options.template) ==>
      && r.errors == [] && r.dependencies == []
      && r.emitted == Some(Emission(OutputFilename(options),
           RenderHtml(engines, None, options.templateContent, Params(options, stats, publicPath))))
    ensures !Truthy(options.templateContent) ==>
      && r.dependencies == [TemplatePath(templateFile)]
      && (read.ReadFailed? <==> r.errors == [ReadError(TemplatePath(templateFile))])
      && (read.ReadOk? ==> r.emitted == Some(Emission(OutputFilename(options),
           RenderHtml(engines, Some(TemplatePath(templateFile)), None, Params(options, stats, publicPath)))))
  {
    var params := Params(options, stats, publicPath);
    var name := OutputFilename(options);
    if Truthy(options.templateContent) && Truthy(options.template) then
      EmitOutcome([ConflictError], [], None)
    else if Truthy(options.templateContent) then
      EmitOutcome([], [], Some(Emission(name, RenderHtml(engines, None, options.templateContent, params))))
    else
      var file := TemplatePath(templateFile);
      match read
      case ReadFailed => EmitOutcome([ReadError(file)], [file], None)
      case ReadOk(_) => EmitOutcome([], [file], Some(Emission(name, RenderHtml(engines, Some(file), None, params))))
  }

  /** The registry after an outcome: unchanged, or with the one emitted asset stored. */
  function ApplyEmission(assets: map<string, Asset>, emitted: Option<Emission>): (r: map<string, Asset>) {
    match emitted
    case None => assets
    case Some(e) => StoreHtml(assets, e.name, e.html)
  }

  class SwigWebpackPlugin {
    const options: Options

    /** `this.options = options || {}`. */
    constructor (options: Option<Options>)
      ensures this.options == options.GetOr(NoOptions)
    {
      this.options := options.GetOr(NoOptions);
    }

    /**
     * `emitHtml(compiler, htmlTemplateFile, htmlTemplateContent, templateParams, outputFilename)`.
     * Every caller passes a truthy file or truthy content.
     */
    method EmitHtml(compilation: Compilation, htmlTemplateFile: Option<string>, htmlTemplateContent: Option<string>,
                    templateParams: TemplateParams, outputFilename: string, engines: Engines)
      requires Truthy(htmlTemplateFile) || Truthy(htmlTemplateContent)
      modifies compilation`assets
      ensures compilation.assets
           == StoreHtml(old(compilation.assets), outputFilename,
                        RenderHtml(engines, htmlTemplateFile, htmlTemplateContent, templateParams))
    {
      var template: TemplateParams -> string;
      if Truthy(htmlTemplateFile) {
        template := engines.compileFile(htmlTemplateFile.value);
      } else {
        template := engines.compile(htmlTemplateContent.value);
      }
      var html := template(templateParams);
      html := HtmlFormatter(templateParams.swigWebpackPlugin.options, html, engines.beautify, engines.minify);
      compilation.assets := compilation.assets[outputFilename := Asset(html, Utf16Length(html))];
    }

    /**
     * The handler `apply` registers for `'emit'`. `templateFile` is the host's
     * `path.join(this.context, options.template)`; `read` is what reading that
     * file reports. The callback is called exactly once.
     */
    method OnEmit(compilation: Compilation, callback: CompletionCallback, templateFile: string,
                  read: ReadResult, engines: Engines)
      requires WellFormedChunks(compilation.stats.assetsByChunkName)
      modifies compilation, callback
      ensures var r := EmitResult(options, compilation.stats, compilation.outputPublicPath, templateFile, read, engines);
        && compilation.errors == old(compilation.errors) + r.errors
        && compilation.fileDependencies == old(compilation.fileDependencies) + r.dependencies
        && compilation.assets == ApplyEmission(old(compilation.assets), r.emitted)
      ensures callback.calls == old(callback.calls) + 1
    {
      var webpackStatsJson := compilation.stats;
      var assets := SwigWebpackPluginAssets(compilation.outputPublicPath, webpackStatsJson.assetsByChunkName);
      ChunkAssetMapUnique(webpackStatsJson.assetsByChunkName, compilation.outputPublicPath,
                          assets, ChunkAssetMap(webpackStatsJson.assetsByChunkName, compilation.outputPublicPath));
      var templateParams := TemplateParams(webpackStatsJson, PluginView(assets, options));
      var outputFilename := OutputFilename(options);

      if Truthy(options.templateContent) && Truthy(options.template) {
        compilation.errors := compilation.errors + [ConflictError];
        callback.Call();
      } else if Truthy(options.templateContent) {
        EmitHtml(compilation, None, options.templateContent, templateParams, outputFilename, engines);
        callback.Call();
      } else {
        var file := templateFile;
        if file == "" {
          file := DefaultTemplate;
        }
        compilation.fileDependencies := compilation.fileDependencies + [file];
        match read {
          case ReadFailed =>
            compilation.errors := compilation.errors + [ReadError(file)];
          case ReadOk(_) =>
            EmitHtml(compilation, Some(file), None, templateParams, outputFilename, engines);
        }
        callback.Call();
      }
    }
  }
}
