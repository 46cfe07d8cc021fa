# swig-webpack-plugin, modelled in Dafny

A model of the webpack plugin in `index.js`. When webpack emits its assets, the plugin does four things:

- it builds a parameter object from the build statistics;
- it picks its template source (inline `templateContent` or a `template` file);
- it renders the template with the swig engine and may pretty-print or minify the HTML;
- it registers the result as an output asset on the compilation.

The plugin reports problems on the compilation's error list and never throws them. It calls the hook's completion callback exactly once, provided `path.join` and the libraries it calls do not throw.

Modules, one per concern of `index.js`:

- `Wrappers`: `Option`, which stands for a JavaScript property that may be undefined.
- `Config`: the plugin options, JavaScript truthiness of optional strings (defined and non-empty), and the `filename || 'index.html'` default.
- `Webpack`: the host entities the plugin touches.
  - `ChunkValue`: an `assetsByChunkName` entry, either one file or an array of files.
  - `Stats`: the statistics snapshot.
  - `Asset`: an output asset with its `source` and `size`. The size is JavaScript's `length` of the source, which counts UTF-16 code units (`Utf16Length`).
  - class `Compilation`: mutable `errors`, `fileDependencies` and `assets`.
  - class `CompletionCallback`: counts its calls.
- `ChunkAssets`: `swigWebpackPluginAssets`, written as a loop over the chunk names. It is specified by a reference predicate `IsChunkAssetMap`, `ChunkAssetMap`'s contract shows that some map meets that predicate, and `ChunkAssetMapUnique` shows that at most one does.
- `Formatter`: `htmlFormatter`, a pure function. The beautifier and the minifier are passed in as function parameters, each with the settings the plugin hands them (`indentSize: 2`, `collapseWhitespace: true`).
- `Plugin`: the class `SwigWebpackPlugin` and its two imperative members.
  - `OnEmit` is the `'emit'` handler.
  - `EmitHtml` is `emitHtml`.
  - Both are proved against pure specifications: `EmitResult` (what one run of the handler adds), `RenderHtml` and `StoreHtml`.

The libraries the plugin calls are parameters of the model, bundled in `Plugin.Engines`: swig's `compileFile` and `compile`, js-beautify and html-minifier. The handler also takes two values from its environment as inputs:

- `templateFile`: the path that `path.join(this.context, options.template)` produced;
- `read`: the outcome of `fs.readFile`.

The asynchronous read is modelled as a synchronous step that is given this outcome.

What `index.js` does and does not do:

- It has no glob expansion of `template`, no `watch` option and no `extensions` grouping. In file mode it writes at most one asset, named by `filename`, and none when the read fails.
- The public path is read from the compilation's `options.output.publicPath`.
- An array of files is reduced to its first element. No other file of the array is recorded.

## Model

| member | source | states |
|---|---|---|
| `Config.OutputFilename` | index.js:22 | the output name is `filename` when that is truthy, otherwise `index.html`; it is never empty |
| `Plugin.SwigWebpackPlugin.constructor` | index.js:8-10 | the plugin keeps the given options, or the empty options when none are given |
| `ChunkAssets.SwigWebpackPluginAssets` | index.js:83-101 | the result has exactly the keys of `assetsByChunkName`, and each value is computed from that chunk's own value; an array entry maps to its first element only, and a single file maps to itself; a truthy public path is prepended, and with no public path the file is unchanged |
| `ChunkAssets.ChunkAssetMapUnique` | index.js:84-100 | any two maps that meet the reference description are equal, so the contents of the loop's result do not depend on the order it visits the chunks |
| `ChunkAssets.ChunkAssetIsLocal` | index.js:85-97 | a chunk's entry depends only on that chunk's own value: two snapshots that agree on a chunk give it the same file |
| `Formatter.HtmlFormatter` | index.js:71-81 | with `beautify` set the result is the input beautified with the settings `{indentSize: 2}`, whatever `uglify` says; with only `uglify` set it is the input minified with the settings `{collapseWhitespace: true}`; with neither it is the input unchanged |
| `Formatter.BeautifyTakesPrecedence` | index.js:72-77 | when `beautify` is set, switching `uglify` on or off does not change the output |
| `Plugin.TemplatePath` | index.js:31-34 | the template path used in file mode is never empty, and it equals the resolved path whenever that is non-empty |
| `Plugin.Params` | index.js:15-20 | the parameter object carries the modelled statistics snapshot (`assetsByChunkName` only), the five modelled plugin options, and a chunk-asset map that meets the reference description |
| `Plugin.RenderHtml` | index.js:50-60 | a truthy template file is compiled from the file in preference to inline content; the rendered text is passed through the formatter with the plugin's options |
| `Plugin.StoreHtml` | index.js:61-68 | the registry gains or overwrites exactly the entry for the output name; that entry's size is the JavaScript length of its source, in UTF-16 code units; every other entry is unchanged |
| `Plugin.EmitResult` | index.js:14-46 | every run reports exactly one error or writes exactly one asset, never both; an asset is always named `filename` or `index.html`; if both `templateContent` and `template` are set, the run reports the conflict error and adds no dependency and no asset; with inline content only, it writes one asset rendered from the content, with no error and no dependency; in file mode the template path is added as a dependency whatever the read outcome, a read failure reports exactly the read error for that path, and a successful read writes one asset rendered from the file |
| `Plugin.SwigWebpackPlugin.EmitHtml` | index.js:49-69 | the compilation's asset registry becomes the old one with the rendered HTML stored under the output name; the errors and dependencies are not touched |
| `Plugin.SwigWebpackPlugin.OnEmit` | index.js:14-46 | the compilation's errors and dependencies grow by exactly what `EmitResult` lists; its assets change only by that outcome's emission; the completion callback is called exactly once on every path, provided the libraries do not throw |
| `Webpack.Utf16Length` | index.js:65-67 | the JavaScript length of a string lies between its character count and twice that; it equals the character count when no character lies outside the Basic Multilingual Plane, and exceeds it otherwise |
| `Webpack.CompletionCallback.Call` | index.js:26 | each call of the callback raises the call count by one |

## Left out

- Hook registration: `compiler.plugin('emit', …)` (index.js:14) is not modelled. `OnEmit` is the handler itself.
- `getStats().toJson()` is not modelled. The snapshot is a fixed field of `Compilation`, and only `assetsByChunkName` is modelled in it, so templates see nothing else of the snapshot.
- Plugin.Params: only the five options the plugin reads (`template`, `templateContent`, `filename`, `beautify`, `uglify`) are modelled, and the two flags only by their truthiness. The source passes the user's whole options object to templates (index.js:20), including keys the plugin never reads. In the model, templates are functions of those five fields only, so two configurations that differ only in another key give the same asset.
- `path.join` is not modelled. The resolved template path is an input of `OnEmit`.
  - The `if (!templateFile)` fallback is modelled. `DefaultTemplate` stands for the bundled `template/index.html` in the plugin's directory.
  - When `template` is undefined in file mode, Node's `path.join` throws, and the callback is then never called. The model does not capture that crash. It carries on in file mode with the given `templateFile` instead.
- `fs.readFile` is not modelled. Its outcome is an input, and its asynchronous timing is not modelled. The source ignores the content it reads, because `swig.compileFile` reads the file again. The model ignores it too.
- swig, js-beautify and html-minifier are function parameters and their output is not described. The global `swig.setDefaults({cache: false})` is not modelled, and neither is the `String(html)` coercion before minifying.
- The libraries are assumed not to throw. In the source, a template syntax error or a missing file makes `swig.compile` (index.js:55), `swig.compileFile` (index.js:53) or the compiled template (index.js:59) throw, and `uglify.minify` (index.js:77) throws on HTML it cannot parse. The exception then escapes before `callback()` (index.js:29 or index.js:43), and the callback is never called. The exactly-once promise of `OnEmit` holds only for libraries that return normally.
- The key order of `assetsByChunkName` and of the derived `swigWebpackPlugin.assets` is not modelled. The `for…in` loop (index.js:85) visits chunks in property order and inserts them in that order (index.js:97), and a template that iterates over the assets sees that order. Both objects are modelled as `map`s, so templates are treated as functions of the map contents only.
- `console.log` in `htmlFormatter` is not modelled. It is a side effect with no effect on the output.
- The third branch of `emitHtml` (index.js:56-58) is not modelled. It reports "cannot find a templateFile or templateContent" and then crashes calling an undefined template. Every caller passes a truthy file or truthy content, so `EmitHtml` requires that instead.
- `ChunkAssets.SwigWebpackPluginAssets` requires every array in `assetsByChunkName` to be non-empty. For an empty array the source would go on with `undefined` and JavaScript string coercion, and the model does not capture that.
- Chunk values are strings or arrays of strings. Other JavaScript values are not modelled.
- Errors are modelled as their message strings, not as `Error` objects.
