/**
 * The plugin's configuration object and the JavaScript truthiness tests
 * the plugin applies to its string-valued options.
 */
module Config {
  import opened Wrappers

  /**
   * The options the plugin reads. A string option that is absent is None;
   * `beautify` and `uglify` are only ever tested for truthiness, so an
   * absent flag is `false`.
   */
  datatype Options = Options(
    template: Option<string>,
    templateContent: Option<string>,
    filename: Option<string>,
    beautify: bool,
    uglify: bool)

  /** The empty object `{}` the constructor falls back to. */
  const NoOptions := Options(None, None, None, false, false)

  /** The output name used when `filename` is not truthy. */
  const DefaultFilename := "index.html"

  /** JavaScript truthiness of an optional string: defined and not empty. */
  predicate Truthy(s: Option<string>) {
    s.Some? && s.value != ""
  }

  /** `options.filename || 'index.html'`. */
  function OutputFilename(options: Options): (name: string)
    ensures name != ""
    ensures Truthy(options.filename) ==> name == options.filename.value
    ensures !Truthy(options.filename) ==> name == DefaultFilename
  {
    if Truthy(options.filename) then options.filename.value else DefaultFilename
  }
}
