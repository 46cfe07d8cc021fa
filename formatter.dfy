/**
 * `htmlFormatter`: optional post-processing of rendered HTML. The
 * beautifier and the minifier are libraries outside the model and are
 * passed in as functions of the text and the settings the plugin uses.
 */
module Formatter {
  import opened Config

  /** The settings passed to js-beautify. */
  datatype BeautifyOptions = BeautifyOptions(indentSize: nat)
  /** The settings passed to html-minifier. */
  datatype MinifyOptions = MinifyOptions(collapseWhitespace: bool)

  /** `{indentSize: 2}`. */
  const BeautifySettings := BeautifyOptions(2)
  /** `{collapseWhitespace: true}`. */
  const MinifySettings := MinifyOptions(true)

  /** `htmlFormatter(options, html)`: `beautify` is tested first, then `uglify`. */
  function HtmlFormatter(options: Options, html: string,
                         beautify: (string, BeautifyOptions) -> string,
                         minify: (string, MinifyOptions) -> string): (r: string)
    ensures options.beautify ==> r == beautify(html, BeautifySettings)
    ensures !options.beautify && options.uglify ==> r == minify(html, MinifySettings)
    ensures !options.beautify && !options.uglify ==> r == html
  {
    if options.beautify then beautify(html, BeautifySettings)
    else if options.uglify then minify(html, MinifySettings)
    else html
  }

  /** With `beautify` set, the `uglify` flag has no effect on the output. */
  lemma BeautifyTakesPrecedence(options: Options, html: string,
                                beautify: (string, BeautifyOptions) -> string,
                                minify: (string, MinifyOptions) -> string)
    requires options.beautify
    ensures HtmlFormatter(options.(uglify := true), html, beautify, minify)
         == HtmlFormatter(options.(uglify := false), html, beautify, minify)
         == beautify(html, BeautifySettings)
  {
  }
}
