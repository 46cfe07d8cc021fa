/**
 * The part of the host build tool the plugin touches: the statistics
 * snapshot, the output-asset record and the compilation object whose
 * error list, dependency list and asset registry the plugin updates.
 */
module Webpack {
  import opened Wrappers

  /** One entry of `assetsByChunkName`: a single file, or an array of files
      (the build emits an array when source maps are enabled). */
  datatype ChunkValue = File(file: string) | Files(files: seq<string>)

  /** A chunk value the plugin can handle: an array must have a first element. */
  predicate WellFormedChunk(v: ChunkValue) {
    v.Files? ==> |v.files| > 0
  }

  /** Every chunk of the snapshot is well formed. */
  predicate WellFormedChunks(byChunk: map<string, ChunkValue>) {
    forall chunk :: chunk in byChunk ==> WellFormedChunk(byChunk[chunk])
  }

  /**
   * The statistics snapshot (`getStats().toJson()`). Only the chunk-to-file
   * mapping is modelled; everything else in the snapshot is left out.
   */
  datatype Stats = Stats(assetsByChunkName: map<string, ChunkValue>)

  /** An output asset: `source()` returns `source`, `size()` returns `size`. */
  datatype Asset = Asset(source: string, size: nat)

  /** A character outside the Basic Multilingual Plane, which JavaScript stores as a surrogate pair. */
  predicate IsAstral(c: char) {
    c as int > 0xFFFF
  }

  /**
   * JavaScript's `length` of a string: the number of UTF-16 code units, one
   * per character and one more per character outside the Basic Multilingual Plane.
   */
  function Utf16Length(s: string): (n: nat)
    ensures |s| <= n <= 2 * |s|
    ensures (forall i :: 0 <= i < |s| ==> !IsAstral(s[i])) ==> n == |s|
    ensures (exists i :: 0 <= i < |s| && IsAstral(s[i])) ==> n > |s|
  {
    if s == [] then 0
    else (if IsAstral(s[0]) then 2 else 1) + Utf16Length(s[1..])
  }

  /** The compilation handed to the emit hook. */
  class Compilation {
    /** `getStats().toJson()`, fixed for the duration of the hook. */
    const stats: Stats
    /** `options.output.publicPath`. */
    const outputPublicPath: Option<string>
    /** `errors`, messages of the reported errors in order. */
    var errors: seq<string>
    /** `fileDependencies`, files the host watches for changes. */
    var fileDependencies: seq<string>
    /** `assets`, the output-asset registry keyed by file name. */
    var assets: map<string, Asset>

    constructor (stats: Stats, outputPublicPath: Option<string>, assets: map<string, Asset>)
      ensures this.stats == stats && this.outputPublicPath == outputPublicPath
      ensures errors == [] && fileDependencies == [] && this.assets == assets
    {
      this.stats := stats;
      this.outputPublicPath := outputPublicPath;
      this.assets := assets;
      errors := [];
      fileDependencies := [];
    }
  }

  /** The emit hook's completion callback, counting how often it was called. */
  class CompletionCallback {
    var calls: nat

    constructor ()
      ensures calls == 0
    {
      calls := 0;
    }

    /** `callback()`. */
    method Call()
      modifies this
      ensures calls == old(calls) + 1
    {
      calls := calls + 1;
    }
  }
}
