/**
 * `swigWebpackPluginAssets`: the flat map from chunk name to the one file
 * name a template uses for that chunk.
 */
module ChunkAssets {
  import opened Wrappers
  import opened Config
  import opened Webpack

  /** The file a chunk stands for: the value itself, or an array's first element. */
  function MainFile(v: ChunkValue): (file: string)
    requires WellFormedChunk(v)
  {
    match v
    case File(f) => f
    case Files(fs) => fs[0]
  }

  /** What is prepended to every file: the public path when it is truthy, else nothing. */
  function PublicPrefix(publicPath: Option<string>): (prefix: string) {
    if Truthy(publicPath) then publicPath.value else ""
  }

  /**
   * The reference description of the chunk-asset map: the same keys as the
   * snapshot, each key mapped to the public prefix followed by its main file.
   */
  predicate IsChunkAssetMap(byChunk: map<string, ChunkValue>, publicPath: Option<string>, assets: map<string, string>)
    requires WellFormedChunks(byChunk)
  {
    && assets.Keys == byChunk.Keys
    && forall chunk :: chunk in byChunk ==> assets[chunk] == PublicPrefix(publicPath) + MainFile(byChunk[chunk])
  }

  /** The chunk-asset map as a value, for use in specifications. */
  ghost function ChunkAssetMap(byChunk: map<string, ChunkValue>, publicPath: Option<string>): (assets: map<string, string>)
    requires WellFormedChunks(byChunk)
    ensures IsChunkAssetMap(byChunk, publicPath, assets)
  {
    map chunk | chunk in byChunk :: PublicPrefix(publicPath) + MainFile(byChunk[chunk])
  }

  /** The reference description leaves no choice: at most one map meets it. */
  lemma ChunkAssetMapUnique(byChunk: map<string, ChunkValue>, publicPath: Option<string>, a: map<string, string>, b: map<string, string>)
    requires WellFormedChunks(byChunk)
    requires IsChunkAssetMap(byChunk, publicPath, a) && IsChunkAssetMap(byChunk, publicPath, b)
    ensures a == b
  {
  }

  /**
   * Each entry depends on its own chunk value only: two snapshots that agree
   * on a chunk give that chunk the same file, whatever their other chunks are.
   */
  lemma ChunkAssetIsLocal(m1: map<string, ChunkValue>, m2: map<string, ChunkValue>, publicPath: Option<string>,
                          a1: map<string, string>, a2: map<string, string>, chunk: string)
    requires WellFormedChunks(m1) && WellFormedChunks(m2)
    requires IsChunkAssetMap(m1, publicPath, a1) && IsChunkAssetMap(m2, publicPath, a2)
    requires chunk in m1 && chunk in m2 && m1[chunk] == m2[chunk]
    ensures chunk in a1 && chunk in a2 && a1[chunk] == a2[chunk]
  {
  }

  /**
   * `swigWebpackPluginAssets(compiler, webpackStatsJson)`: visits the chunks
   * one at a time (in any order), reduces an array to its first element,
   * prepends a truthy public path and stores the result under the chunk.
   */
  method SwigWebpackPluginAssets(publicPath: Option<string>, byChunk: map<string, ChunkValue>)
    returns (assets: map<string, string>)
    requires WellFormedChunks(byChunk)
    ensures assets.Keys == byChunk.Keys
    ensures forall chunk :: chunk in byChunk && byChunk[chunk].Files? ==>
      assets[chunk] == PublicPrefix(publicPath) + byChunk[chunk].files[0]
    ensures forall chunk :: chunk in byChunk && byChunk[chunk].File? ==>
      assets[chunk] == PublicPrefix(publicPath) + byChunk[chunk].file
    ensures !Truthy(publicPath) ==> forall chunk :: chunk in byChunk ==> assets[chunk] == MainFile(byChunk[chunk])
    ensures IsChunkAssetMap(byChunk, publicPath, assets)
  {
    assets := map[];
    var pending := byChunk.Keys;
    while pending != {}
      invariant pending <= byChunk.Keys
      invariant assets.Keys == byChunk.Keys - pending
      invariant forall chunk :: chunk in assets ==> assets[chunk] == PublicPrefix(publicPath) + MainFile(byChunk[chunk])
      decreases pending
    {
      var chunk :| chunk in pending;
      var chunkValue := byChunk[chunk];
      var file: string;
      match chunkValue {
        case Files(fs) => file := fs[0];
        case File(f) => file := f;
      }
      if Truthy(publicPath) {
        file := publicPath.value + file;
      }
      assets := assets[chunk := file];
      pending := pending - {chunk};
    }
  }
}
