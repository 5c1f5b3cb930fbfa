/**
 * The Resumable.js protocol fields sent with every probe and every upload of
 * a chunk, and the MIME-type default.
 */
module Query {
  import opened Core

  /** A form value: the protocol sends integers and strings. */
  datatype Field = Number(n: int) | Text(s: string)

  /** The protocol's field names. */
  datatype Key =
    | ChunkSizeKey | TotalSizeKey | TypeKey | IdentifierKey | FilenameKey
    | RelativePathKey | TotalChunksKey | ChunkNumberKey | CurrentChunkSizeKey

  /** The name each field travels under. */
  function WireName(k: Key): string
  {
    match k
    case ChunkSizeKey => "resumableChunkSize"
    case TotalSizeKey => "resumableTotalSize"
    case TypeKey => "resumableType"
    case IdentifierKey => "resumableIdentifier"
    case FilenameKey => "resumableFilename"
    case RelativePathKey => "resumableRelativePath"
    case TotalChunksKey => "resumableTotalChunks"
    case ChunkNumberKey => "resumableChunkNumber"
    case CurrentChunkSizeKey => "resumableCurrentChunkSize"
  }

  /** No two fields travel under the same name. */
  lemma WireNamesDistinct(k1: Key, k2: Key)
    requires WireName(k1) == WireName(k2)
    ensures k1 == k2
  {
  }

  type Query = map<Key, Field>

  /** The fields that depend only on the file. */
  const FileFields: set<Key> :=
    {ChunkSizeKey, TotalSizeKey, TypeKey, IdentifierKey, FilenameKey, RelativePathKey, TotalChunksKey}

  /** The fields that depend on the chunk. */
  const ChunkFields: set<Key> := {ChunkNumberKey, CurrentChunkSizeKey}

  /**
   * The host library calls the fields rely on: the MIME guess from a path
   * (None when nothing is known) and the last path component.
   */
  datatype Platform = Platform(guessType: string -> Option<string>, basename: string -> string)

  /** The MIME type a browser's File object would report: empty when unknown. */
  function FileType(guessType: string -> Option<string>, path: string): (t: string)
    ensures guessType(path).None? ==> t == ""
    ensures guessType(path).Some? ==> t == guessType(path).value
    ensures t == "" <==> guessType(path) in {None, Some("")}
  {
    match guessType(path)
    case None => ""
    case Some(type_) => type_
  }

  /** The nine protocol fields for one chunk of a file. */
  function BuildQuery(file: ResumableFile, chunk: Chunk, platform: Platform): (q: Query)
    ensures ChunkNumberKey in q && q[ChunkNumberKey] == Number(chunk.index + 1)
    ensures CurrentChunkSizeKey in q && q[CurrentChunkSizeKey] == Number(chunk.size)
    ensures TotalChunksKey in q && q[TotalChunksKey] == Number(|file.chunks|)
    ensures RelativePathKey in q && q[RelativePathKey] == Text(file.path)
    ensures TypeKey in q && q[TypeKey] == Text(FileType(platform.guessType, file.path))
  {
    map[
      ChunkSizeKey := Number(file.chunkSize),
      TotalSizeKey := Number(file.size),
      TypeKey := Text(FileType(platform.guessType, file.path)),
      IdentifierKey := Text(file.uniqueIdentifier),
      FilenameKey := Text(platform.basename(file.path)),
      RelativePathKey := Text(file.path),
      TotalChunksKey := Number(|file.chunks|),
      ChunkNumberKey := Number(chunk.index + 1),
      CurrentChunkSizeKey := Number(chunk.size)
    ]
  }

  /** Every chunk's query holds all nine protocol fields and nothing else. */
  lemma EveryFieldSent(file: ResumableFile, chunk: Chunk, platform: Platform)
    ensures BuildQuery(file, chunk, platform).Keys == FileFields + ChunkFields
    ensures forall k: Key :: k in BuildQuery(file, chunk, platform)
  {
    forall k: Key ensures k in FileFields + ChunkFields {
      match k
      case ChunkSizeKey =>
      case TotalSizeKey =>
      case TypeKey =>
      case IdentifierKey =>
      case FilenameKey =>
      case RelativePathKey =>
      case TotalChunksKey =>
      case ChunkNumberKey =>
      case CurrentChunkSizeKey =>
    }
  }

  /**
   * Two chunks of one file send the same file-level fields, and the server
   * can tell them apart by chunk number exactly when their indices differ.
   */
  lemma QueryIdentifiesChunk(file: ResumableFile, c1: Chunk, c2: Chunk, platform: Platform)
    ensures forall k :: k in FileFields ==> BuildQuery(file, c1, platform)[k] == BuildQuery(file, c2, platform)[k]
    ensures BuildQuery(file, c1, platform)[ChunkNumberKey] == BuildQuery(file, c2, platform)[ChunkNumberKey]
            <==> c1.index == c2.index
    ensures BuildQuery(file, c1, platform) == BuildQuery(file, c2, platform)
            <==> c1.index == c2.index && c1.size == c2.size
  {
  }

  /**
   * When a file's chunks sit at their own index, every chunk of it is
   * numbered between 1 and the chunk count it announces.
   */
  lemma ChunkNumberInRange(file: ResumableFile, chunk: Chunk, platform: Platform)
    requires forall i :: 0 <= i < |file.chunks| ==> file.chunks[i].index == i
    requires chunk in file.chunks
    ensures var q := BuildQuery(file, chunk, platform);
            1 <= q[ChunkNumberKey].n <= q[TotalChunksKey].n
  {
  }
}
