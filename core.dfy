/**
 * The collaborators that resumable/chunk.py reads: the chunk handle, the file
 * it belongs to (with its `chunk_done` dictionary), and the configuration.
 * Only the attributes the chunk policy touches are modelled.
 */
module Core {

  newtype byte = b: int | 0 <= b < 0x100

  datatype Option<T> = None | Some(value: T)

  /** One slice of a file: its 0-based position, its size in bytes and its payload. */
  datatype Chunk = Chunk(index: nat, size: nat, data: seq<byte>)

  /**
   * The file being uploaded. Everything but `chunkDone` is fixed once the
   * file exists; `chunkDone` is the dictionary that resolving a chunk
   * updates in place.
   */
  class ResumableFile {
    const path: string
    const size: nat
    const chunkSize: nat
    const uniqueIdentifier: string
    const chunks: seq<Chunk>
    var chunkDone: map<Chunk, bool>

    constructor (path: string, size: nat, chunkSize: nat, uniqueIdentifier: string, chunks: seq<Chunk>)
      ensures this.path == path && this.size == size && this.chunkSize == chunkSize
      ensures this.uniqueIdentifier == uniqueIdentifier && this.chunks == chunks
      ensures chunkDone == map[]
    {
      this.path := path;
      this.size := size;
      this.chunkSize := chunkSize;
      this.uniqueIdentifier := uniqueIdentifier;
      this.chunks := chunks;
      chunkDone := map[];
    }
  }

  /**
   * The settings the chunk policy consults: the upload URL, the attempt
   * budget, the statuses that abort at once, and whether to probe first.
   */
  datatype Config = Config(
    target: string,
    maxChunkRetries: int,
    permanentErrors: set<int>,
    testChunks: bool)
}
