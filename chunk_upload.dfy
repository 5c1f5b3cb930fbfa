/**
 * Resolving one chunk against the server: an optional probe, then POST
 * attempts until one is accepted, one hits a permanent error, or the
 * attempt budget runs out; an accepted chunk is marked done in its file.
 */
module ChunkUpload {
  import opened Core
  import opened Query
  import opened Transport
  import opened Policy

  /** `n` copies of `x`. */
  function Repeat<T>(x: T, n: nat): (s: seq<T>)
    ensures |s| == n && forall i :: 0 <= i < n ==> s[i] == x
  {
    if n == 0 then [] else Repeat(x, n - 1) + [x]
  }

  /** The requests a resolution issues: the probe if enabled, then one POST per attempt. */
  function Trace(target: string, query: Query, data: seq<byte>, probed: bool, posts: nat): seq<Request>
  {
    (if probed then [GetRequest(target, query)] else []) + Repeat(PostRequest(target, query, data), posts)
  }

  /** The scripted POST statuses seen from the `base`-th POST on. */
  function From(postStatus: nat -> int, base: nat): nat -> int
  {
    (i: nat) => postStatus(base + i)
  }

  /** Asks the server whether it already holds the chunk: a hit is status 200 and nothing else. */
  method TestChunk(session: Session, config: Config, file: ResumableFile, chunk: Chunk, platform: Platform)
    returns (hit: bool)
    modifies session
    ensures hit <==> session.getStatus(old(session.gets)) == 200
    ensures session.gets == old(session.gets) + 1 && session.posts == old(session.posts)
    ensures session.log == old(session.log) + [GetRequest(config.target, BuildQuery(file, chunk, platform))]
  {
    var status := session.Get(config.target, BuildQuery(file, chunk, platform));
    hit := status == 200;
  }

  /** Uploads the chunk once and classifies the answer. */
  method SendChunk(session: Session, config: Config, file: ResumableFile, chunk: Chunk, platform: Platform)
    returns (attempt: Attempt)
    modifies session
    ensures attempt == Classify(session.postStatus(old(session.posts)), config.permanentErrors)
    ensures session.posts == old(session.posts) + 1 && session.gets == old(session.gets)
    ensures session.log == old(session.log) + [PostRequest(config.target, BuildQuery(file, chunk, platform), chunk.data)]
  {
    var status := session.Post(config.target, BuildQuery(file, chunk, platform), chunk.data);
    attempt := Classify(status, config.permanentErrors);
  }

  /**
   * POSTs the chunk until an answer is accepted, one is a permanent error,
   * or the failures reach `maxChunkRetries`. The outcome and the number of
   * POSTs are those of `SendOutcome` on the server's answers, and every
   * POST carries the chunk's protocol fields and payload.
   */
  method SendWithRetries(session: Session, config: Config, file: ResumableFile, chunk: Chunk, platform: Platform)
    returns (outcome: Outcome)
    modifies session
    ensures var r := SendOutcome(config, From(session.postStatus, old(session.posts)));
            && outcome == r.outcome
            && session.posts == old(session.posts) + r.posts
            && session.log == old(session.log)
                              + Repeat(PostRequest(config.target, BuildQuery(file, chunk, platform), chunk.data), r.posts)
    ensures session.gets == old(session.gets)
  {
    ghost var posts0, log0 := session.posts, session.log;
    ghost var post := From(session.postStatus, posts0);
    ghost var request := PostRequest(config.target, BuildQuery(file, chunk, platform), chunk.data);
    var tries := 0;
    while true
      invariant 0 <= tries < Budget(config.maxChunkRetries)
      invariant tries == 0 || tries < config.maxChunkRetries
      invariant session.gets == old(session.gets)
      invariant session.posts == posts0 + tries
      invariant session.log == log0 + Repeat(request, tries)
      invariant forall i :: 0 <= i < tries ==> Classify(post(i), config.permanentErrors) == Failed
      decreases Budget(config.maxChunkRetries) - tries
    {
      var attempt := SendChunk(session, config, file, chunk, platform);
      assert Repeat(request, tries + 1) == Repeat(request, tries) + [request];
      AttemptDecides(config, post, tries);
      if attempt == Permanent {
        return PermanentError;
      }
      if attempt == Succeeded {
        return Accepted;
      }
      tries := tries + 1;
      if tries >= config.maxChunkRetries {
        return RetriesExhausted;
      }
    }
  }

  /**
   * Resolves one chunk. The outcome and the number of POSTs are those of
   * `Resolve` on the server's answers; every request carries the chunk's
   * protocol fields; only an accepted upload marks the chunk done, and
   * nothing else in `chunkDone` changes.
   */
  method ResolveChunk(session: Session, config: Config, file: ResumableFile, chunk: Chunk, platform: Platform)
    returns (outcome: Outcome)
    modifies session, file
    ensures var r := Resolve(config, session.getStatus(old(session.gets)), From(session.postStatus, old(session.posts)));
            && outcome == r.outcome
            && session.posts == old(session.posts) + r.posts
            && session.log == old(session.log)
                              + Trace(config.target, BuildQuery(file, chunk, platform), chunk.data, config.testChunks, r.posts)
    ensures session.gets == old(session.gets) + (if config.testChunks then 1 else 0)
    ensures file.chunkDone == if outcome == Accepted then old(file.chunkDone)[chunk := true] else old(file.chunkDone)
  {
    if config.testChunks {
      var hit := TestChunk(session, config, file, chunk, platform);
      if hit {
        return TestHit;
      }
    }
    outcome := SendWithRetries(session, config, file, chunk, platform);
    if outcome == Accepted {
      file.chunkDone := file.chunkDone[chunk := true];
    }
  }
}
