/**
 * A stand-in for the HTTP session: the server's answers are scripted per
 * call, and every request issued is recorded with the fields it carries.
 */
module Transport {
  import opened Core
  import opened Query

  /** One request as the server sees it. A POST carries the chunk bytes as its `file` part. */
  datatype Request =
    | GetRequest(target: string, data: Query)
    | PostRequest(target: string, data: Query, file: seq<byte>)

  class Session {
    /** The status the server answers to the n-th GET, counting from 0. */
    const getStatus: nat -> int
    /** The status the server answers to the n-th POST, counting from 0. */
    const postStatus: nat -> int
    var gets: nat
    var posts: nat
    var log: seq<Request>

    constructor (getStatus: nat -> int, postStatus: nat -> int)
      ensures this.getStatus == getStatus && this.postStatus == postStatus
      ensures gets == 0 && posts == 0 && log == []
    {
      this.getStatus := getStatus;
      this.postStatus := postStatus;
      gets, posts, log := 0, 0, [];
    }

    method Get(target: string, data: Query) returns (status: int)
      modifies this
      ensures status == getStatus(old(gets))
      ensures gets == old(gets) + 1 && posts == old(posts)
      ensures log == old(log) + [GetRequest(target, data)]
    {
      status := getStatus(gets);
      gets := gets + 1;
      log := log + [GetRequest(target, data)];
    }

    method Post(target: string, data: Query, file: seq<byte>) returns (status: int)
      modifies this
      ensures status == postStatus(old(posts))
      ensures posts == old(posts) + 1 && gets == old(gets)
      ensures log == old(log) + [PostRequest(target, data, file)]
    {
      status := postStatus(posts);
      posts := posts + 1;
      log := log + [PostRequest(target, data, file)];
    }
  }
}
