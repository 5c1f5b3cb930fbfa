# Resumable chunk upload policy, in Dafny

This project models the per-chunk upload policy of `resumable.py`, a Python
client for the Resumable.js chunked-upload convention (resumable/chunk.py).
Resolving a chunk works in two phases:

- **Probe.** When `test_chunks` is set, the client first sends a GET probe.
  A 200 answer means the server already has the chunk, and nothing more is sent.
- **Send loop.** Otherwise the client POSTs the chunk until one of three things happens:
  - a 200 or 201 answer accepts it;
  - a status in `permanent_errors` aborts at once;
  - the number of failed attempts reaches `max_chunk_retries`.

Only an accepted POST marks the chunk in the file's `chunk_done` dictionary.
Every request carries the nine protocol fields built by `_build_query`.

Layout:

- `core.dfy` (module `Core`): the collaborators the policy reads.
  - `Chunk`: index, size and payload.
  - `ResumableFile`: a class whose `chunkDone` map is updated in place.
  - `Config`: the settings the policy consults.
- `query.dfy` (module `Query`): the protocol fields and the MIME-type default.
  - The query is a map from field names to values, like the Python dict.
  - `WireName` gives the name each field travels under.
  - `Platform` stands for `mimetypes.guess_type` and `os.path.basename`. Both are passed in as functions.
- `transport.dfy` (module `Transport`): a scripted stand-in for the HTTP session.
  - The server's status for the n-th GET and the n-th POST are given functions.
  - The session counts the calls and logs every request with the fields and bytes it carries.
- `policy.dfy` (module `Policy`): the policy as pure functions of the server's answers.
  - `Classify` classifies one POST answer.
  - `Budget` is the number of failures after which the loop gives up.
  - `Admissible` describes a resolution declaratively, and `Resolve` computes the only admissible one.
- `chunk_upload.dfy` (module `ChunkUpload`): the imperative code.
  - `ResolveChunk` is `resolve_chunk`.
  - `SendWithRetries` is its `while` loop with the `tries` counter.
  - `TestChunk` and `SendChunk` are `_test_chunk` and `_send_chunk`.
  - Each is proved against the reference functions of `Policy`.

The two `RuntimeError`s of `resolve_chunk` are the outcomes `PermanentError`
and `RetriesExhausted`. `max_chunk_retries` is an unrestricted integer, as
in the code.

- **Zero or negative `max_chunk_retries`.** The loop still issues one POST,
  because `tries` is compared only after the first failure. The attempt
  budget is therefore `max(1, max_chunk_retries)` (`Budget`).
- **"N failures then a success".** This scenario is stated against that
  budget. It coincides with "N < `max_chunk_retries`" whenever the setting is
  at least 1.
- **Connection errors.** These are not retried. The code has no handler for
  them: an exception from the session propagates out of `resolve_chunk`.
  The model's session always answers with a status.

## Model

| member | source | states |
|---|---|---|
| `Query.FileType` | resumable/chunk.py:50-59 | The type is the MIME guess for the path when there is one and `""` when there is none; the result is empty exactly when the guess is missing (or is itself empty). |
| `Query.BuildQuery` | resumable/chunk.py:36-47 | The chunk number is `index + 1`, the current chunk size is the chunk's size, the total chunk count is the number of chunks in the file, the relative path is the file's path and the type is `FileType` of that path. |
| `Query.EveryFieldSent` | resumable/chunk.py:37-47 | Every chunk's query holds all nine protocol fields, and no others. |
| `Query.QueryIdentifiesChunk` | resumable/chunk.py:38-46 | Two chunks of one file send identical file-level fields; their chunk numbers are equal iff their indices are; their queries are equal iff index and size agree. |
| `Query.ChunkNumberInRange` | resumable/chunk.py:44-45 | For a file whose chunks sit at their own index, every chunk's number lies between 1 and the announced total chunk count. |
| `Query.WireNamesDistinct` | resumable/chunk.py:37-47 | No two protocol fields share a wire name, so the dict holds nine distinct keys. |
| `Transport.Session.Get` | resumable/chunk.py:17-20 | A GET returns the scripted status for that GET, counts it, and logs the target and fields it carries. |
| `Transport.Session.Post` | resumable/chunk.py:25-29 | A POST returns the scripted status for that POST, counts it, and logs the target, fields and payload it carries. |
| `Policy.Classify` | resumable/chunk.py:30-33 | An answer is permanent iff its status is in `permanent_errors`, even if it is 200 or 201. It is accepted iff it is not permanent and is 200 or 201. It is a failed attempt iff it is neither. |
| `Policy.Budget` | resumable/chunk.py:8-12 | The loop gives up after `max(1, max_chunk_retries)` failures: the first count of at least one that reaches `max_chunk_retries`. |
| `Policy.FirstDecisive` | resumable/chunk.py:9-12 | Returns the first attempt in range whose answer is not a failure, or the end of the range; every earlier attempt failed. |
| `Policy.SendOutcome` | resumable/chunk.py:8-12 | The send loop's result is admissible: 1 to `Budget` POSTs; all but the last failed; the last accepted the chunk, was a permanent error, or was the budget's final failure. |
| `Policy.Resolve` | resumable/chunk.py:5-12 | A probe answered exactly 200 (with `test_chunks` set) yields `TestHit` with no POST. Any other probe status, 201 included, or no probe, yields an admissible send-loop result. |
| `Policy.SendAdmissibleUnique` | resumable/chunk.py:8-12 | The declarative description of the send loop's result determines it uniquely. |
| `Policy.AdmissibleUnique` | resumable/chunk.py:5-12 | The declarative description of a resolution determines it uniquely. |
| `Policy.FailuresThenSuccess` | resumable/chunk.py:8-12 | N failed POSTs then a success: accepted after exactly N+1 POSTs when N is below the budget; `RetriesExhausted` after exactly `Budget` POSTs otherwise. |
| `Policy.PermanentAborts` | resumable/chunk.py:30-32 | A permanent status on any attempt the loop reaches ends it at once with `PermanentError`, however many attempts already failed. |
| `Policy.AttemptDecides` | resumable/chunk.py:9-12 | After `tries` failures within the budget, the next answer decides the result, or exhausts the budget exactly when `tries + 1` reaches `max_chunk_retries`. |
| `ChunkUpload.TestChunk` | resumable/chunk.py:16-21 | Issues one GET with the chunk's fields and no POST; reports a hit iff the status is exactly 200. |
| `ChunkUpload.SendChunk` | resumable/chunk.py:24-33 | Issues one POST with the chunk's fields and payload and no GET; the result is `Classify` of the answer. |
| `ChunkUpload.SendWithRetries` | resumable/chunk.py:8-12 | The outcome and POST count are `SendOutcome` of the answers. Every POST carries the chunk's fields and payload, and no GET is issued. Loop invariants: `tries` equals the failures so far and stays below `max_chunk_retries` while the loop continues. |
| `ChunkUpload.ResolveChunk` | resumable/chunk.py:5-13 | The outcome and POST count are `Resolve` of the answers, and the GET is issued iff `test_chunks` is set. `chunkDone[chunk]` becomes true only on `Accepted`, and no other entry changes. A probe hit, a permanent error or exhausted retries leave `chunkDone` untouched. |

## Left out

- The HTTP session is a scripted stand-in. It does not model real network I/O, headers, timeouts or transport exceptions.
- The form encoding of the fields is not modelled. The probe passes them as form data (`data=`), like the POST. The model records which fields each request carries, not whether they travel in the URL or in the body.
- `mimetypes.guess_type` and `os.path.basename` are parameters, not definitions. These are host-library lookups.
- `str(file.unique_identifier)`: the identifier is taken to be a string already.
- `chunk.read()` is taken to return the same bytes on every attempt. Single-read payload streams are not modelled, so a retry always resends the chunk's full payload.
- `chunk_done` is keyed by the chunk's value (index, size, payload), not by object identity.
- `ResumableChunk`, `ResumableFile` and `Resumable` of `resumable.core` are not part of this model. This covers the chunk state machine, completion signals, the file's `completed` flag and source closing, and the thread-pool manager. Only the attributes `resolve_chunk` reads are modelled, and `ResumableFile`'s constructor is only a way to build one.
- Concurrency is not modelled: `resolve_chunk` runs for one chunk on one thread.
