/**
 * The accept / retry / abort policy of resolving one chunk, as pure
 * functions of the server's answers. `Resolve` is the reference the
 * imperative loop in ChunkUpload is proved against.
 */
module Policy {
  import opened Core

  /** What one POST of a chunk amounts to. */
  datatype Attempt = Succeeded | Failed | Permanent

  /**
   * A configured permanent error wins over everything, even over 200 or
   * 201; otherwise 200 and 201 accept the chunk and any other status is a
   * failed attempt.
   */
  function Classify(status: int, permanentErrors: set<int>): (a: Attempt)
    ensures a == Permanent <==> status in permanentErrors
    ensures a == Succeeded <==> status !in permanentErrors && (status == 200 || status == 201)
    ensures a == Failed <==> status !in permanentErrors && status != 200 && status != 201
  {
    if status in permanentErrors then Permanent
    else if status == 200 || status == 201 then Succeeded
    else Failed
  }

  /**
   * The number of failed POSTs after which the loop gives up: the first
   * count of at least one that reaches `maxChunkRetries`.
   */
  function Budget(maxChunkRetries: int): (b: nat)
    ensures 1 <= b && maxChunkRetries <= b
    ensures b == 1 || b == maxChunkRetries
  {
    if maxChunkRetries <= 1 then 1 else maxChunkRetries
  }

  /** How resolving a chunk ends. The last two stand for the two `RuntimeError`s of `resolve_chunk`. */
  datatype Outcome = TestHit | Accepted | PermanentError | RetriesExhausted

  /** An outcome with the number of POSTs issued to reach it. */
  datatype Resolution = Resolution(outcome: Outcome, posts: nat)

  /**
   * The declarative description of the send loop's result: every POST but
   * the last failed, the last decided the outcome (or was the last the
   * budget allows), and no more than the budget were issued.
   */
  predicate SendAdmissible(config: Config, post: nat -> int, r: Resolution)
  {
    var perm := config.permanentErrors;
    && 1 <= r.posts <= Budget(config.maxChunkRetries)
    && (forall i :: 0 <= i < r.posts - 1 ==> Classify(post(i), perm) == Failed)
    && match r.outcome
       case TestHit => false
       case Accepted => Classify(post(r.posts - 1), perm) == Succeeded
       case PermanentError => Classify(post(r.posts - 1), perm) == Permanent
       case RetriesExhausted =>
         r.posts == Budget(config.maxChunkRetries) && Classify(post(r.posts - 1), perm) == Failed
  }

  /**
   * The declarative description of a resolution: a probe answered 200
   * settles the chunk with no POST; any other probe status, or no probe,
   * leaves it to the send loop.
   */
  predicate Admissible(config: Config, probeStatus: int, post: nat -> int, r: Resolution)
  {
    if config.testChunks && probeStatus == 200 then r == Resolution(TestHit, 0)
    else SendAdmissible(config, post, r)
  }

  /** The first POST in [from, budget) that is not a failed attempt, or `budget` if there is none. */
  function FirstDecisive(post: nat -> int, permanentErrors: set<int>, from: nat, budget: nat): (k: nat)
    requires from <= budget
    ensures from <= k <= budget
    ensures forall i :: from <= i < k ==> Classify(post(i), permanentErrors) == Failed
    ensures k < budget ==> Classify(post(k), permanentErrors) != Failed
    decreases budget - from
  {
    if from == budget || Classify(post(from), permanentErrors) != Failed then from
    else FirstDecisive(post, permanentErrors, from + 1, budget)
  }

  /** How the send loop ends, given the status of the i-th POST. */
  function SendOutcome(config: Config, post: nat -> int): (r: Resolution)
    ensures SendAdmissible(config, post, r)
  {
    var budget := Budget(config.maxChunkRetries);
    var k := FirstDecisive(post, config.permanentErrors, 0, budget);
    if k == budget then Resolution(RetriesExhausted, budget)
    else if Classify(post(k), config.permanentErrors) == Permanent then Resolution(PermanentError, k + 1)
    else Resolution(Accepted, k + 1)
  }

  /**
   * How resolving a chunk ends, given the status the probe would get and
   * the status of the i-th POST.
   */
  function Resolve(config: Config, probeStatus: int, post: nat -> int): (r: Resolution)
    ensures Admissible(config, probeStatus, post, r)
  {
    if config.testChunks && probeStatus == 200 then Resolution(TestHit, 0)
    else SendOutcome(config, post)
  }

  /** Exactly one result of the send loop is admissible: the one `SendOutcome` computes. */
  lemma SendAdmissibleUnique(config: Config, post: nat -> int, r: Resolution)
    requires SendAdmissible(config, post, r)
    ensures r == SendOutcome(config, post)
  {
  }

  /** Exactly one resolution is admissible: the one `Resolve` computes. */
  lemma AdmissibleUnique(config: Config, probeStatus: int, post: nat -> int, r: Resolution)
    requires Admissible(config, probeStatus, post, r)
    ensures r == Resolve(config, probeStatus, post)
  {
    if !(config.testChunks && probeStatus == 200) {
      SendAdmissibleUnique(config, post, r);
    }
  }

  /**
   * N failed attempts followed by an accepted one: the chunk is accepted
   * after N+1 POSTs when N is within the budget, and the loop gives up
   * after exactly the budget otherwise.
   */
  lemma FailuresThenSuccess(config: Config, probeStatus: int, post: nat -> int, n: nat)
    requires !(config.testChunks && probeStatus == 200)
    requires forall i :: 0 <= i < n ==> Classify(post(i), config.permanentErrors) == Failed
    requires Classify(post(n), config.permanentErrors) == Succeeded
    ensures n < Budget(config.maxChunkRetries) ==> Resolve(config, probeStatus, post) == Resolution(Accepted, n + 1)
    ensures n >= Budget(config.maxChunkRetries) ==>
              Resolve(config, probeStatus, post) == Resolution(RetriesExhausted, Budget(config.maxChunkRetries))
  {
  }

  /**
   * A permanent error on any attempt the loop reaches aborts right there,
   * however many attempts already failed.
   */
  lemma PermanentAborts(config: Config, probeStatus: int, post: nat -> int, k: nat)
    requires !(config.testChunks && probeStatus == 200)
    requires k < Budget(config.maxChunkRetries)
    requires forall i :: 0 <= i < k ==> Classify(post(i), config.permanentErrors) == Failed
    requires post(k) in config.permanentErrors
    ensures Resolve(config, probeStatus, post) == Resolution(PermanentError, k + 1)
  {
  }

  /**
   * One pass of the send loop against the reference: after `tries` failed
   * attempts within the budget, the next answer either decides the
   * result or, being one more failure, exhausts the budget exactly when
   * the failure count reaches `maxChunkRetries`.
   */
  lemma AttemptDecides(config: Config, post: nat -> int, tries: nat)
    requires tries < Budget(config.maxChunkRetries)
    requires forall i :: 0 <= i < tries ==> Classify(post(i), config.permanentErrors) == Failed
    ensures Classify(post(tries), config.permanentErrors) == Permanent ==>
              SendOutcome(config, post) == Resolution(PermanentError, tries + 1)
    ensures Classify(post(tries), config.permanentErrors) == Succeeded ==>
              SendOutcome(config, post) == Resolution(Accepted, tries + 1)
    ensures Classify(post(tries), config.permanentErrors) == Failed && tries + 1 >= config.maxChunkRetries ==>
              SendOutcome(config, post) == Resolution(RetriesExhausted, tries + 1)
    ensures Classify(post(tries), config.permanentErrors) == Failed && tries + 1 < config.maxChunkRetries ==>
              tries + 1 < Budget(config.maxChunkRetries)
  {
    var a := Classify(post(tries), config.permanentErrors);
    var r := match a
      case Permanent => Resolution(PermanentError, tries + 1)
      case Succeeded => Resolution(Accepted, tries + 1)
      case Failed => Resolution(RetriesExhausted, tries + 1);
    if a != Failed || tries + 1 >= config.maxChunkRetries {
      SendAdmissibleUnique(config, post, r);
    }
  }
}
