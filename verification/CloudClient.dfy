// Requests to the cloud API: how often they are sent (pkg/tidbcloud/client.go) and what a failed
// creation says about the job (pkg/tidbcloud/backend.go).
module CloudClient {

  // What one attempt meets: the transport fails, because the context has ended or otherwise, the
  // body cannot be read, or a status code arrives with a body that decodes or not.
  datatype Response = Interrupted | NetworkError | BodyError | Status(code: nat, decodes: bool)

  datatype Error = Stopped | Transport | Undecodable | Api(code: nat) | NoId | OtherCluster | Uncertain(cause: Error)

  datatype Outcome<+T> = Success(value: T) | Failure(error: Error)

  predicate IsRetriableStatus(code: nat) {
    code == 429 || code == 500 || code == 502 || code == 503 || code == 504
  }

  predicate IsSuccess(code: nat) { 200 <= code < 300 }

  predicate Retriable(r: Response) {
    r.NetworkError? || r.BodyError? || (r.Status? && IsRetriableStatus(r.code))
  }

  // What a request comes to if this was its last attempt.
  function Verdict(r: Response): Outcome<()> {
    match r
    case Interrupted => Failure(Stopped)
    case NetworkError => Failure(Transport)
    case BodyError => Failure(Transport)
    case Status(code, decodes) =>
      if IsSuccess(code) then (if decodes then Success(()) else Failure(Undecodable)) else Failure(Api(code))
  }

  // The context ends while this attempt waits for its turn; the first one does not wait.
  predicate CutShort(cut: seq<bool>, attempt: nat)
    requires attempt < |cut|
  {
    attempt > 0 && cut[attempt]
  }

  // Client.do. `responses` is what the attempts will meet and `cut` which waits will be cut short;
  // `sent` is how many requests were handed to the transport. A POST is sent exactly once; other
  // requests until the first answer that is final, the last retry, or the end of the context.
  method Do(post: bool, configuredRetries: nat, responses: seq<Response>, cut: seq<bool>) returns (r: Outcome<()>, sent: nat)
    requires |responses| > configuredRetries && |cut| > configuredRetries
    ensures 1 <= sent <= configuredRetries + 1 && (post ==> sent == 1)
    ensures exists last :: 0 <= last <= (if post then 0 else configuredRetries)
              && (forall i | 0 <= i < last :: Retriable(responses[i]) && !CutShort(cut, i))
              && if CutShort(cut, last) then r == Failure(Stopped) && sent == last
                 else && r == Verdict(responses[last]) && sent == last + 1
                      && (!Retriable(responses[last]) || last == if post then 0 else configuredRetries)
  {
    var maxRetries := if post then 0 else configuredRetries;
    var attempt := 0;
    while attempt <= maxRetries
      invariant 0 <= attempt <= maxRetries
      invariant forall i | 0 <= i < attempt :: Retriable(responses[i]) && !CutShort(cut, i)
      decreases maxRetries - attempt
    {
      if CutShort(cut, attempt) {
        return Failure(Stopped), attempt;
      }
      var response := responses[attempt];
      if (response.NetworkError? || response.BodyError?) && attempt < maxRetries {
        attempt := attempt + 1;
        continue;
      }
      if response.Status? && !IsSuccess(response.code) && IsRetriableStatus(response.code) && attempt < maxRetries {
        attempt := attempt + 1;
        continue;
      }
      return Verdict(response), attempt + 1;
    }
  }

  // A response is worth another attempt exactly if nothing of it arrived whole, for another reason than the
  // end of the context, or if it says too many requests, or one of four server errors.
  lemma RetriedIff(r: Response)
    ensures Retriable(r) <==> match r
                              case Interrupted => false
                              case NetworkError => true
                              case BodyError => true
                              case Status(code, _) => code == 429 || (500 <= code <= 504 && code != 501)
  {
  }

  // What the last response makes of the request.
  lemma VerdictIs(r: Response)
    ensures Verdict(r) == Success(()) <==> r.Status? && 200 <= r.code <= 299 && r.decodes
    ensures forall code :: Verdict(r) == Failure(Api(code)) <==> r.Status? && r.code == code && !(200 <= code <= 299)
    ensures Verdict(r) == Failure(Stopped) <==> r == Interrupted
    ensures Verdict(r) == Failure(Undecodable) <==> r.Status? && 200 <= r.code <= 299 && !r.decodes
  {
  }

  // ----- Creating a job -----

  // The job a decoded response names: its ID and cluster, either possibly empty.
  datatype Job = Job(id: string, cluster: string)

  // CreateExport and CreateChangefeed. A response without a cluster is checked by a GET, whose
  // own outcome is `verify`.
  function Create(own: string, post: Outcome<()>, job: Job, verify: Outcome<Job>): Outcome<string> {
    match post
    case Failure(e) => Failure(e)
    case Success(_) =>
      if job.id == "" then Failure(NoId)
      else if job.cluster == "" then
        match verify
        case Failure(e) => Failure(Uncertain(e))
        case Success(_) => Success(job.id)
      else if job.cluster != own then Failure(OtherCluster)
      else Success(job.id)
  }

  predicate DefinitelyRejected(e: Error) {
    e.Api? && (e.code == 400 || e.code == 401 || e.code == 403)
  }

  // A creation is treated as rejected exactly if the one POST that was sent was itself answered
  // with 400, 401 or 403; a later check that fails the same way does not count.
  lemma RejectedIffPostRefused(own: string, response: Response, job: Job, verify: Outcome<Job>)
    ensures var created := Create(own, Verdict(response), job, verify);
            created.Failure? && DefinitelyRejected(created.error) <==>
              response.Status? && (response.code == 400 || response.code == 401 || response.code == 403)
  {
  }

  // A job ID is reported exactly if the POST succeeded and named that job, in this cluster, or in none
  // and then a check found it.
  lemma CreatedIsConfirmed(own: string, response: Response, job: Job, verify: Outcome<Job>, id: string)
    requires own != ""
    ensures Create(own, Verdict(response), job, verify) == Success(id) <==>
              && response.Status? && 200 <= response.code <= 299 && response.decodes
              && id == job.id && id != ""
              && (job.cluster == own || (job.cluster == "" && verify.Success?))
  {
  }

  // ----- Deleting a changefeed -----

  // What a GET of the job shows.
  datatype Seen = Running | Deleted | NotFound | Failed

  predicate ShowsGone(s: Seen) { s == Deleted || s == NotFound }

  // DeleteChangefeed. `gets` is what its GETs will show, the first one before the DELETE; the wait
  // between polls fails once they are used up. `deleted` is whether the DELETE was accepted or
  // found nothing. The first GET may only be trusted to show nothing for a verified job.
  method DeleteChangefeed(trusted: bool, gets: seq<Seen>, deleted: bool) returns (ok: bool, sent: bool)
    requires gets != []
    ensures sent <==> gets[0] == Running
    ensures ok <==> || gets[0] == Deleted || (gets[0] == NotFound && trusted)
                    || (gets[0] == Running && deleted
                        && exists i :: 1 <= i < |gets| && ShowsGone(gets[i]) && forall j | 1 <= j < i :: gets[j] == Running)
  {
    if gets[0] == NotFound && trusted {
      return true, false;
    }
    if gets[0] == NotFound || gets[0] == Failed {
      return false, false;
    }
    if gets[0] == Deleted {
      return true, false;
    }
    if !deleted {
      return false, true;
    }
    var i := 1;
    while i < |gets|
      invariant 1 <= i <= |gets| && forall j | 1 <= j < i :: gets[j] == Running
    {
      if ShowsGone(gets[i]) {
        return true, true;
      }
      if gets[i] == Failed {
        return false, true;
      }
      i := i + 1;
    }
    return false, true;
  }
}
