/**
 * Spotify's `Downloader`: at most one job per track id in flight, and a job
 * that tries the fetch up to `MAX_RETRY_ATTEMPTS + 1` times, waiting
 * 100·2^k ms after failed attempt k, and reports exactly one outcome.
 *
 * The fetch is not modelled: a job is run against the outcome of each
 * attempt and against whether the coroutine is still active at it.
 */
module SpotifyDownloader {
  import opened SpotifyConverter

  const MAX_RETRY_ATTEMPTS: nat := 3
  const INITIAL_RETRY_INTERVAL_MS: nat := 100

  /** What one call of `fetchLyricResponse` does. */
  datatype FetchOutcome =
    | Fetched(response: LyricResponse)
    | NotFound          // NoFoundLyricException
    | Failed            // any other exception

  /** A `DownloadCallback` call. */
  datatype DownloadEvent =
    | DownloadFinished(id: string, response: LyricResponse)
    | DownloadFailed(id: string, notFound: bool)

  function Pow2(k: nat): (p: nat)
    ensures p >= 1
  {
    if k == 0 then 1 else 2 * Pow2(k - 1)
  }

  /** `INITIAL_RETRY_INTERVAL_MS * 2.0.pow(attempt).toLong()`, exact for the attempts that wait. */
  function Backoff(attempt: nat): nat {
    INITIAL_RETRY_INTERVAL_MS * Pow2(attempt)
  }

  /** Attempt `attempt` ends the job: a success, a not-found, a cancelled coroutine, or the last attempt. */
  predicate EndsJob(o: FetchOutcome, active: bool, attempt: nat) {
    o.Fetched? || o.NotFound? || !active || attempt >= MAX_RETRY_ATTEMPTS
  }

  /** The attempt at which the job started at `attempt` ends. */
  function LastAttempt(fetch: nat -> FetchOutcome, isActive: nat -> bool, attempt: nat): (a: nat)
    requires attempt <= MAX_RETRY_ATTEMPTS
    ensures attempt <= a <= MAX_RETRY_ATTEMPTS
    ensures EndsJob(fetch(a), isActive(a), a)
    ensures forall k :: attempt <= k < a ==> !EndsJob(fetch(k), isActive(k), k)
    decreases MAX_RETRY_ATTEMPTS - attempt
  {
    if EndsJob(fetch(attempt), isActive(attempt), attempt) then attempt
    else LastAttempt(fetch, isActive, attempt + 1)
  }

  /** The callback for the attempt that ends the job. */
  function Outcome(id: string, o: FetchOutcome): DownloadEvent {
    match o
    case Fetched(response) => DownloadFinished(id, response)
    case NotFound => DownloadFailed(id, true)
    case Failed => DownloadFailed(id, false)
  }

  class Downloader {
    var downloadingIds: set<string>
    /** Every callback made, in order. */
    var events: seq<DownloadEvent>

    constructor ()
      ensures downloadingIds == {} && events == []
    {
      downloadingIds := {};
      events := [];
    }

    /** `download`: `downloadingIds.add(id)` decides whether a job is launched. */
    method Download(id: string) returns (launched: bool)
      modifies this
      ensures launched <==> id !in old(downloadingIds)
      ensures downloadingIds == old(downloadingIds) + {id}
      ensures events == old(events)
    {
      launched := id !in downloadingIds;
      downloadingIds := downloadingIds + {id};
    }

    /**
     * The body of a launched job: `repeat(MAX_RETRY_ATTEMPTS + 1)` around the
     * fetch, then `finally` removing the id. Returns the waits taken.
     */
    method RunJob(id: string, fetch: nat -> FetchOutcome, isActive: nat -> bool) returns (delays: seq<nat>)
      modifies this
      ensures events == old(events) + [Outcome(id, fetch(LastAttempt(fetch, isActive, 0)))]
      ensures delays == seq(LastAttempt(fetch, isActive, 0), k requires 0 <= k => Backoff(k))
      ensures downloadingIds == old(downloadingIds) - {id}
    {
      delays := [];
      var attempt := 0;
      while attempt < MAX_RETRY_ATTEMPTS + 1
        invariant attempt <= LastAttempt(fetch, isActive, 0)
        invariant LastAttempt(fetch, isActive, attempt) == LastAttempt(fetch, isActive, 0)
        invariant delays == seq(attempt, k requires 0 <= k => Backoff(k))
        invariant events == old(events) && downloadingIds == old(downloadingIds)
        decreases MAX_RETRY_ATTEMPTS + 1 - attempt
      {
        var outcome := fetch(attempt);
        if outcome.Fetched? {
          events := events + [DownloadFinished(id, outcome.response)];
          break;
        }
        if outcome.NotFound? || !isActive(attempt) || attempt >= MAX_RETRY_ATTEMPTS {
          events := events + [DownloadFailed(id, outcome.NotFound?)];
          break;
        }
        delays := delays + [INITIAL_RETRY_INTERVAL_MS * Pow2(attempt)];
        attempt := attempt + 1;
      }
      downloadingIds := downloadingIds - {id};
    }
  }

  /** At most four attempts, each earlier one a retryable failure of an active job. */
  lemma AttemptsBounded(fetch: nat -> FetchOutcome, isActive: nat -> bool)
    ensures LastAttempt(fetch, isActive, 0) + 1 <= MAX_RETRY_ATTEMPTS + 1 == 4
    ensures forall k :: 0 <= k < LastAttempt(fetch, isActive, 0) ==>
              fetch(k).Failed? && isActive(k)
  {
  }

  /** The first wait is 100 ms and each later one doubles the one before, so the waits are 100, 200 and 400 ms. */
  lemma BackoffValues(attempt: nat)
    ensures Backoff(0) == 100 && Backoff(attempt + 1) == 2 * Backoff(attempt)
    ensures Backoff(1) == 200 && Backoff(2) == 400
  {
  }

  /** A success at the first attempt that ends the job is reported as finished, anything else as failed. */
  lemma OutcomeKinds(id: string, fetch: nat -> FetchOutcome, isActive: nat -> bool)
    ensures var a := LastAttempt(fetch, isActive, 0);
      && (Outcome(id, fetch(a)).DownloadFinished? <==> fetch(a).Fetched?)
      && (fetch(a).Failed? && isActive(a) ==> a == MAX_RETRY_ATTEMPTS)
      && (fetch(a).NotFound? ==> Outcome(id, fetch(a)) == DownloadFailed(id, true))
  {
  }
}
