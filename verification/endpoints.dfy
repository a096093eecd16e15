/**
 * The request handlers: the job endpoint, which decides between serving the cached
 * record, confirming it against the remote commit hash, or recomputing it; and the
 * health endpoint, which reports the size of the cache.
 */
module Endpoints {
  import opened Wrappers
  import opened Utils
  import opened Data
  import opened Counter

  /** Seconds during which a confirmed record is served without asking the remote. */
  const VERIFY_MIN_INTERVAL: nat := 60 * 5

  /** The body of a job request. */
  datatype PostJobData = PostJobData(provider: string, username: string, reponame: string)

  /**
   * What the job endpoint answers, by message code; the successful answers carry the
   * record. `Aborted` is the analyzer thread's panic propagating through the handler.
   */
  datatype Response =
    | BadService(message: string)
    | CachedRecent(data: Record)
    | FetchFailed(message: string)
    | Cached(data: Record)
    | CounterFailed(message: string)
    | Generated(data: Record)
    | Aborted

  /**
   * The `status` field the handler writes into each answer's JSON (the answer itself goes
   * out as HTTP 200). `Aborted` has no JSON; its 500 is the HTTP status of the framework's
   * answer to the handler's panic.
   */
  function Status(r: Response): (code: nat)
    ensures code == 200 <==> r.CachedRecent? || r.Cached? || r.Generated?
    ensures code == 400 <==> r.BadService? || r.FetchFailed?
    ensures code == 500 <==> r.CounterFailed? || r.Aborted?
  {
    match r
    case BadService(_) => 400
    case CachedRecent(_) => 200
    case FetchFailed(_) => 400
    case Cached(_) => 200
    case CounterFailed(_) => 500
    case Generated(_) => 200
    case Aborted => 500
  }

  /** A message code that reports a failure. */
  predicate IsErrorCode(c: string)
  {
    |c| >= 4 && c[..4] == "err_"
  }

  /** The `message_code` of each answer; an aborted request has no body and so no code. */
  function MessageCode(r: Response): (code: Option<string>)
    ensures code.None? <==> r.Aborted?
    ensures code.Some? ==> (IsErrorCode(code.value) <==> Status(r) != 200)
  {
    match r
    case BadService(_) => var c := "err_bad_service"; assert c[0] == 'e'; Some(c)
    case CachedRecent(_) => var c := "info_success_cached_recent"; assert c[0] == 'i'; Some(c)
    case FetchFailed(_) => var c := "err_failed_to_fetch_from_repo"; assert c[0] == 'e'; Some(c)
    case Cached(_) => var c := "info_success_cached"; assert c[0] == 'i'; Some(c)
    case CounterFailed(_) => var c := "err_counter_failed"; assert c[0] == 'e'; Some(c)
    case Generated(_) => var c := "info_success_generated"; assert c[0] == 'i'; Some(c)
    case Aborted => None
  }

  /** A record confirmed at most `VERIFY_MIN_INTERVAL` seconds before `now` (boundary included). */
  predicate Recent(data: Record, now: nat)
  {
    data.verifiedTime + VERIFY_MIN_INTERVAL >= now
  }

  /**
   * Everything one job request does: the answer, the cache afterwards, and whether the
   * remote hash was fetched and the analyzer run.
   */
  datatype JobResult = JobResult(response: Response, cache: map<string, Record>, fetched: bool, analyzed: bool)

  /**
   * The job policy, one stage after the other: resolve the URL; serve a recently
   * confirmed record; fetch the remote hash; serve and re-confirm a record whose hash
   * matches; otherwise take the analyzer's outcome and, on success, store it under the URL
   * with the fetched hash. `fetch` and `analysis` are what the remote and the analyzer
   * would answer if asked.
   */
  function Job(cache: map<string, Record>, job: PostJobData, now: nat,
               fetch: Result<string>, analysis: Analysis): (r: JobResult)
    ensures r.analyzed ==> r.fetched
    ensures !(r.response.Cached? || r.response.Generated?) ==> r.cache == cache
    ensures r.response.Cached? || r.response.Generated? ==>
      ExpandUrl(job.provider, job.username, job.reponame).Ok? && fetch.Ok? &&
      r.cache == cache[ExpandUrl(job.provider, job.username, job.reponame).value := r.response.data]
  {
    match ExpandUrl(job.provider, job.username, job.reponame)
    case Err(message) => JobResult(BadService(message), cache, false, false)
    case Ok(url) =>
      if url in cache && Recent(cache[url], now) then
        JobResult(CachedRecent(cache[url]), cache, false, false)
      else
        match fetch
        case Err(message) => JobResult(FetchFailed(message), cache, true, false)
        case Ok(hash) =>
          if url in cache && cache[url].hash == hash then
            var confirmed := cache[url].(verifiedTime := now);
            JobResult(Cached(confirmed), cache[url := confirmed], true, false)
          else
            match analysis
            case Failed(message) => JobResult(CounterFailed(message), cache, true, true)
            case Panicked => JobResult(Aborted, cache, true, true)
            case Analyzed(data) =>
              var stored := data.(hash := hash);
              JobResult(Generated(stored), cache[url := stored], true, true)
  }

  /**
   * `post_klocc_job` over the shared cache. The ghost results say whether the remote was
   * asked for its hash and whether the analyzer was run.
   */
  method PostKloccJob(db: Database, job: PostJobData, now: nat, fetch: Result<string>, analysis: Analysis)
    returns (response: Response, ghost fetched: bool, ghost analyzed: bool)
    modifies db
    ensures var j := Job(old(db.entries), job, now, fetch, analysis);
      response == j.response && db.entries == j.cache && fetched == j.fetched && analyzed == j.analyzed
  {
    fetched, analyzed := false, false;
    var url;
    match ExpandUrl(job.provider, job.username, job.reponame) {
      case Err(message) =>
        return BadService(message), fetched, analyzed;
      case Ok(value) =>
        url := value;
    }

    if url in db.entries {
      var data := db.entries[url];
      if data.verifiedTime + VERIFY_MIN_INTERVAL >= now {
        return CachedRecent(data), fetched, analyzed;
      }
    }

    fetched := true;
    var hash;
    match fetch {
      case Err(message) =>
        return FetchFailed(message), fetched, analyzed;
      case Ok(value) =>
        hash := value;
    }

    if url in db.entries && db.entries[url].hash == hash {
      db.entries := db.entries[url := db.entries[url].(verifiedTime := now)];
      return Cached(db.entries[url]), fetched, analyzed;
    }

    analyzed := true;
    match analysis {
      case Failed(message) =>
        return CounterFailed(message), fetched, analyzed;
      case Panicked =>
        return Aborted, fetched, analyzed;
      case Analyzed(data) =>
        var stored := data.(hash := hash);
        db.entries := db.entries[url := stored];
    }
    response := Generated(db.entries[url]);
  }

  /** `get_health`: the number of cached records; the cache is left as it is. */
  method GetHealth(db: Database) returns (cachedCount: nat)
    ensures cachedCount == |db.entries|
  {
    cachedCount := |db.entries|;
  }

  // Properties of the job policy, one per exit of the handler.

  /** An unsupported provider is refused before the cache, the remote or the analyzer is touched. */
  lemma RejectsUnsupportedProvider(cache: map<string, Record>, job: PostJobData, now: nat,
                                   fetch: Result<string>, analysis: Analysis)
    requires !Supported(job.provider)
    ensures var j := Job(cache, job, now, fetch, analysis);
      j.response.BadService? && MessageCode(j.response) == Some("err_bad_service") &&
      j.cache == cache && !j.fetched && !j.analyzed
  {
  }

  /**
   * The fast path: a record confirmed at most `VERIFY_MIN_INTERVAL` seconds ago (the
   * boundary included) is served as it is, with no call to the remote or the analyzer.
   */
  lemma FastPathServesCachedRecord(cache: map<string, Record>, job: PostJobData, now: nat,
                                   fetch: Result<string>, analysis: Analysis)
    requires ExpandUrl(job.provider, job.username, job.reponame).Ok?
    requires var url := ExpandUrl(job.provider, job.username, job.reponame).value;
      url in cache && now <= cache[url].verifiedTime + VERIFY_MIN_INTERVAL
    ensures var url := ExpandUrl(job.provider, job.username, job.reponame).value;
      var j := Job(cache, job, now, fetch, analysis);
      j.response == CachedRecent(cache[url]) && MessageCode(j.response) == Some("info_success_cached_recent") &&
      j.cache == cache && !j.fetched && !j.analyzed
  {
  }

  /** A missing record, or one confirmed more than `VERIFY_MIN_INTERVAL` seconds ago, makes the handler ask the remote. */
  lemma StaleOrMissingAsksRemote(cache: map<string, Record>, job: PostJobData, now: nat,
                                 fetch: Result<string>, analysis: Analysis)
    requires ExpandUrl(job.provider, job.username, job.reponame).Ok?
    requires var url := ExpandUrl(job.provider, job.username, job.reponame).value;
      url !in cache || now > cache[url].verifiedTime + VERIFY_MIN_INTERVAL
    ensures Job(cache, job, now, fetch, analysis).fetched
  {
  }

  /** A failed hash fetch is reported, without running the analyzer and without touching the cache. */
  lemma FetchFailureLeavesCache(cache: map<string, Record>, job: PostJobData, now: nat,
                                message: string, analysis: Analysis)
    requires ExpandUrl(job.provider, job.username, job.reponame).Ok?
    requires var url := ExpandUrl(job.provider, job.username, job.reponame).value;
      !(url in cache && Recent(cache[url], now))
    ensures var j := Job(cache, job, now, Err(message), analysis);
      j.response == FetchFailed(message) && MessageCode(j.response) == Some("err_failed_to_fetch_from_repo") &&
      j.cache == cache && j.fetched && !j.analyzed
  {
  }

  /**
   * A stale record whose hash matches the remote's is served again without analysis;
   * the only change to the cache is that record's confirmation time becoming `now`.
   */
  lemma HashMatchRenewsRecord(cache: map<string, Record>, job: PostJobData, now: nat, analysis: Analysis)
    requires ExpandUrl(job.provider, job.username, job.reponame).Ok?
    requires var url := ExpandUrl(job.provider, job.username, job.reponame).value;
      url in cache && !Recent(cache[url], now)
    ensures var url := ExpandUrl(job.provider, job.username, job.reponame).value;
      var j := Job(cache, job, now, Ok(cache[url].hash), analysis);
      && j.response.Cached? && j.response.data == j.cache[url]
      && MessageCode(j.response) == Some("info_success_cached")
      && j.cache.Keys == cache.Keys
      && j.cache[url].verifiedTime == now && j.cache[url].(verifiedTime := cache[url].verifiedTime) == cache[url]
      && (forall k :: k in cache && k != url ==> j.cache[k] == cache[k])
      && j.fetched && !j.analyzed
  {
  }

  /**
   * When there is no record, or its hash differs from the remote's, the analyzer runs;
   * its success replaces the record wholesale, stamped with the fetched hash, leaves every
   * other URL alone and adds at most one entry, and the answer carries the stored record.
   */
  lemma MismatchStoresAnalysis(cache: map<string, Record>, job: PostJobData, now: nat,
                               hash: string, data: Record)
    requires ExpandUrl(job.provider, job.username, job.reponame).Ok?
    requires var url := ExpandUrl(job.provider, job.username, job.reponame).value;
      url !in cache || (!Recent(cache[url], now) && cache[url].hash != hash)
    ensures var url := ExpandUrl(job.provider, job.username, job.reponame).value;
      var j := Job(cache, job, now, Ok(hash), Analyzed(data));
      && j.fetched && j.analyzed
      && url in j.cache && j.cache[url] == data.(hash := hash) && j.cache[url].hash == hash
      && j.response == Generated(j.cache[url])
      && MessageCode(j.response) == Some("info_success_generated")
      && j.cache.Keys == cache.Keys + {url}
      && (forall k :: k in cache && k != url ==> j.cache[k] == cache[k])
      && |j.cache| <= |cache| + 1
  {
  }

  /** A failed or panicking analysis leaves the cache exactly as it was, stale record included. */
  lemma AnalyzerFailureLeavesCache(cache: map<string, Record>, job: PostJobData, now: nat,
                                   hash: string, analysis: Analysis)
    requires !analysis.Analyzed?
    requires ExpandUrl(job.provider, job.username, job.reponame).Ok?
    requires var url := ExpandUrl(job.provider, job.username, job.reponame).value;
      url !in cache || (!Recent(cache[url], now) && cache[url].hash != hash)
    ensures var j := Job(cache, job, now, Ok(hash), analysis);
      && j.cache == cache && j.analyzed
      && (analysis.Failed? ==> j.response == CounterFailed(analysis.message) &&
                               MessageCode(j.response) == Some("err_counter_failed"))
      && (analysis.Panicked? ==> j.response == Aborted)
  {
  }

  /**
   * Whatever the exit, a job changes at most the entry of its own URL, never removes an
   * entry and grows the cache by at most one.
   */
  lemma JobTouchesOnlyItsUrl(cache: map<string, Record>, job: PostJobData, now: nat,
                             fetch: Result<string>, analysis: Analysis)
    ensures var j := Job(cache, job, now, fetch, analysis);
      && cache.Keys <= j.cache.Keys
      && |j.cache| <= |cache| + 1
      && (ExpandUrl(job.provider, job.username, job.reponame).Err? ==> j.cache == cache)
      && (ExpandUrl(job.provider, job.username, job.reponame).Ok? ==>
            var url := ExpandUrl(job.provider, job.username, job.reponame).value;
            j.cache.Keys <= cache.Keys + {url} &&
            forall k :: k in cache && k != url ==> j.cache[k] == cache[k])
  {
  }

  /**
   * An analysis with the guarantees of `GetDataFromRepo` run for the request's URL (the
   * record names that URL, its languages are sorted largest first) is stored under that
   * URL with those guarantees intact and the fetched hash.
   */
  lemma GeneratedRecordKeepsAnalyzerGuarantees(cache: map<string, Record>, job: PostJobData, now: nat,
                                               fetch: Result<string>, analysis: Analysis)
    requires ExpandUrl(job.provider, job.username, job.reponame).Ok?
    requires analysis.Analyzed? ==>
      analysis.data.repo == ExpandUrl(job.provider, job.username, job.reponame).value &&
      NonIncreasing(analysis.data.languages)
    ensures var url := ExpandUrl(job.provider, job.username, job.reponame).value;
      var j := Job(cache, job, now, fetch, analysis);
      j.response.Generated? ==>
        url in j.cache && j.cache[url].repo == url && NonIncreasing(j.cache[url].languages) &&
        j.cache[url].hash == fetch.value
  {
  }

  /**
   * A second request for a repository just analysed, arriving while the new record is
   * still recent, is answered from the cache with exactly the first answer's record and
   * without any remote call.
   */
  lemma RepeatWithinWindowServedFromCache(cache: map<string, Record>, job: PostJobData, now1: nat,
                                          fetch1: Result<string>, analysis1: Analysis,
                                          now2: nat, fetch2: Result<string>, analysis2: Analysis)
    requires Job(cache, job, now1, fetch1, analysis1).response.Generated?
    requires Job(cache, job, now1, fetch1, analysis1).response.data.verifiedTime + VERIFY_MIN_INTERVAL >= now2
    ensures var first := Job(cache, job, now1, fetch1, analysis1);
      var second := Job(first.cache, job, now2, fetch2, analysis2);
      && second.response == CachedRecent(first.response.data)
      && second.cache == first.cache && !second.fetched && !second.analyzed
  {
  }

  /** After a hash match re-confirms a record at `now`, requests within the next `VERIFY_MIN_INTERVAL` seconds skip the remote. */
  lemma RenewedRecordSkipsRemote(cache: map<string, Record>, job: PostJobData, now1: nat,
                                 fetch1: Result<string>, analysis1: Analysis,
                                 now2: nat, fetch2: Result<string>, analysis2: Analysis)
    requires Job(cache, job, now1, fetch1, analysis1).response.Cached?
    requires now2 <= now1 + VERIFY_MIN_INTERVAL
    ensures var first := Job(cache, job, now1, fetch1, analysis1);
      var second := Job(first.cache, job, now2, fetch2, analysis2);
      second.response == CachedRecent(first.response.data) && !second.fetched
  {
  }

  /** One request of a sequence: the job, its arrival time and what the remote and the analyzer answer. */
  datatype Request = Request(job: PostJobData, now: nat, fetch: Result<string>, analysis: Analysis)

  /** The cache after serving `requests` one at a time. */
  function Serve(cache: map<string, Record>, requests: seq<Request>): map<string, Record>
    decreases |requests|
  {
    if requests == [] then cache
    else
      var r := requests[0];
      Serve(Job(cache, r.job, r.now, r.fetch, r.analysis).cache, requests[1..])
  }

  /** Every key is a clone URL the locator can produce: HTTPS, ending in `.git`. */
  ghost predicate WellKeyed(cache: map<string, Record>)
  {
    forall url :: url in cache ==> "https://" <= url && |url| >= 4 && url[|url| - 4..] == ".git"
  }

  /** Records are never evicted: a URL once cached stays cached, whatever requests follow. */
  lemma {:induction false} ServeNeverEvicts(cache: map<string, Record>, requests: seq<Request>)
    ensures cache.Keys <= Serve(cache, requests).Keys
    decreases |requests|
  {
    if requests != [] {
      var r := requests[0];
      JobTouchesOnlyItsUrl(cache, r.job, r.now, r.fetch, r.analysis);
      ServeNeverEvicts(Job(cache, r.job, r.now, r.fetch, r.analysis).cache, requests[1..]);
    }
  }

  /** Starting from a well-keyed cache (the empty one, say), every key ever stored is a locator URL. */
  lemma {:induction false} ServeKeepsWellKeyed(cache: map<string, Record>, requests: seq<Request>)
    requires WellKeyed(cache)
    ensures WellKeyed(Serve(cache, requests))
    decreases |requests|
  {
    if requests != [] {
      var r := requests[0];
      var next := Job(cache, r.job, r.now, r.fetch, r.analysis).cache;
      JobTouchesOnlyItsUrl(cache, r.job, r.now, r.fetch, r.analysis);
      var located := ExpandUrl(r.job.provider, r.job.username, r.job.reponame);
      if located.Ok? {
        UrlShape(r.job.provider, r.job.username, r.job.reponame);
        forall url | url in next
          ensures "https://" <= url && |url| >= 4 && url[|url| - 4..] == ".git"
        {
          if url != located.value {
            assert url in cache;
          }
        }
      }
      assert WellKeyed(next);
      ServeKeepsWellKeyed(next, requests[1..]);
    }
  }
}
