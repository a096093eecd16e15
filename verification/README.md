# klocc: cache-freshness model

klocc answers "how many lines of code does this repository have?". It resolves a
provider alias, owner and repository name to a clone URL, then clones the repository,
counts its lines and keeps the result in an in-memory cache keyed by URL. This project
models the core of the service in Dafny: the job handler `post_klocc_job` and the cache
policy it follows, the health count, the URL locator, the record constructors, and the
analyzer's own logic around the external tools. That logic covers reading the commit hash
out of `git ls-remote` output, making file paths relative to the repository, assembling
the per-language list and sorting it by size.

The job handler runs these stages in order, and each one can return early:

1. Resolve the URL. An unknown provider gets `err_bad_service`.
2. Fast path. A cached record confirmed at most 300 seconds ago (`VERIFY_MIN_INTERVAL`,
   boundary included) is served as `info_success_cached_recent`. No remote call is made.
3. Fetch the remote HEAD hash. On failure the answer is `err_failed_to_fetch_from_repo`.
4. Hash match. If the cached record's hash equals the fetched one, the record's
   confirmation time becomes `now` and it is served as `info_success_cached`.
5. Recompute. An analyzer failure gives `err_counter_failed` and leaves the cache as it
   was. On success the new record, stamped with the fetched hash, replaces the entry
   wholesale and is served as `info_success_generated`.

Files:

- `wrappers.dfy`: Option and Result.
- `text.dfy`: the semantics of `str::find` and `str::split` that the analyzer relies on.
- `utils.dfy`: `expand_url`.
- `data.dfy`: the records and the cache object (`Database`).
- `counter.dfy`: hash extraction, path stripping, language assembly and the in-place sort.
- `endpoints.dfy`: the job handler and the health handler.

The job handler is modelled in two parts. `Job` is a pure function that gives the answer,
the new cache and whether the remote and the analyzer were consulted. `PostKloccJob` is the
imperative handler over the `Database` object, and its contract says it does exactly what
`Job` says. The lemmas about `Job` state each exit and a few multi-request scenarios.

External calls become parameters:

- The current time is `now`.
- The hash fetch is a `Result<string>`.
- The analyzer's run is an `Analysis`: a record, an error message, or a panic.
- The line counter's report is a `Scan`.

src/data.rs, src/counter.rs and src/endpoints.rs do not agree on the record type, and the model uses one record for
all of them. `src/data.rs` has no `verified_time` field, has `HashMap` fields, and gives
`LanguageInfo::new` one argument. `src/counter.rs` pushes into vectors and passes a language
name. The model's record holds `repo`, `hash`, `verifiedTime`, `total`, and a sequence of
named languages, each holding a sequence of named files. Nothing in the source sets the
confirmation time of a freshly computed record, so it is a parameter of `GetDataFromRepo`
and of `Data.NewRecord`.

Two facts about the code shape the model:

- The trust window is measured from the last confirmation, which every hash match renews,
  and its boundary is inclusive (`verified_time + 300 >= now`).
- A failure to create the temporary directory and a failed clone both reach the caller as
  `err_counter_failed`. Counting has no error return: the result of `get_statistics` is
  never checked.

## Model

| member | source | states |
|---|---|---|
| `Utils.ExpandUrl` | src/utils.rs:6-12 | the result is `Ok` exactly for `github` and `gitlab`; for those it is exactly `https://github.com/<user>/<repo>.git` or `https://gitlab.com/<user>/<repo>.git` |
| `Utils.UnsupportedProviderNamed` | src/utils.rs:10 | any other provider is refused, and the refusal message contains the provider's name |
| `Utils.UrlShape` | src/utils.rs:8-9 | every URL produced starts with `https://` and ends with `.git` |
| `Utils.ProvidersDistinct` | src/utils.rs:8-9 | for the same owner and name, the GitHub and GitLab URLs differ |
| `Data.NewInfo` | src/data.rs:16-18 | code, comment and blank counts are stored unchanged |
| `Data.NewLanguageInfo` | src/data.rs:31-33 | the language keeps the given name and totals and starts with no files |
| `Data.NewRecord` | src/data.rs:49-51 | the record keeps the given URL and totals and has an empty hash and no languages |
| `Data.Database.constructor` | src/data.rs:58-61 | the cache starts empty |
| `Text.FirstOccurrence` | src/counter.rs:146 | `find`: the index returned is an occurrence with no earlier one; `None` exactly when the pattern does not occur |
| `Text.Split` | src/counter.rs:53 | `split` yields at least one piece; no piece contains the separator; the first piece is a prefix of the text followed by the separator or by the end of the text |
| `Text.JoinSplit` | src/counter.rs:53 | joining the pieces of a split with the separator gives back the text |
| `Counter.GetLatestHash` | src/counter.rs:22-57 | failures of spawning, exit status and decoding pass through unchanged; decoded output always yields a hash (the `None` branch cannot be reached); the hash is the prefix before the first tab, has no tab, and is the whole output when there is no tab |
| `Counter.StripPath` | src/counter.rs:146-147 | a stripped path is what follows the first occurrence of the repository name and the one character after it; that strip succeeds whenever the name occurs and the offset stays within the path; a path that does not contain the repository name panics |
| `Counter.StripPathUnderRoot` | src/counter.rs:146-147 | `<root>/<reponame>/<rest>` becomes `<rest>` when the name holds no `/` and does not occur in the root |
| `Counter.StripPathRootCollision` | src/counter.rs:146-147 | when the name does occur in the temporary root, the stored path is longer than `<rest>` and still carries `<reponame>/<rest>` |
| `Counter.StrippedFiles` | src/counter.rs:139-152 | one file per report, in report order, each with its stripped path and counts; `None` exactly when some path cannot be stripped |
| `Counter.Languages` | src/counter.rs:132-155 | one entry per reported language, in order, each with the language's name, counts and exactly its stripped files; `None` exactly when some path cannot be stripped |
| `Counter.CollectLanguage` | src/counter.rs:133-152 | the language loop's body pushes every report with its stripped path and yields that language's entry, or panics exactly when a path cannot be stripped |
| `Counter.Lines` | src/counter.rs:170-171 | the sum of three 32-bit counts fits in 64 bits and is at least each of them |
| `Counter.InsertDown` | src/counter.rs:169-176 | one insertion step extends the ordered prefix by one element, keeps the elements, and leaves the rest of the array alone |
| `Counter.SortByLines` | src/counter.rs:169-176 | after the sort the languages are non-increasing in total lines and are a permutation of the languages before it |
| `Counter.GetDataFromRepo` | src/counter.rs:60-183 | a failed temporary-directory creation or clone is passed on; otherwise the path stripping panics exactly when some path cannot be stripped, or else yields a record with the given URL, the overall totals, an empty hash and the languages of `Languages`, permuted and sorted largest first |
| `Endpoints.Status` | src/endpoints.rs:104-233 | the successful answers, which carry a record, get `status` 200 in their JSON; a bad provider and a failed fetch get `status` 400; an analyzer error gets `status` 500 (all of these go out as HTTP 200); an aborted request has no JSON and gets the HTTP 500 of the framework's answer to the panic |
| `Endpoints.MessageCode` | src/endpoints.rs:104-233 | every answer except an aborted request has a `message_code`; the codes starting with `err_` are exactly those of the answers whose `status` is not 200; each exit lemma names its exit's code |
| `Endpoints.Job` | src/endpoints.rs:104-233 | the job policy: the analyzer runs only after a hash fetch; only the two serving-from-record exits (`info_success_cached`, `info_success_generated`) change the cache, and then only by writing the served record under the request's URL |
| `Endpoints.GeneratedRecordKeepsAnalyzerGuarantees` | src/endpoints.rs:203-218 | a record from the analyzer that names the request's URL and is sorted largest first is stored under that URL with both properties and with the fetched hash |
| `Endpoints.PostKloccJob` | src/endpoints.rs:104-233 | the handler's answer, its new cache and the remote and analyzer calls it makes are exactly those of the job policy |
| `Endpoints.GetHealth` | src/endpoints.rs:81-90 | `cached_count` is the number of cache entries; the cache is not modified |
| `Endpoints.RejectsUnsupportedProvider` | src/endpoints.rs:111-114 | an unsupported provider is refused with `err_bad_service`; the cache is unchanged and there is no fetch and no analysis |
| `Endpoints.FastPathServesCachedRecord` | src/endpoints.rs:129-144 | a record confirmed at most 300 s ago (boundary included) is served as it is; no fetch, no analysis, cache unchanged |
| `Endpoints.StaleOrMissingAsksRemote` | src/endpoints.rs:133-157 | a missing record, or one confirmed more than 300 s ago, leads to a hash fetch |
| `Endpoints.FetchFailureLeavesCache` | src/endpoints.rs:146-157 | a failed fetch answers `err_failed_to_fetch_from_repo` with no analysis; the cache is unchanged |
| `Endpoints.HashMatchRenewsRecord` | src/endpoints.rs:169-186 | on a hash match the only change to the cache is that record's confirmation time becoming `now`; the answer carries the renewed record; no analysis |
| `Endpoints.MismatchStoresAnalysis` | src/endpoints.rs:190-232 | with no record or a different hash, the analyzer runs; on success the entry becomes the new record stamped with the fetched hash, other URLs are unchanged, one key at most is added, and the answer carries exactly the stored record |
| `Endpoints.AnalyzerFailureLeavesCache` | src/endpoints.rs:203-211 | an analyzer error answers `err_counter_failed`, and a panic aborts the request; either way the cache is unchanged, stale entry included |
| `Endpoints.JobTouchesOnlyItsUrl` | src/endpoints.rs:104-233 | on every exit only the request's own URL can change, nothing is removed, and the cache grows by at most one |
| `Endpoints.RepeatWithinWindowServedFromCache` | src/endpoints.rs:129-143 | a repeat request within the new record's window is served from the cache with the first answer's record and makes no remote call |
| `Endpoints.RenewedRecordSkipsRemote` | src/endpoints.rs:172-186 | after a hash match re-confirms a record at `now`, any request in the next 300 s skips the remote |
| `Endpoints.ServeNeverEvicts` | src/endpoints.rs:218 | over any sequence of requests, a cached URL stays cached |
| `Endpoints.ServeKeepsWellKeyed` | src/endpoints.rs:111-114 | starting from the empty cache, every key ever stored starts with `https://` and ends with `.git`, like every locator URL |

## Left out

- Process spawning for `git ls-remote` and `git clone`, their exit-status checks and the UTF-8 decoding of their output (src/counter.rs:24-50, 80-99). These are external I/O, so their outcomes are inputs: the decoded `ls-remote` output for `GetLatestHash`, and the `Scan` result for `GetDataFromRepo`.
- The line counter (`Languages::get_statistics`, `total()`, `sort_by(Sort::Lines)` on the reports). It is a foreign library, so its per-language and per-file counts arrive as a `Scan` with the reports already in the counter's order.
- The `as u32` casts of the counter's `usize` counts (src/counter.rs:122-149). Counts arrive already as 32-bit values, so truncation of counts of 2^32 lines or more is not modelled.
- Creating and removing the temporary directory (src/counter.rs:67-70, 180). This is filesystem work; a failure to create it, like a failed clone, is an `Err` of `Scan`.
- The other panics of `get_data_from_repo`. Paths are assumed to be valid UTF-8, so `to_str().unwrap()` (src/counter.rs:75, 141) never panics. Removing the temporary directory is assumed to succeed, so `dir.close().unwrap()` (src/counter.rs:180) never panics. `Panicked` stands only for the panics of path stripping.
- `SystemTime::now()`. The time is the parameter `now`, and the handler's two clock reads (src/endpoints.rs:134, 178) are taken as the same instant. Times are unbounded naturals, so a wrap-around of the 64-bit `verified_time + 300` is not modelled.
- The tokio mutex, `spawn_blocking`, and interleavings between the separate lock scopes in `post_klocc_job`. The model serves one request at a time. A request that inserts between the insert and the final read-back is a concurrency effect outside it.
- JSON formatting, the `message` texts of the successful answers, the `info!` logging and the Prometheus counter and `/metrics` endpoint (src/prom.rs). Answers are a datatype of message codes, and successful ones carry the record.
- Request-body parsing and Rocket wiring (src/body.rs, src/main.rs). These are framework code.
- Byte offsets of `find` and `drain`. The model indexes characters, which is the same for ASCII paths. A panic of `drain` on a non-character boundary is not modelled.
- Counter.SortByLines: the source's `sort_by` is stable. The model proves order and permutation but does not state that languages with equal totals keep their reported order.
