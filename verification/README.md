# Lumen MCP server: a verified model

The project models the parts of the Lumen MCP server that decide something: the latency analysis that turns a
Prometheus text into upstream timeouts, the gateway client and the authorised, audited invoker in front of it, and
the token verifier with its key cache. Everything is proved for all inputs, all runs and all interleavings.

## How the model is laid out

- **Text to histograms.** `Text` has the string operations the program uses. `Exposition` reads one line of metrics
  text and prints samples. `LatencySeries` is the scanning loop, over mutable histogram objects, proved equal to the
  pointwise sum (`Histograms`) of what the single lines contribute.
- **Histograms to timeouts.** `Quantiles` collects bounds in any order, sorts them (`Sorting`) and scans; the result
  is characterised without the scan. `Samples` relates it to the samples behind the buckets. `Timeouts` rounds,
  clamps and recommends. `Entries` builds the report, and `Selection` picks the entry to tune. `Exporter` and
  `Coverage` start from the samples an exporter saw and follow them through its text to the recommended timeout;
  `CoverageExact` says when that timeout covers whatever samples may lie behind the buckets, and `Padding` which ids
  make the two id filters disagree on a text.
- **The gateway.** `Encoding` is percent-encoding (section 2.1 of RFC 3986), query strings and decimal numbers, and
  `KeyOrder` the order of query keys. `Requests` builds the request of each tool and reads it back, `RequestTexts` spells requests out. `Gateway` is a store
  that reacts to requests and may lose any of them, and some answers. `TuningSpec` says what a call of the tuning tool
  sees and answers, `Tuning` makes the call, `TuningLaws` is what a call can and cannot do, and
  `ConcurrentTuning` any number of tuners with reads and writes interleaved.
- **Who may do what.** `Authorize` is the scope check and the shipped configuration, `Audit` the in-memory log,
  `Invoke` one call from token to log entry and whole runs of calls, key cache and key server included.
- **Tokens.** `JwksCache` is the key cache as a protocol of lookups, fetches in flight and commits. `JwksHeap` is the
  same cache as objects and byte buffers. `Tokens` is bearer verification on top of it (sections 4.1.1, 4.1.3, 4.1.4
  and 7.2 of RFC 7519, section 5.2 of RFC 7515).
- `Options`, `Ports` and `Wrappers` hold tool arguments, claims and the optional and fallible results.

## Conventions

- Numbers are exact reals. A bucket bound is a real or the unbounded one. `strconv`, base64url, JSON and
  HMAC-SHA256 are unknown functions passed as parameters, so each result holds for any of them. An exporter's number
  printer is assumed to be inverted by the number parser on the numbers it prints, and only on those.
- Text is ASCII for spaces and letter case. A Go string is a byte string; a character beyond a byte passes through
  the encoding, which only makes the functions total.
- Go maps are visited in an arbitrary order (`:|`), and nothing relies on the stability of a sort.
- Time and the server's answers are parameters of the methods and steps of the protocol.

## Where the code says something else

- Recommendations always use the 95% quantile; the `quantile` option is validated and reported only.
- A phase without a positive p95 is taken to last its minimum before the safety factor is applied, so a slower phase
  can get a shorter timeout. `RecommendDropsAboveZero` is an instance; `RecommendMonotoneExactly` says for which
  latencies and options it happens, `MonotoneUnderAllOptions` for which latencies under some options.
- The recommended read timeout covers 95% of the samples only if the estimate is backed by a finite bucket and the
  limit has room for it. `CoveredExactly` shows that without either, other samples with the same buckets escape.
- The algorithm name of a token is compared without regard to letter case, where section 4.1.1 of RFC 7515 makes it
  case-sensitive.
- A write that the gateway accepts but answers with something other than a JSON object, or whose answer is lost, is
  reported as failed although it took effect. `FailureKeepsExactly` and `FailedCallKeepsExactly` say when a failed call
  has left the gateway as it was.
- Ids are trimmed when a target is chosen but not while scanning. `FiltersAgreeExactly` says on which ids the two filters
  agree, `FailTogetherExactly` says it of whole texts, and `PaddedText` is a text on which they do not.
- The last resort of choosing a target, taking the first entry, is dead code: without filters the first entry matches.
- A fetch that commits late can replace newer keys by older ones (`KeysMayMoveBack`). `NeverMovesBackExactly` says that
  this is ruled out exactly when no time may pass between the server's answer and the commit. Staleness stays bounded,
  by exactly the refresh interval plus that delay (`ObtainableExactly`).

## Model

| member | source | states |
|---|---|---|
| Text.SplitAppend | internal/infrastructure/gatewayclient/latency_tools.go:300 | splitting two texts joined by a newline gives the lines of both |
| Text.SplitJoin | internal/infrastructure/gatewayclient/latency_tools.go:473 | splitting undoes joining when no piece holds the separator |
| Text.TrimEnclosed | internal/infrastructure/gatewayclient/latency_tools.go:302 | trimming removes exactly a run of cut characters from either end |
| Text.TrimSpaceExactly | internal/infrastructure/gatewayclient/latency_tools.go:302 | the trimmed text is the one part without spaces at its ends and with nothing but spaces around it |
| Text.FieldsAppend | internal/infrastructure/gatewayclient/latency_tools.go:463 | a space between two texts separates their words |
| Exposition.ParseLabels | internal/infrastructure/gatewayclient/latency_tools.go:471-488 | the loop computes the label dictionary, later items winning, malformed ones skipped |
| Exposition.SampleSplits | internal/infrastructure/gatewayclient/latency_tools.go:452-469 | a printed line is cut into its metric, its label text and its value, braces inside values included |
| Exposition.SampleRoundTrip | internal/infrastructure/gatewayclient/latency_tools.go:452-488 | a printed sample reads back as its metric, labels and value |
| Exposition.ExpositionRoundTrip | internal/infrastructure/gatewayclient/latency_tools.go:300-319 | printing any list of samples and scanning the text recovers the list |
| Exposition.LabelMapLookup | internal/infrastructure/gatewayclient/latency_tools.go:472-487 | with distinct names every printed label is found under its name |
| Exposition.LineMeans | internal/infrastructure/gatewayclient/latency_tools.go:302-310 | exactly the lines with something before their first opening brace and after their last closing one, comments aside, are readings, of those parts |
| Options.DefaultTuningOptions | internal/infrastructure/gatewayclient/latency_tools.go:58-93 | each option is the argument or its default, brought into range |
| Options.DefaultOptions | internal/infrastructure/gatewayclient/latency_tools.go:58-70 | the defaults |
| Options.OptionsGiven | internal/infrastructure/gatewayclient/latency_tools.go:58-93 | every argument reaches the option of its name, or its bound when out of range |
| Options.BoolMeans | internal/infrastructure/gatewayclient/latency_tools.go:532-548 | what counts as true and as false |
| Options.WholeNumberMeans | internal/infrastructure/gatewayclient/http_client.go:311-335 | whole numbers as they are, fractions cut off, texts read, anything else missing |
| LatencySeries.HistogramSeries.Record | internal/infrastructure/gatewayclient/latency_tools.go:359-373 | one line adds its value to a bucket, the sum or the count and leaves the rest |
| LatencySeries.DecodeLine | internal/infrastructure/gatewayclient/latency_tools.go:301-352 | the chain of checks accepts a line exactly when name, labels, filters, status class and value allow it |
| LatencySeries.ReadingCounts | internal/infrastructure/gatewayclient/latency_tools.go:307-373 | which readings count and for what: the three metrics, the labels and the filters, status class 2 unless all are asked for |
| LatencySeries.ParseLatencySeries | internal/infrastructure/gatewayclient/latency_tools.go:298-376 | the loop's objects, distinct and fresh, hold the pointwise sum of the lines' contributions |
| LatencySeries.SumOfAppend | internal/infrastructure/gatewayclient/latency_tools.go:298-376 | the histograms of two lists of lines add up to those of the lists together |
| LatencySeries.ParseAppend | internal/infrastructure/gatewayclient/latency_tools.go:298-376 | parsing two texts joined by a newline is the pointwise sum of the parses |
| LatencySeries.SumOfPermutation | internal/infrastructure/gatewayclient/latency_tools.go:298-376 | the order of the lines does not matter |
| LatencySeries.FilterPushdown | internal/infrastructure/gatewayclient/latency_tools.go:328-339 | filtering while scanning equals scanning everything and restricting the keys |
| Histograms.PlusAssociates | internal/infrastructure/gatewayclient/latency_tools.go:353-373 | the pointwise sum is associative |
| Histograms.PlusCommutes | internal/infrastructure/gatewayclient/latency_tools.go:353-373 | the pointwise sum is commutative |
| Sorting.Sort | internal/infrastructure/gatewayclient/latency_tools.go:271-275 | the result is ordered and a rearrangement of the input, nothing more |
| Quantiles.Quantile | internal/infrastructure/gatewayclient/latency_tools.go:422-450 | the least finite bound whose bucket reaches the target, or else the greatest finite bound, or 0 |
| Quantiles.HistogramQuantile | internal/infrastructure/gatewayclient/latency_tools.go:422-450 | collecting in any order, sorting and scanning finds that bound |
| Quantiles.ScanBounds | internal/infrastructure/gatewayclient/latency_tools.go:436-449 | the scan over sorted bounds returns the least bound that reaches the target |
| Quantiles.QuantileMonotone | internal/infrastructure/gatewayclient/latency_tools.go:422-450 | a higher quantile is never smaller, whatever the buckets hold |
| Samples.QuantileSound | internal/infrastructure/gatewayclient/latency_tools.go:422-450 | on cumulative buckets of any samples, the least bound covering the nearest-rank sample, or the greatest finite bound |
| Samples.QuantileCovers | internal/infrastructure/gatewayclient/latency_tools.go:432-448 | an estimate that falls in a finite bucket covers the demanded share of the samples |
| Samples.MergeInRange | internal/infrastructure/gatewayclient/latency_tools.go:334-372 | the quantile of a bucket-wise sum lies between the two separate ones |
| Coverage.MergedClassesInRange | internal/infrastructure/gatewayclient/latency_tools.go:334-396 | the p95 of two merged status classes lies between theirs |
| Timeouts.SummarizeHistogram | internal/infrastructure/gatewayclient/latency_tools.go:378-396 | count with its fallback, mean, p95 and p99 of a series |
| Timeouts.SummaryOrdered | internal/infrastructure/gatewayclient/latency_tools.go:390-395 | p95 is at most p99, before and after rounding |
| Timeouts.Round2Close | internal/infrastructure/gatewayclient/latency_tools.go:490-492 | rounding moves a value by at most 0.005 |
| Timeouts.Round2Monotone | internal/infrastructure/gatewayclient/latency_tools.go:490-492 | rounding keeps the order |
| Timeouts.Round2Exactly | internal/infrastructure/gatewayclient/latency_tools.go:490-492 | the nearest two decimals, halves away from zero |
| Timeouts.SummaryExactly | internal/infrastructure/gatewayclient/latency_tools.go:378-396 | the count falls back to the unbounded bucket, and mean and quantiles follow it |
| Timeouts.RecommendInRange | internal/infrastructure/gatewayclient/latency_tools.go:411-419 | every timeout is between 1 and its limit, and send equals read |
| Timeouts.TimeoutsLeast | internal/infrastructure/gatewayclient/latency_tools.go:398-420 | with a positive p95 each timeout is the least whole number of seconds covering the margin and the minimum, up to the limit |
| Timeouts.ReadTimeoutCovers | internal/infrastructure/gatewayclient/latency_tools.go:398-420 | the read timeout covers p95 times the safety factor exactly when the limit does |
| Timeouts.RecommendMonotoneExactly | internal/infrastructure/gatewayclient/latency_tools.go:398-420 | for given options, a slower phase gets no shorter connect or read timeout exactly when no drop across the zero fallback occurs |
| Timeouts.MonotoneUnderAllOptions | internal/infrastructure/gatewayclient/latency_tools.go:398-420 | under all options, the same exactly when the zero fallback applies to both latencies or neither |
| Timeouts.RecommendDropsAboveZero | internal/infrastructure/gatewayclient/latency_tools.go:401-409 | the exception is real: no data gives 3 s, one millisecond gives 1 s |
| Entries.AggregateByKey | internal/infrastructure/gatewayclient/latency_tools.go:222-232 | exactly the series with enough samples are filed under their key and phase |
| Entries.BuildLatencyEntries | internal/infrastructure/gatewayclient/latency_tools.go:221-277 | exactly one entry per key with a reportable total series, slowest rounded p95 first |
| Entries.EntryListed | internal/infrastructure/gatewayclient/latency_tools.go:235-239 | an entry is reported exactly when its key has a reportable total series |
| Selection.ChosenIsSlowest | internal/infrastructure/gatewayclient/latency_tools.go:279-296 | no matching entry is slower than the chosen one; no choice means no match |
| Selection.TargetNearSlowest | internal/infrastructure/gatewayclient/latency_tools.go:221-296 | on a scanned text the choice never fails and its true p95 is within 0.01 ms of the largest |
| Selection.FilterChoice | internal/infrastructure/gatewayclient/latency_tools.go:279-339 | for ids that trimming leaves alone or empties, filtering before or after gives the same rounded p95 and fails together |
| Selection.FiltersAgreeExactly | internal/infrastructure/gatewayclient/latency_tools.go:280-339 | the scanner's filter and the filter of the choice agree on an entry under all valid options exactly when trimming leaves its ids alone or empties them |
| Padding.FailTogetherExactly | internal/infrastructure/gatewayclient/latency_tools.go:279-339 | on the text exported for one histogram, filtering before and after fail together under all valid options exactly when its ids are such |
| Padding.PaddedText | internal/infrastructure/gatewayclient/latency_tools.go:279-339 | a text for the route " r1": the filtered report is empty, the choice from the unfiltered one succeeds |
| Exporter.WholeNumbersExportable | internal/infrastructure/gatewayclient/latency_tools.go:341-366 | decimal whole numbers meet the assumptions made about an exporter's printer |
| Exporter.LineDecodes | internal/infrastructure/gatewayclient/latency_tools.go:307-373 | what one printed bucket, sum or count line decodes to |
| Exporter.FamilyParses | internal/infrastructure/gatewayclient/latency_tools.go:298-376 | the lines of one histogram parse to that histogram, or to nothing when filtered out |
| Coverage.ExportParses | internal/infrastructure/gatewayclient/latency_tools.go:298-376 | a whole export parses to the histogram of all samples of each accepted series |
| Coverage.EntryTimeout | internal/infrastructure/gatewayclient/latency_tools.go:251-268 | an entry's read timeout covers its own p95 margin exactly when the limit does |
| Coverage.EntryTimeoutsLeast | internal/infrastructure/gatewayclient/latency_tools.go:235-268 | an entry's timeouts are the least ones covering its own connect and total phases |
| Coverage.ReportTellsSamples | internal/infrastructure/gatewayclient/latency_tools.go:221-270 | an entry has exactly the phases with enough samples, and tells of each, and of the total, the number of samples exported and their mean, p95 and p99 to 0.005 ms |
| Coverage.EntryTells | internal/infrastructure/gatewayclient/latency_tools.go:221-270 | the same against the summaries of the series, for any metrics |
| Coverage.EndToEndCoverage | internal/infrastructure/gatewayclient/latency_tools.go:298-450 | from samples through the text to the report, the read timeout covers at least 95% of the samples with the safety factor |
| CoverageExact.CoveredExactly | internal/infrastructure/gatewayclient/latency_tools.go:398-450 | the read timeout covers 95% of any samples with the same buckets exactly when a finite bucket backs the p95 and the limit has room for its margin |
| CoverageExact.EntryCoveredExactly | internal/infrastructure/gatewayclient/latency_tools.go:298-450 | the same for a reported entry, from the exported text |
| Encoding.EscapeRoundTrip | internal/infrastructure/gatewayclient/http_client.go:149-167 | percent-encoding is reversible |
| Encoding.EscapeHides | internal/infrastructure/gatewayclient/http_client.go:149-167 | percent-encoding lets no delimiter through |
| Encoding.EscapedByte | internal/infrastructure/gatewayclient/http_client.go:149-167 | what becomes of each byte |
| Encoding.ParamsRoundTrip | internal/infrastructure/gatewayclient/http_client.go:250-265 | a query string gives back its parameters, in order |
| Encoding.ItoaRoundTrip | internal/infrastructure/gatewayclient/http_client.go:195-197 | a decimal text gives its number back |
| Encoding.ItoaDigits | internal/infrastructure/gatewayclient/http_client.go:195-197 | decimal digits, the last one counting units |
| Requests.BuildListQuery | internal/infrastructure/gatewayclient/http_client.go:250-265 | the query built step by step holds the keyword, the positive page and the positive page size |
| Requests.EncodeValues | internal/infrastructure/gatewayclient/http_client.go:180-264 | encoding sorts the keys, so any ascending list of at least those keys gives the same text |
| Requests.BuildExportQuery | internal/infrastructure/gatewayclient/http_client.go:180-194 | the query built step by step holds the format and every kind |
| Requests.AsStringSlice | internal/infrastructure/gatewayclient/http_client.go:291-309 | the non-blank strings of a list, trimmed, in order |
| Requests.KindOfNamed | internal/infrastructure/gatewayclient/http_client.go:215-236 | the kind read off a tool name is the plural of its noun |
| Requests.RequestRoundTrip | internal/infrastructure/gatewayclient/http_client.go:136-213 | a request can be read back to the tool and its normalised arguments |
| Requests.BuildRequestInjective | internal/infrastructure/gatewayclient/http_client.go:136-265 | equal requests come from the same tool with the same normalised arguments |
| Requests.ListParamsInjective | internal/infrastructure/gatewayclient/http_client.go:250-265 | equal list queries ask for the same keyword, positive page and positive page size |
| Requests.ExportParamsInjective | internal/infrastructure/gatewayclient/http_client.go:180-194 | equal export queries ask for the same format and kinds |
| Requests.ReadToolsGet | internal/infrastructure/gatewayclient/http_client.go:140-210 | the reading tools send GET requests only |
| RequestTexts.AdminPaths | internal/infrastructure/gatewayclient/http_client.go:140-210 | every path lies under the admin interface |
| RequestTexts.ImportSends | internal/infrastructure/gatewayclient/http_client.go:168-179 | an import sends its "request" object, or all its arguments |
| RequestTexts.HistoryAsks | internal/infrastructure/gatewayclient/http_client.go:195-197 | the history is asked for with the given limit, or 10 |
| RequestTexts.QueryText | internal/infrastructure/gatewayclient/http_client.go:180-264 | the text of a query |
| RequestTexts.ItemsKept | internal/infrastructure/gatewayclient/http_client.go:291-309 | exactly the texts of a list that are not blank survive, trimmed, in order |
| Gateway.Server.Send | internal/infrastructure/gatewayclient/http_client.go:69-81 | a request is logged and is answered and applied, or fails without effect unless only its answer was lost |
| Gateway.Server.InvokeGatewayTool | internal/infrastructure/gatewayclient/http_client.go:46-90 | one request at most, none when it cannot be built, and the answer is the object that came back |
| Gateway.ReadsChangeNothing | internal/infrastructure/gatewayclient/http_client.go:69-81 | any number of reads leaves the store as it was |
| Tuning.FetchPhaseSeries | internal/infrastructure/gatewayclient/latency_tools.go:213-219 | one read of the metrics, which fails exactly when no text comes back and otherwise yields its parse |
| Tuning.AnalyzeLatency | internal/infrastructure/gatewayclient/latency_tools.go:95-118 | one read, no change, and a report of the text that came back, or an error exactly when none did |
| Tuning.TuneEntry | internal/infrastructure/gatewayclient/latency_tools.go:153-211 | from the chosen entry: what is read, and unless it is a dry run written back, and the answer or error that the replies decide |
| Tuning.TuneUpstreamTimeout | internal/infrastructure/gatewayclient/latency_tools.go:120-211 | the messages of a whole call, the answer that the replies decide, and the final store |
| TuningSpec.UpstreamPathInjective | internal/infrastructure/gatewayclient/http_client.go:144-155 | different upstreams live at different paths |
| TuningLaws.TuneChangesOneTimeout | internal/infrastructure/gatewayclient/latency_tools.go:129-210 | nothing changes but the timeout of the chosen upstream, whose three parts become what is recommended; an update reported is one made, a dry run, an empty report or an empty id change nothing |
| TuningLaws.ReportTells | internal/infrastructure/gatewayclient/latency_tools.go:157-191 | a call that found its upstream tells the mode, the entry and the timeout that was there before |
| TuningSpec.OutcomesExactly | internal/infrastructure/gatewayclient/latency_tools.go:153-211 | the outcomes listed for a call are exactly those some exchange of requests and replies leads to |
| TuningSpec.TuneOutcomesExactly | internal/infrastructure/gatewayclient/latency_tools.go:120-211 | the same for a whole call |
| TuningLaws.FailureKeepsExactly | internal/infrastructure/gatewayclient/latency_tools.go:199-206 | a failed call from a chosen entry has changed nothing exactly when its write is not one that takes effect and can still be seen to fail |
| TuningLaws.FailedCallKeepsExactly | internal/infrastructure/gatewayclient/latency_tools.go:120-211 | the same for a whole call |
| TuningLaws.RecommendedInRange | internal/infrastructure/gatewayclient/latency_tools.go:143-151 | whatever is applied lies between one second and the limits |
| TuningLaws.SecondTuneIsNoOp | internal/infrastructure/gatewayclient/latency_tools.go:120-211 | a second call on the same metrics changes nothing when the slowest rounded p95 is unique |
| ConcurrentTuning.TunersKeepEverythingElse | internal/infrastructure/gatewayclient/latency_tools.go:158-206 | in every interleaving each upstream keeps its other fields, and the parts of a changed timeout are those some tuner computed for it |
| ConcurrentTuning.LoneTunerIsARun | internal/infrastructure/gatewayclient/latency_tools.go:158-206 | a successful call on its own is one such run |
| Authorize.CheckMonotone | internal/application/authorize/service.go:14-84 | adding scopes never turns allow into deny |
| Authorize.CheckFolded | internal/application/authorize/service.go:14-84 | order, repetition and letter case of scopes do not matter, not even for the reason |
| Authorize.AllowedExactly | internal/application/authorize/service.go:14-84 | a call is allowed exactly when the global and the tool's requirements are met |
| Authorize.RefusedExactly | internal/application/authorize/service.go:14-41 | a refusal names the first global requirement not met, or the missing registration, or what the tool requires |
| Authorize.ReadersOnlyRead | configs/config.example.yaml:37-60 | under the shipped map a principal without a writing scope is allowed reading tools only |
| Authorize.ShippedExactly | configs/config.example.yaml:35-60 | under the shipped map exactly the principals with the tools scope and a reading or a writing scope, older names included, are allowed the reading or the writing tools |
| Audit.MemoryStore.Append | internal/infrastructure/auditstore/store.go:20-25 | the log grows by the event, at its end |
| Audit.MemoryStore.List | internal/infrastructure/auditstore/store.go:27-40 | the most recent events up to the limit, or all of them |
| Invoke.InvokeClient | internal/infrastructure/gatewayclient/http_client.go:31-44 | each tool exchanges exactly its own messages, and answers what the replies decide |
| Invoke.Service.InvokeTool | internal/application/invoke/service.go:19-37 | one call: the answer it serves or its refusal, the one event it logs, and what the gateway saw |
| Invoke.AuditCorrespondence | internal/application/invoke/service.go:19-37 | over any run the log gains one event per call, in order, telling who called what, and "deny", "allow" or "error" exactly when the call was stopped, the replies amount to success, or they do not |
| Invoke.OnlyAdmittedPass | internal/application/invoke/service.go:19-37 | over any run from a reachable cache, a call not denied had a token that is well formed, suits the server and is signed by keys the key server handed out within the refresh interval plus the delay, and whose scopes allow the tool |
| Invoke.ReaderSendsReads | internal/infrastructure/gatewayclient/http_client.go:31-213 | an allowed call by a principal without a writing scope sends GET requests only |
| Invoke.ReadOnlySafety | internal/application/invoke/service.go:19-37 | any run of such calls sends only GET requests and leaves the gateway as it was |
| JwksCache.BoundedStaleness | internal/infrastructure/jwkscache/verifier.go:160-216 | keys of a hit were the server's less than the refresh interval plus the commit delay ago, and are not empty |
| JwksCache.ObtainableExactly | internal/infrastructure/jwkscache/verifier.go:160-216 | the keys a call can obtain at a moment are exactly the non-empty key sets served less than the refresh interval plus the commit delay before |
| JwksCache.CommitTimesAdvance | internal/infrastructure/jwkscache/verifier.go:160-216 | the commit moment never moves back and only a commit changes the cache |
| JwksCache.ConstantServer | internal/infrastructure/jwkscache/verifier.go:160-216 | with an unchanging server every reachable cache is empty or holds its keys |
| JwksCache.LoneLoadIsARun | internal/infrastructure/jwkscache/verifier.go:160-216 | loading in one go is a run of the protocol |
| JwksCache.NeverMovesBackExactly | internal/infrastructure/jwkscache/verifier.go:168-213 | no run replaces keys by ones served earlier exactly when the commit delay is not positive |
| JwksCache.KeysMayMoveBack | internal/infrastructure/jwkscache/verifier.go:168-213 | with any refresh interval and any positive delay, a late commit can replace newer keys by older ones |
| JwksHeap.CloneSecretMap | internal/infrastructure/jwkscache/verifier.go:225-233 | the copy has the same contents in memory of its own |
| JwksHeap.ReadKeys | internal/infrastructure/jwkscache/verifier.go:191-205 | the loop keeps the decodable symmetric keys under their trimmed or positional ids |
| JwksHeap.KeysExactly | internal/infrastructure/jwkscache/verifier.go:191-205 | an id has the bytes of the last symmetric, decodable key that goes under it |
| JwksHeap.Verifier.TryCache | internal/infrastructure/jwkscache/verifier.go:161-168 | a hit returns a private copy of fresh keys |
| JwksHeap.Verifier.Store | internal/infrastructure/jwkscache/verifier.go:210-213 | the cache takes a private copy and the moment |
| JwksHeap.Verifier.LoadJwksKeys | internal/infrastructure/jwkscache/verifier.go:160-216 | hit, miss and error answers with their effect on the cache, and no memory shared with it |
| JwksHeap.CallerCannotReach | internal/infrastructure/jwkscache/verifier.go:163-233 | a caller overwriting what it was given changes neither the cache nor later answers |
| Tokens.PickSecret | internal/infrastructure/jwkscache/verifier.go:148-157 | the named key, or any key when none is named, or the error |
| Tokens.SelectSecret | internal/infrastructure/jwkscache/verifier.go:143-158 | the same from what loading yields, which moves the cache |
| Tokens.VerifyBearer | internal/infrastructure/jwkscache/verifier.go:70-141 | the outcome is one that parsing, loading, selecting and judging allow |
| Tokens.ParsedExactly | internal/infrastructure/jwkscache/verifier.go:71-105 | parsing succeeds exactly on three decodable parts with algorithm HS256 |
| Tokens.AcceptedExactly | internal/infrastructure/jwkscache/verifier.go:70-141 | a token can be accepted, with its own subject, client and scopes, exactly when it is well formed, signed by a usable key, and suits issuer, audience and time |
| Tokens.RefusedExactly | internal/infrastructure/jwkscache/verifier.go:106-158 | a well-formed token can be refused exactly for want of its key or for the first check it fails: signature, issuer, audience, expiry |
| Tokens.AcceptedInWindow | internal/infrastructure/jwkscache/verifier.go:70-216 | with a server that rotates its keys and overlapping calls, a token can be accepted exactly when it is good for a key set served less than the refresh interval plus the commit delay before |
| Tokens.CachedRefinesUncached | internal/infrastructure/jwkscache/verifier.go:143-216 | from every reachable cache the possible outcomes are those without a cache, while the keys stay the same |
| Tokens.FailedFetchIsSafe | internal/infrastructure/jwkscache/verifier.go:143-216 | when fetches fail the outcome is that failure or one the server's keys allow |

## Left out

- IEEE floating point: not-a-number, infinities other than the unbounded bucket, rounding of sums and overflow of the conversion to an integer.
- HTTP transport, headers and timeouts, and JSON encoding: the gateway answers request values, and an empty reply counts as an object.
- Unicode spaces and letter case: only ASCII ones are recognised.
- `json.Number` arguments: a decoded argument is a float, a string, a boolean, a list, an object or null.
- Gateway.Server.Send: what PATCH and POST do to the resources is an arbitrary function of the gateway.
- Sorting.Sort: works on a sequence and returns the sorted one, where the library sorts a slice in place.
- Invoke.Service.InvokeTool: the message of an "error" event is a fixed text, not the client's error text; calls come one after the other, overlapping ones are covered for the keys only (`AcceptedInWindow`).
- JwksHeap.Verifier.LoadJwksKeys: runs its two locked sections in one call; their interleaving with other calls is the protocol in `JwksCache`, of which one call is a run (`LoneLoadIsARun`).
- Error texts of the gateway client: an error return is a case without its wording, except the reasons of the scope check.
- The formatting of tool results as maps, and the messages in them.
- SQLite and Postgres audit stores, browser login, client registration, protocol wiring, HTTP handlers, logging, metrics and configuration loading.
