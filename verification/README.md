# lead-oxide core, modelled in Dafny

A model of the pure parts of `lead-oxide`, a client library for the
pubproxy.com proxy-list API, with proofs about their behaviour:

- **API error classification** (`src/errors.rs`). A response body is matched
  exactly against the four messages the API is known to send. Unrecognised
  text is then refined by the HTTP status into a client (4xx) or server (5xx)
  error that keeps the status and the text. The four messages are copied
  verbatim, including the line break and 26 spaces inside the rate-limit
  message.
- **Response post-processing** (`src/proxy.rs`). Decoded raw entries become
  typed `Proxy` values. The seven 0/1/absent capability flags become booleans,
  and the speed text is read with Rust's `u64::from_str` rules. Entries whose
  country could not be resolved are dropped, and the order of the rest is kept.
- **Options** (`src/opts.rs`). The builder has one setter per field. `build`
  derives the page size (5 without an API key, 20 with one), converts the
  staleness bound to whole minutes and the connect-time bound to whole
  seconds, and fills in the default country filter. The table of
  query-parameter names covers every field; fields without a value are left out.
- **Fetcher side** (`src/fetcher.rs`). The older options type has `country` and
  `not_country`, which append, and `countries` and `not_countries`, which
  replace. It also covers the fetcher's proxy buffer and the session that hands
  one shared timestamp handle to every fetcher it spawns.

Files: `types.dfy` (shared vocabulary: fixed-width integers, `Level`,
`Protocol`, `Duration`, `Countries`), `decimal.dfy` (decimal parse and print),
`errors.dfy`, `proxy.dfy`, `opts.dfy`, `fetcher.dfy`. Each source file maps to
one module.

Modelling choices:

- Rust `Duration` is modelled as whole seconds plus sub-second nanoseconds. This
  makes the truncation in `as_secs()` visible in the contracts.
- The foreign libraries are inputs to the model:
  - JSON decoding: `ProxiesFromJson` takes the decoded entries, or the decode
    error.
  - The country decoder: `IgnoreBadCountries` takes its result.
  - The `"%F %T"` date parser: a function parameter.
- Panics and `unreachable!` become preconditions:
  - `Classifiable` for `FromResponse`.
  - `Convertible` for `FromRaw`.
- Query parameters are `(key, value)` pairs before percent-encoding. Keys are a
  closed enumeration with an explicit wire-name table (`WireName`), which is
  proved to be invertible.
- Behaviour of the code that the model keeps as written:
  - `Session::new` stores `Instant::now()` (`src/fetcher.rs:146-150`).
  - `From<OptsBuilder>` performs no range checks (`src/opts.rs:225-251`).
  - The fetcher buffer holds `IpAddr` values (`src/fetcher.rs:116-120`).

## Model

| member | source | states |
|---|---|---|
| ApiErrors.MakeOutOfBounds | src/errors.rs:23-26 | the out-of-bounds error stores exactly the given value and bounds |
| ApiErrors.FromText | src/errors.rs:96-105 | a body is classified `Unknown` exactly when it is none of the four known messages, and otherwise as one of the four message variants |
| ApiErrors.MessagesDistinct | src/errors.rs:87-94 | the four message constants are pairwise distinct, so no text can name two variants |
| ApiErrors.KnownMessagesClassified | src/errors.rs:98-102 | each known message maps to its own variant: `ApiKey`, `RateLimit`, `DailyLimit`, `NoProxy` |
| ApiErrors.ClassifyMessageRoundTrip | src/errors.rs:87-105 | a message variant is produced by its own message and by no other text (classification inverts the message table) |
| ApiErrors.FromResponse | src/errors.rs:61-85 | never `Unknown`; a known message decides whatever the status; otherwise 4xx gives `Client` and 5xx gives `Server`, both with status and text unchanged; any other status with unknown text is excluded, as the source's `unreachable!` |
| ApiErrors.KnownTextIgnoresStatus | src/errors.rs:65-67 | a known message gives the same variant under every status code |
| ApiErrors.StatusVariantsCharacterised | src/errors.rs:68-80 | `Client` arises exactly from unknown text with a status below 500 and `Server` exactly from unknown text with 500 or above, both keeping status and text |
| Decimal.ToDecimal | src/opts.rs:319-323 | numbers are written as canonical numerals (no superfluous leading zero) whose digits denote the number |
| Decimal.ParseU64 | src/proxy.rs:87-93 | the speed text parses exactly when, after at most one leading `+`, it is a non-empty run of ASCII digits whose value is below 2^64, and then to that value; leading zeros are allowed |
| Decimal.CanonicalRoundTrip | src/proxy.rs:87-93 | printing the value of a canonical numeral gives the numeral back |
| Decimal.PrintParseRoundTrip | src/proxy.rs:87-93 | parsing a printed number gives the number back |
| Decimal.PlusSignAccepted | src/proxy.rs:87 | a leading `+` in front of any unsigned text changes neither whether it parses nor its value |
| Decimal.LeadingZeroAccepted | src/proxy.rs:87 | a leading `0` in front of any digit string changes neither whether it parses nor its value |
| Decimal.ParseExamples | src/proxy.rs:87 | `007` and `+07` read as 7; a bare `+` and the empty text are rejected |
| Decimal.ParsePrintRoundTrip | src/proxy.rs:87-93 | a canonical numeral that parses to `n` is exactly the printed form of `n` |
| Decimal.OverflowRejected | src/proxy.rs:87-92 | values that do not fit in 64 bits are rejected, not wrapped |
| Decimal.MinusRejected | src/proxy.rs:87-92 | a leading minus sign is rejected |
| Proxies.IgnoreBadCountries | src/proxy.rs:39-46 | a country that fails to decode becomes `Unspecified` instead of failing the batch; a decoded country is kept |
| Proxies.ParseFlag | src/proxy.rs:135-139 | a capability flag is true iff its raw value is exactly `Some(1)` |
| Proxies.SupportsFromRaw | src/proxy.rs:133-151 | each of the seven capabilities is true iff its own raw field is `Some(1)` |
| Proxies.SupportsNoCrossTalk | src/proxy.rs:141-149 | each capability depends only on its matching raw field |
| Proxies.DefaultSupportsCharacterised | src/proxy.rs:121-131 | `Supports::default()` (all seven false) is produced exactly when no raw flag is `Some(1)`, in particular when all are absent |
| Proxies.FromRaw | src/proxy.rs:77-105 | socket, country, level and protocol are copied; the timestamp is the parser's result; the connect time is the speed text parsed as whole seconds; supports are converted flag by flag |
| Proxies.SpeedRoundTrip | src/proxy.rs:87-93 | a speed written as a numeral converts to exactly that many seconds |
| Proxies.ConvertAll | src/proxy.rs:110-113 | the map stage converts every entry, keeping length and position |
| Proxies.KeepResolved | src/proxy.rs:114-117 | the filter never keeps an `Unspecified` country, keeps every resolved proxy, and never grows the list |
| Proxies.KeepResolvedIsSubsequence | src/proxy.rs:110-118 | the filtered list is an order-preserving subsequence of the converted list |
| Proxies.KeepResolvedKeepsAll | src/proxy.rs:117 | a batch whose countries are all resolved passes the filter unchanged |
| Proxies.KeepResolvedAppend | src/proxy.rs:110-118 | filtering distributes over concatenation, so it may be applied entry by entry |
| Proxies.ConvertAllExtend | src/proxy.rs:110-113 | converting one more entry appends exactly that entry's conversion |
| Proxies.ProxiesFromJson | src/proxy.rs:108-119 | a decode error is passed through; otherwise the result is the converted batch with unresolved countries filtered out |
| Proxies.ProxiesFromJsonProperties | src/proxy.rs:108-119 | the result has no `Unspecified` country, is an order-preserving subsequence of the converted input, is no longer than the input, and contains every resolved entry |
| Options.BuilderExtensionality | src/opts.rs:15-30 | builders equal field by field are equal, so each setter's frame condition fixes its result |
| Options.WithApiKey | src/opts.rs:34-37 | sets `api_key` to the value and leaves every other field unchanged |
| Options.WithLevel | src/opts.rs:41-44 | sets `level` to the value and leaves every other field unchanged |
| Options.WithProtocol | src/opts.rs:47-50 | sets `protocol` to the value and leaves every other field unchanged |
| Options.WithCountries | src/opts.rs:53-56 | sets `countries` to the value and leaves every other field unchanged |
| Options.WithLastChecked | src/opts.rs:60-63 | sets `last_checked` to the value and leaves every other field unchanged |
| Options.WithPort | src/opts.rs:66-69 | sets `port` to the value and leaves every other field unchanged |
| Options.WithTimeToConnect | src/opts.rs:74-77 | sets `time_to_connect` to the value and leaves every other field unchanged |
| Options.WithCookies | src/opts.rs:80-83 | sets `cookies` to the value and leaves every other field unchanged |
| Options.WithConnectsToGoogle | src/opts.rs:86-89 | sets `connects_to_google` to the value and leaves every other field unchanged |
| Options.WithHttps | src/opts.rs:92-95 | sets `https` to the value and leaves every other field unchanged |
| Options.WithPost | src/opts.rs:98-101 | sets `post` to the value and leaves every other field unchanged |
| Options.WithReferer | src/opts.rs:104-107 | sets `referer` to the value and leaves every other field unchanged |
| Options.WithForwardsUserAgent | src/opts.rs:110-113 | sets `forwards_user_agent` to the value and leaves every other field unchanged |
| Options.Apply | src/opts.rs:32-114 | each of the thirteen builder setters stores its value in its own field and leaves the other twelve fields unchanged |
| Options.SettersOverwrite | src/opts.rs:32-114 | for every setter, setting a field twice keeps only the second value |
| Options.SettersCommute | src/opts.rs:32-114 | for every pair of setters writing different fields, the order of the two calls does not matter |
| Options.LimitValue | src/opts.rs:122-127 | the limit is sent as 20 exactly for `Premium` and as 5 otherwise |
| Options.IsPremium | src/opts.rs:220-222 | options are premium exactly when they hold an API key; through `Build`, exactly when their limit is `Premium` |
| Options.WholeMinutes | src/opts.rs:236-238 | the staleness bound becomes the duration's whole seconds divided by 60, rounded down (bracketed in nanoseconds) |
| Options.Build | src/opts.rs:225-252 | `limit` is `Premium` iff an API key is present, so `is_premium` agrees with the limit; the staleness bound becomes whole minutes and the connect-time bound whole seconds, both rounded down; an absent country filter becomes the empty default; `format` is JSON; every other field is copied |
| Options.BuildDefault | src/opts.rs:215-217 | building an untouched builder gives `Opts::default()` |
| Options.WireName | src/opts.rs:187-208 | each parameter's query key is its field name or serde rename (`api`, `type`, `last_check`, `speed`, `google`, `user_agent`); no key is empty or contains `=` or `&`, so every pair splits back at its first `=` |
| Options.FieldValueCases | src/opts.rs:185-211 | `limit` and `format=json` always have a text; the key is sent as given; a non-empty country filter is flattened into exactly one of `country` (allow list) and `not_country` (block list) with the comma-joined codes, and an empty one into neither. The `not_country` key is fixed by the source's test; the `country` key for an allow list is an assumption |
| Options.EmitAllSound | src/opts.rs:185-211 | every parameter emitted for a list of keys belongs to one of those keys and carries that key's field text |
| Options.Serialize | src/opts.rs:185-211 | the options are sent as at most sixteen parameters, each carrying its own field's text |
| Options.WireNamesDistinct | src/opts.rs:187-208 | every parameter's wire name reads back to that parameter, so no two parameters share a name |
| Options.EmitAllCount | src/opts.rs:185-211 | each listed parameter is emitted once per listing, with its field's value, and only when the field has one |
| Options.CountUnique | src/opts.rs:185-211 | a key found at exactly one position of the table occurs once in it |
| Options.AllKeysOnce | src/opts.rs:185-211 | the parameter table lists every parameter exactly once |
| Options.SerializedParams | src/opts.rs:185-211 | every parameter is sent exactly once with its field's text when the field has a value, and not at all otherwise; `limit` and `format=json` are always sent |
| Options.SerializesByFields | src/opts.rs:264-277 | the parameters equal an expected collection, regardless of order, when the field texts match it |
| Options.RenderAll | src/opts.rs:266-267 | a parameter list becomes one `key=value` pair per parameter, keeping length and position |
| Options.RenderAllRemove | src/opts.rs:266-267 | taking one parameter out of a list takes exactly its pair out of the rendering |
| Options.RenderPermutation | src/opts.rs:264-277 | two parameter lists with the same elements render to the same pairs up to order, which is why the test may sort both sides |
| Options.SendsRendered | src/opts.rs:264-277 | options sent as a given collection of parameters produce, up to order, exactly the pairs those parameters render to under their wire names |
| Options.DefaultSerialization | src/opts.rs:280 | default options are sent as exactly the parameters `limit` = 5 and `format` = json, which render to the pairs `format=json` and `limit=5` |
| Options.TestNumerals | src/opts.rs:311-323 | the numerals of the serialization test are printed as `5`, `10`, `20` and `8080` |
| Options.ApiKeySerialization | src/opts.rs:282-285 | options built with the key `<key>` are sent as exactly the pairs `api=<key>`, `format=json` and `limit=20`: the key goes under `api` and raises the limit |
| Options.EmptyCountriesSerialization | src/opts.rs:286-291 | an empty country list is left out: the options are sent as exactly `format=json` and `limit=5` |
| Options.KitchenSinkBuild | src/opts.rs:293-308 | setting every option and building gives the key with the premium limit, the blocked countries CH and ES, ten minutes of staleness as 10 whole minutes and ten seconds of connect time as 10 whole seconds |
| Options.KitchenSinkListed | src/opts.rs:309-331 | the fifteen parameters the kitchen-sink test lists, in its order, are the expected collection |
| Options.KitchenSinkRendered | src/opts.rs:309-331 | the fifteen listed parameters render, position by position, to the test's pairs `limit=20`, `format=json`, `api=<key>`, `level=elite`, `type=socks4`, `not_country=CH,ES`, `last_check=10`, `speed=10`, `port=8080`, `cookies=true`, `google=false`, `https=true`, `post=false`, `referer=true`, `user_agent=false` |
| Options.KitchenSinkSerialization | src/opts.rs:292-332 | with every option set, the options are sent as exactly those fifteen pairs, in any order |
| Fetching.OptsExtensionality | src/fetcher.rs:9-25 | options equal field by field are equal |
| Fetching.SetApiKey | src/fetcher.rs:28-31 | sets `api_key` and leaves every other field unchanged |
| Fetching.SetLevel | src/fetcher.rs:33-36 | sets `level` and leaves every other field unchanged |
| Fetching.SetProtocol | src/fetcher.rs:38-41 | sets `protocol` and leaves every other field unchanged |
| Fetching.AddCountry | src/fetcher.rs:43-46 | appends the code at the end of `countries`, keeping the earlier codes, and changes nothing else |
| Fetching.SetCountries | src/fetcher.rs:48-54 | replaces `countries` with the given codes in order and changes nothing else |
| Fetching.AddNotCountry | src/fetcher.rs:56-59 | appends the code at the end of `not_countries`, keeping the earlier codes, and changes nothing else |
| Fetching.SetNotCountries | src/fetcher.rs:61-67 | replaces `not_countries` with the given codes in order and changes nothing else |
| Fetching.SetLastChecked | src/fetcher.rs:69-72 | sets `last_checked` and leaves every other field unchanged |
| Fetching.SetPort | src/fetcher.rs:74-77 | sets `port` and leaves every other field unchanged |
| Fetching.SetTimeToConnect | src/fetcher.rs:79-82 | sets `time_to_connect` and leaves every other field unchanged |
| Fetching.SetCookies | src/fetcher.rs:84-87 | sets `cookies` and leaves every other field unchanged |
| Fetching.SetConnectsToGoogle | src/fetcher.rs:89-92 | sets `connects_to_google` and leaves every other field unchanged |
| Fetching.SetHttps | src/fetcher.rs:94-97 | sets `https` and leaves every other field unchanged |
| Fetching.SetPost | src/fetcher.rs:99-102 | sets `post` and leaves every other field unchanged |
| Fetching.SetReferer | src/fetcher.rs:104-107 | sets `referer` and leaves every other field unchanged |
| Fetching.SetForwardsUserAgent | src/fetcher.rs:109-112 | sets `forwards_user_agent` and leaves every other field unchanged |
| Fetching.AppendEachIsReplace | src/fetcher.rs:43-54 | calling `country` once per code equals `countries` with the old list followed by those codes |
| Fetching.ReplaceDiscardsAppends | src/fetcher.rs:43-67 | replacing a list discards earlier appends to it; appending to one list leaves the other alone |
| Fetching.NewFetcher | src/fetcher.rs:123-129 | a new fetcher has an empty buffer, the given options and the given timestamp handle |
| Fetching.Drain | src/fetcher.rs:135-137 | drain returns the buffer exactly as held, element for element |
| Fetching.DrainFresh | src/fetcher.rs:123-137 | a fetcher that has fetched nothing drains to nothing |
| Fetching.NewSession | src/fetcher.rs:146-150 | a new session holds a handle at the given allocation holding the given creation instant |
| Fetching.SpawnFetcher | src/fetcher.rs:152-154 | a spawned fetcher holds the session's handle, the given options and an empty buffer |
| Fetching.SpawnedFetchersShareClock | src/fetcher.rs:146-154 | all fetchers from one session hold the same handle; fetchers from sessions with different allocations do not |

## Left out

- `Fetcher::try_get` (`src/fetcher.rs:131-133`) is `todo!()` in the source, so
  there is no fetching behaviour to model.
- Wall-clock time and concurrency are not modelled. This covers
  `Instant::now()`, the `Arc` reference count, `DELAY` (`src/constants.rs:8`)
  and thread sleeping. `Session::new` receives the current instant and the
  handle's allocation as parameters.
- HTTP transport, `API_URI` and `REPO_URI` are left out: they are I/O and the
  text of panic messages.
- JSON decoding with serde is not modelled; its result is an input.
- Percent-encoding with `serde_urlencoded` is not modelled: parameters are
  unencoded pairs. The test's `api=%3Ckey%3E` is therefore stated as
  `api=<key>`, and `not_country=CH%2CES` as `not_country=CH,ES`.
- Date parsing with chrono is a caller-supplied function rather than a model
  of the `"%F %T"` parser.
- `SocketAddrV4` parsing is left out: the socket arrives already parsed.
- ISO 3166 country decoding is left out: its result is an input to
  `IgnoreBadCountries`.
- `LastChecked`, `TimeToConnect` and `Countries` are imported from
  `crate::types` (`src/opts.rs:5`), while `src/types.rs` defines only `Level`
  and `Protocol`. Their range checks are not modelled, and
  `Countries` is a minimal allow/block list of codes. Only the `not_country`
  key for a block list is pinned by the source's test; the `country` key for an
  allow list is an assumption.
- `Level` and `Protocol` are sent as their lower-case names. Only `elite` and
  `socks4` are pinned by the source's test; the other tokens are an assumption.
- The `Display` texts of the errors (`thiserror` attributes,
  `src/errors.rs:19`, `src/errors.rs:35-58`) are left out: they are
  presentation only.
- Module wiring in `src/lib.rs` is left out.
- Options.DefaultSerialization: states the pairs without order and before percent-encoding, because the source's test sorts both sides before comparing.
- Options.ApiKeySerialization: states the pairs without order and before percent-encoding (`api=<key>`), as the source's test compares them sorted.
- Options.EmptyCountriesSerialization: states the pairs without order and before percent-encoding, as the source's test compares them sorted.
- Options.KitchenSinkSerialization: states the pairs without order and before percent-encoding (`not_country=CH,ES`), as the source's test compares them sorted.
