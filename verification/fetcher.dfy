/** The fetcher side: an older, in-place style of filter options whose
    country setters either append to or replace a list, the per-fetcher
    proxy buffer, and the session that hands one shared last-request
    timestamp to every fetcher it spawns. */
module Fetching {
  import opened Types

  /** Filter options as the fetcher holds them; country lists start empty
      and every other field starts absent. */
  datatype FetcherOpts = FetcherOpts(
    apiKey: Option<string>,
    level: Option<Level>,
    protocol: Option<Protocol>,
    countries: seq<string>,
    notCountries: seq<string>,
    lastChecked: Option<Duration>,
    port: Option<NonZeroU16>,
    timeToConnect: Option<Duration>,
    cookies: Option<bool>,
    connectsToGoogle: Option<bool>,
    https: Option<bool>,
    post: Option<bool>,
    referer: Option<bool>,
    forwardsUserAgent: Option<bool>)

  /** `Opts::default()`. */
  const DefaultOpts: FetcherOpts :=
    FetcherOpts(None, None, None, [], [], None, None, None, None, None, None, None, None, None)

  /** Names the fields, to state which one a setter touches. */
  datatype Field =
    | ApiKeyField | LevelField | ProtocolField | CountriesField | NotCountriesField
    | LastCheckedField | PortField | TimeToConnectField | CookiesField | GoogleField
    | HttpsField | PostField | RefererField | UserAgentField

  /** `a` and `b` hold the same value in field `f`. */
  predicate SameField(a: FetcherOpts, b: FetcherOpts, f: Field) {
    match f
    case ApiKeyField => a.apiKey == b.apiKey
    case LevelField => a.level == b.level
    case ProtocolField => a.protocol == b.protocol
    case CountriesField => a.countries == b.countries
    case NotCountriesField => a.notCountries == b.notCountries
    case LastCheckedField => a.lastChecked == b.lastChecked
    case PortField => a.port == b.port
    case TimeToConnectField => a.timeToConnect == b.timeToConnect
    case CookiesField => a.cookies == b.cookies
    case GoogleField => a.connectsToGoogle == b.connectsToGoogle
    case HttpsField => a.https == b.https
    case PostField => a.post == b.post
    case RefererField => a.referer == b.referer
    case UserAgentField => a.forwardsUserAgent == b.forwardsUserAgent
  }

  /** `a` and `b` agree on every field except possibly `f`. */
  predicate AgreeExcept(a: FetcherOpts, b: FetcherOpts, f: Field) {
    forall g :: g != f ==> SameField(a, b, g)
  }

  /** Options that agree field by field are equal. */
  lemma OptsExtensionality(a: FetcherOpts, b: FetcherOpts)
    requires forall f :: SameField(a, b, f)
    ensures a == b
  {
    assert SameField(a, b, ApiKeyField) && SameField(a, b, LevelField);
    assert SameField(a, b, ProtocolField) && SameField(a, b, CountriesField);
    assert SameField(a, b, NotCountriesField) && SameField(a, b, LastCheckedField);
    assert SameField(a, b, PortField) && SameField(a, b, TimeToConnectField);
    assert SameField(a, b, CookiesField) && SameField(a, b, GoogleField);
    assert SameField(a, b, HttpsField) && SameField(a, b, PostField);
    assert SameField(a, b, RefererField) && SameField(a, b, UserAgentField);
  }

  function SetApiKey(o: FetcherOpts, apiKey: string): (r: FetcherOpts)
    ensures r.apiKey == Some(apiKey) && AgreeExcept(o, r, ApiKeyField)
  {
    o.(apiKey := Some(apiKey))
  }

  function SetLevel(o: FetcherOpts, level: Level): (r: FetcherOpts)
    ensures r.level == Some(level) && AgreeExcept(o, r, LevelField)
  {
    o.(level := Some(level))
  }

  function SetProtocol(o: FetcherOpts, protocol: Protocol): (r: FetcherOpts)
    ensures r.protocol == Some(protocol) && AgreeExcept(o, r, ProtocolField)
  {
    o.(protocol := Some(protocol))
  }

  /** `country`: appends one code to the allow list. */
  function AddCountry(o: FetcherOpts, country: string): (r: FetcherOpts)
    ensures |r.countries| == |o.countries| + 1
    ensures r.countries[..|o.countries|] == o.countries && r.countries[|o.countries|] == country
    ensures AgreeExcept(o, r, CountriesField)
  {
    o.(countries := o.countries + [country])
  }

  /** `countries`: replaces the allow list with the given codes, in order. */
  function SetCountries(o: FetcherOpts, countries: seq<string>): (r: FetcherOpts)
    ensures r.countries == countries && AgreeExcept(o, r, CountriesField)
  {
    o.(countries := countries)
  }

  /** `not_country`: appends one code to the block list. */
  function AddNotCountry(o: FetcherOpts, notCountry: string): (r: FetcherOpts)
    ensures |r.notCountries| == |o.notCountries| + 1
    ensures r.notCountries[..|o.notCountries|] == o.notCountries
    ensures r.notCountries[|o.notCountries|] == notCountry
    ensures AgreeExcept(o, r, NotCountriesField)
  {
    o.(notCountries := o.notCountries + [notCountry])
  }

  /** `not_countries`: replaces the block list with the given codes, in order. */
  function SetNotCountries(o: FetcherOpts, notCountries: seq<string>): (r: FetcherOpts)
    ensures r.notCountries == notCountries && AgreeExcept(o, r, NotCountriesField)
  {
    o.(notCountries := notCountries)
  }

  function SetLastChecked(o: FetcherOpts, lastChecked: Duration): (r: FetcherOpts)
    ensures r.lastChecked == Some(lastChecked) && AgreeExcept(o, r, LastCheckedField)
  {
    o.(lastChecked := Some(lastChecked))
  }

  function SetPort(o: FetcherOpts, port: NonZeroU16): (r: FetcherOpts)
    ensures r.port == Some(port) && AgreeExcept(o, r, PortField)
  {
    o.(port := Some(port))
  }

  function SetTimeToConnect(o: FetcherOpts, timeToConnect: Duration): (r: FetcherOpts)
    ensures r.timeToConnect == Some(timeToConnect) && AgreeExcept(o, r, TimeToConnectField)
  {
    o.(timeToConnect := Some(timeToConnect))
  }

  function SetCookies(o: FetcherOpts, cookies: bool): (r: FetcherOpts)
    ensures r.cookies == Some(cookies) && AgreeExcept(o, r, CookiesField)
  {
    o.(cookies := Some(cookies))
  }

  function SetConnectsToGoogle(o: FetcherOpts, connectsToGoogle: bool): (r: FetcherOpts)
    ensures r.connectsToGoogle == Some(connectsToGoogle) && AgreeExcept(o, r, GoogleField)
  {
    o.(connectsToGoogle := Some(connectsToGoogle))
  }

  function SetHttps(o: FetcherOpts, https: bool): (r: FetcherOpts)
    ensures r.https == Some(https) && AgreeExcept(o, r, HttpsField)
  {
    o.(https := Some(https))
  }

  function SetPost(o: FetcherOpts, post: bool): (r: FetcherOpts)
    ensures r.post == Some(post) && AgreeExcept(o, r, PostField)
  {
    o.(post := Some(post))
  }

  function SetReferer(o: FetcherOpts, referer: bool): (r: FetcherOpts)
    ensures r.referer == Some(referer) && AgreeExcept(o, r, RefererField)
  {
    o.(referer := Some(referer))
  }

  function SetForwardsUserAgent(o: FetcherOpts, forwardsUserAgent: bool): (r: FetcherOpts)
    ensures r.forwardsUserAgent == Some(forwardsUserAgent) && AgreeExcept(o, r, UserAgentField)
  {
    o.(forwardsUserAgent := Some(forwardsUserAgent))
  }

  /** Calling `country` once per code, in order. */
  function AddCountries(o: FetcherOpts, codes: seq<string>): FetcherOpts
    decreases |codes|
  {
    if |codes| == 0 then o else AddCountries(AddCountry(o, codes[0]), codes[1..])
  }

  /** Appending codes one at a time is the same as replacing the list with
      the old list followed by those codes. */
  lemma {:induction false} AppendEachIsReplace(o: FetcherOpts, codes: seq<string>)
    ensures AddCountries(o, codes) == SetCountries(o, o.countries + codes)
    decreases |codes|
  {
    if |codes| == 0 {
      assert o.countries + codes == o.countries;
      OptsExtensionality(o, SetCountries(o, o.countries));
    } else {
      var o' := AddCountry(o, codes[0]);
      AppendEachIsReplace(o', codes[1..]);
      assert o'.countries + codes[1..] == o.countries + codes;
      var a := SetCountries(o', o.countries + codes);
      var b := SetCountries(o, o.countries + codes);
      assert forall f :: SameField(a, b, f);
      OptsExtensionality(a, b);
    }
  }

  /** Replacing a list discards whatever was appended to it before, and
      leaves the other list alone. */
  lemma ReplaceDiscardsAppends(o: FetcherOpts, c: string, codes: seq<string>)
    ensures SetCountries(AddCountry(o, c), codes) == SetCountries(o, codes)
    ensures SetNotCountries(AddNotCountry(o, c), codes) == SetNotCountries(o, codes)
    ensures AddCountry(o, c).notCountries == o.notCountries
    ensures AddNotCountry(o, c).countries == o.countries
  {
    var a := SetCountries(AddCountry(o, c), codes);
    var b := SetCountries(o, codes);
    assert forall f :: SameField(a, b, f);
    OptsExtensionality(a, b);
    var x := SetNotCountries(AddNotCountry(o, c), codes);
    var y := SetNotCountries(o, codes);
    assert forall f :: SameField(x, y, f);
    OptsExtensionality(x, y);
    assert SameField(o, AddCountry(o, c), NotCountriesField);
    assert SameField(o, AddNotCountry(o, c), CountriesField);
  }

  /** `std::net::IpAddr`: four octets, or eight 16-bit segments. */
  datatype IpAddr = V4(octets: seq<u8>) | V6(segments: seq<u16>)

  /** A point in time as the monotonic clock reports it. */
  datatype Instant = Instant(ticks: int)

  /** A reference-counted handle to one shared timestamp. Clones of a handle
      point to the same allocation, so handles are equal exactly when they
      share it. */
  datatype SharedInstant = SharedInstant(allocation: nat, instant: Instant)

  /** A fetcher: the shared timestamp, its own options and its buffer of
      proxies not yet handed out. */
  datatype Fetcher = Fetcher(lastFetched: SharedInstant, opts: FetcherOpts, proxies: seq<IpAddr>)

  /** `Fetcher::new`: an empty buffer with the given handle and options. */
  function NewFetcher(lastFetched: SharedInstant, opts: FetcherOpts): (f: Fetcher)
    ensures f.lastFetched == lastFetched && f.opts == opts
    ensures |f.proxies| == 0
  {
    Fetcher(lastFetched, opts, [])
  }

  /** `Fetcher::drain`: everything still buffered, in buffer order. */
  function Drain(f: Fetcher): (ps: seq<IpAddr>)
    ensures |ps| == |f.proxies|
    ensures forall i :: 0 <= i < |ps| ==> ps[i] == f.proxies[i]
  {
    f.proxies
  }

  /** A fetcher that has not fetched anything drains to nothing. */
  lemma DrainFresh(lastFetched: SharedInstant, opts: FetcherOpts)
    ensures Drain(NewFetcher(lastFetched, opts)) == []
  {
  }

  /** The owner of one shared timestamp. */
  datatype Session = Session(lastFetched: SharedInstant)

  /** `Session::new`: a fresh handle, at `allocation`, holding the instant
      the session was created at. */
  function NewSession(allocation: nat, now: Instant): (s: Session)
    ensures s.lastFetched.instant == now && s.lastFetched.allocation == allocation
  {
    Session(SharedInstant(allocation, now))
  }

  /** `Session::spawn_fetcher`: a new fetcher holding a clone of the
      session's handle. */
  function SpawnFetcher(s: Session, opts: FetcherOpts): (f: Fetcher)
    ensures f.lastFetched == s.lastFetched
    ensures f.opts == opts && |f.proxies| == 0
  {
    NewFetcher(s.lastFetched, opts)
  }

  /** Fetchers spawned from one session share its timestamp; fetchers from
      sessions with different allocations do not. */
  lemma SpawnedFetchersShareClock(s: Session, t: Session, o1: FetcherOpts, o2: FetcherOpts)
    ensures SpawnFetcher(s, o1).lastFetched == SpawnFetcher(s, o2).lastFetched
    ensures s.lastFetched.allocation != t.lastFetched.allocation ==>
              SpawnFetcher(s, o1).lastFetched != SpawnFetcher(t, o2).lastFetched
  {
  }
}
