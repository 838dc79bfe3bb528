/** Filter options: a builder with one setter per field, the `build` step
    that derives the page size and converts durations, and the table of
    query-parameter names the options are sent under. */
module Options {
  import opened Types
  import Decimal

  /** The draft options; every field starts absent. */
  datatype OptsBuilder = OptsBuilder(
    apiKey: Option<string>,
    level: Option<Level>,
    protocol: Option<Protocol>,
    countries: Option<Countries>,
    lastChecked: Option<LastChecked>,
    port: Option<NonZeroU16>,
    timeToConnect: Option<TimeToConnect>,
    cookies: Option<bool>,
    connectsToGoogle: Option<bool>,
    https: Option<bool>,
    post: Option<bool>,
    referer: Option<bool>,
    forwardsUserAgent: Option<bool>)

  /** `Opts::builder()`. */
  const DefaultBuilder: OptsBuilder :=
    OptsBuilder(None, None, None, None, None, None, None, None, None, None, None, None, None)

  /** Names the fields of the builder, to state which one a setter touches. */
  datatype BuilderField =
    | ApiKeyField | LevelField | ProtocolField | CountriesField | LastCheckedField
    | PortField | TimeToConnectField | CookiesField | GoogleField | HttpsField
    | PostField | RefererField | UserAgentField

  /** `a` and `b` hold the same value in field `f`. */
  predicate SameField(a: OptsBuilder, b: OptsBuilder, f: BuilderField) {
    match f
    case ApiKeyField => a.apiKey == b.apiKey
    case LevelField => a.level == b.level
    case ProtocolField => a.protocol == b.protocol
    case CountriesField => a.countries == b.countries
    case LastCheckedField => a.lastChecked == b.lastChecked
    case PortField => a.port == b.port
    case TimeToConnectField => a.timeToConnect == b.timeToConnect
    case CookiesField => a.cookies == b.cookies
    case GoogleField => a.connectsToGoogle == b.connectsToGoogle
    case HttpsField => a.https == b.https
    case PostField => a.post == b.post
    case RefererField => a.referer == b.referer
    case UserAgentField => a.forwardsUserAgent == b.forwardsUserAgent
  }

  /** `a` and `b` agree on every field except possibly `f`. */
  predicate AgreeExcept(a: OptsBuilder, b: OptsBuilder, f: BuilderField) {
    forall g :: g != f ==> SameField(a, b, g)
  }

  /** Builders that agree field by field are the same builder, so a setter's
      frame condition together with its own field determines the result. */
  lemma BuilderExtensionality(a: OptsBuilder, b: OptsBuilder)
    requires forall f :: SameField(a, b, f)
    ensures a == b
  {
    assert SameField(a, b, ApiKeyField) && SameField(a, b, LevelField);
    assert SameField(a, b, ProtocolField) && SameField(a, b, CountriesField);
    assert SameField(a, b, LastCheckedField) && SameField(a, b, PortField);
    assert SameField(a, b, TimeToConnectField) && SameField(a, b, CookiesField);
    assert SameField(a, b, GoogleField) && SameField(a, b, HttpsField);
    assert SameField(a, b, PostField) && SameField(a, b, RefererField);
    assert SameField(a, b, UserAgentField);
  }

  function WithApiKey(b: OptsBuilder, apiKey: string): (r: OptsBuilder)
    ensures r.apiKey == Some(apiKey) && AgreeExcept(b, r, ApiKeyField)
  {
    b.(apiKey := Some(apiKey))
  }

  function WithLevel(b: OptsBuilder, level: Level): (r: OptsBuilder)
    ensures r.level == Some(level) && AgreeExcept(b, r, LevelField)
  {
    b.(level := Some(level))
  }

  function WithProtocol(b: OptsBuilder, protocol: Protocol): (r: OptsBuilder)
    ensures r.protocol == Some(protocol) && AgreeExcept(b, r, ProtocolField)
  {
    b.(protocol := Some(protocol))
  }

  function WithCountries(b: OptsBuilder, countries: Countries): (r: OptsBuilder)
    ensures r.countries == Some(countries) && AgreeExcept(b, r, CountriesField)
  {
    b.(countries := Some(countries))
  }

  function WithLastChecked(b: OptsBuilder, lastChecked: LastChecked): (r: OptsBuilder)
    ensures r.lastChecked == Some(lastChecked) && AgreeExcept(b, r, LastCheckedField)
  {
    b.(lastChecked := Some(lastChecked))
  }

  function WithPort(b: OptsBuilder, port: NonZeroU16): (r: OptsBuilder)
    ensures r.port == Some(port) && AgreeExcept(b, r, PortField)
  {
    b.(port := Some(port))
  }

  function WithTimeToConnect(b: OptsBuilder, timeToConnect: TimeToConnect): (r: OptsBuilder)
    ensures r.timeToConnect == Some(timeToConnect) && AgreeExcept(b, r, TimeToConnectField)
  {
    b.(timeToConnect := Some(timeToConnect))
  }

  function WithCookies(b: OptsBuilder, cookies: bool): (r: OptsBuilder)
    ensures r.cookies == Some(cookies) && AgreeExcept(b, r, CookiesField)
  {
    b.(cookies := Some(cookies))
  }

  function WithConnectsToGoogle(b: OptsBuilder, connectsToGoogle: bool): (r: OptsBuilder)
    ensures r.connectsToGoogle == Some(connectsToGoogle) && AgreeExcept(b, r, GoogleField)
  {
    b.(connectsToGoogle := Some(connectsToGoogle))
  }

  function WithHttps(b: OptsBuilder, https: bool): (r: OptsBuilder)
    ensures r.https == Some(https) && AgreeExcept(b, r, HttpsField)
  {
    b.(https := Some(https))
  }

  function WithPost(b: OptsBuilder, post: bool): (r: OptsBuilder)
    ensures r.post == Some(post) && AgreeExcept(b, r, PostField)
  {
    b.(post := Some(post))
  }

  function WithReferer(b: OptsBuilder, referer: bool): (r: OptsBuilder)
    ensures r.referer == Some(referer) && AgreeExcept(b, r, RefererField)
  {
    b.(referer := Some(referer))
  }

  function WithForwardsUserAgent(b: OptsBuilder, forwardsUserAgent: bool): (r: OptsBuilder)
    ensures r.forwardsUserAgent == Some(forwardsUserAgent) && AgreeExcept(b, r, UserAgentField)
  {
    b.(forwardsUserAgent := Some(forwardsUserAgent))
  }

  /** One call of a builder setter, with the value it is given. */
  datatype Setter =
    | ApiKeyTo(apiKey: string)
    | LevelTo(level: Level)
    | ProtocolTo(protocol: Protocol)
    | CountriesTo(countries: Countries)
    | LastCheckedTo(lastChecked: LastChecked)
    | PortTo(port: NonZeroU16)
    | TimeToConnectTo(timeToConnect: TimeToConnect)
    | CookiesTo(cookies: bool)
    | GoogleTo(connectsToGoogle: bool)
    | HttpsTo(https: bool)
    | PostTo(post: bool)
    | RefererTo(referer: bool)
    | UserAgentTo(forwardsUserAgent: bool)

  /** The field a setter writes. */
  function FieldOf(s: Setter): BuilderField {
    match s
    case ApiKeyTo(_) => ApiKeyField
    case LevelTo(_) => LevelField
    case ProtocolTo(_) => ProtocolField
    case CountriesTo(_) => CountriesField
    case LastCheckedTo(_) => LastCheckedField
    case PortTo(_) => PortField
    case TimeToConnectTo(_) => TimeToConnectField
    case CookiesTo(_) => CookiesField
    case GoogleTo(_) => GoogleField
    case HttpsTo(_) => HttpsField
    case PostTo(_) => PostField
    case RefererTo(_) => RefererField
    case UserAgentTo(_) => UserAgentField
  }

  /** `b` holds the value the setter writes, in the setter's field. */
  predicate Holds(b: OptsBuilder, s: Setter) {
    match s
    case ApiKeyTo(v) => b.apiKey == Some(v)
    case LevelTo(v) => b.level == Some(v)
    case ProtocolTo(v) => b.protocol == Some(v)
    case CountriesTo(v) => b.countries == Some(v)
    case LastCheckedTo(v) => b.lastChecked == Some(v)
    case PortTo(v) => b.port == Some(v)
    case TimeToConnectTo(v) => b.timeToConnect == Some(v)
    case CookiesTo(v) => b.cookies == Some(v)
    case GoogleTo(v) => b.connectsToGoogle == Some(v)
    case HttpsTo(v) => b.https == Some(v)
    case PostTo(v) => b.post == Some(v)
    case RefererTo(v) => b.referer == Some(v)
    case UserAgentTo(v) => b.forwardsUserAgent == Some(v)
  }

  /** Two builders holding the same setter's value agree in its field. */
  lemma HoldsDeterminesField(x: OptsBuilder, y: OptsBuilder, s: Setter)
    requires Holds(x, s) && Holds(y, s)
    ensures SameField(x, y, FieldOf(s))
  {
  }

  /** Any of the thirteen builder setters, applied to `b`. */
  function Apply(b: OptsBuilder, s: Setter): (r: OptsBuilder)
    ensures Holds(r, s) && AgreeExcept(b, r, FieldOf(s))
  {
    match s
    case ApiKeyTo(v) => WithApiKey(b, v)
    case LevelTo(v) => WithLevel(b, v)
    case ProtocolTo(v) => WithProtocol(b, v)
    case CountriesTo(v) => WithCountries(b, v)
    case LastCheckedTo(v) => WithLastChecked(b, v)
    case PortTo(v) => WithPort(b, v)
    case TimeToConnectTo(v) => WithTimeToConnect(b, v)
    case CookiesTo(v) => WithCookies(b, v)
    case GoogleTo(v) => WithConnectsToGoogle(b, v)
    case HttpsTo(v) => WithHttps(b, v)
    case PostTo(v) => WithPost(b, v)
    case RefererTo(v) => WithReferer(b, v)
    case UserAgentTo(v) => WithForwardsUserAgent(b, v)
  }

  /** Setting a field twice keeps only the second value, for every setter. */
  lemma SettersOverwrite(b: OptsBuilder, s1: Setter, s2: Setter)
    requires FieldOf(s1) == FieldOf(s2)
    ensures Apply(Apply(b, s1), s2) == Apply(b, s2)
  {
    var x := Apply(Apply(b, s1), s2);
    var y := Apply(b, s2);
    forall f ensures SameField(x, y, f) {
      if f == FieldOf(s2) {
        HoldsDeterminesField(x, y, s2);
      }
    }
    BuilderExtensionality(x, y);
  }

  /** A setter of another field leaves an earlier setter's value in place. */
  lemma LaterSetterKeepsEarlier(b: OptsBuilder, s1: Setter, s2: Setter)
    requires FieldOf(s1) != FieldOf(s2)
    ensures Holds(Apply(Apply(b, s1), s2), s1)
  {
    var x1 := Apply(b, s1);
    assert SameField(x1, Apply(x1, s2), FieldOf(s1));
  }

  /** Setters of different fields commute, for every pair of setters. */
  lemma SettersCommute(b: OptsBuilder, s1: Setter, s2: Setter)
    requires FieldOf(s1) != FieldOf(s2)
    ensures Apply(Apply(b, s1), s2) == Apply(Apply(b, s2), s1)
  {
    var x := Apply(Apply(b, s1), s2);
    var y := Apply(Apply(b, s2), s1);
    LaterSetterKeepsEarlier(b, s1, s2);
    LaterSetterKeepsEarlier(b, s2, s1);
    HoldsDeterminesField(x, y, s1);
    HoldsDeterminesField(x, y, s2);
    forall f | f != FieldOf(s1) && f != FieldOf(s2) ensures SameField(x, y, f) {
      SameFieldChain(b, Apply(b, s1), x, Apply(b, s2), y, f);
    }
    BuilderExtensionality(x, y);
  }

  /** Two builders that each agree in a field with a builder agreeing with
      `b` there agree with each other in that field. */
  lemma SameFieldChain(b: OptsBuilder, x1: OptsBuilder, x: OptsBuilder, y1: OptsBuilder,
                       y: OptsBuilder, f: BuilderField)
    requires SameField(b, x1, f) && SameField(x1, x, f)
    requires SameField(b, y1, f) && SameField(y1, y, f)
    ensures SameField(x, y, f)
  {
  }

  /** The number of proxies one request returns: 5 without a key, 20 with. */
  datatype Limit = Free | Premium

  /** The page size a limit stands for, as it is sent. */
  function LimitValue(l: Limit): (n: u8)
    ensures n == 5 || n == 20
    ensures n == 20 <==> l == Premium
  {
    match l
    case Free => 5
    case Premium => 20
  }

  /** The response format; only JSON is used. */
  datatype Format = Json

  /** Finalised options, as sent to the API. Durations are already converted
      to whole minutes (`lastChecked`) and whole seconds (`timeToConnect`). */
  datatype Opts = Opts(
    apiKey: Option<string>,
    level: Option<Level>,
    protocol: Option<Protocol>,
    countries: Countries,
    lastChecked: Option<u64>,
    port: Option<NonZeroU16>,
    timeToConnect: Option<u64>,
    cookies: Option<bool>,
    connectsToGoogle: Option<bool>,
    https: Option<bool>,
    post: Option<bool>,
    referer: Option<bool>,
    forwardsUserAgent: Option<bool>,
    limit: Limit,
    format: Format)

  /** `Opts::default()`. */
  const DefaultOpts: Opts :=
    Opts(None, None, None, NoCountries, None, None, None, None, None, None, None, None, None, Free, Json)

  /** `Opts::is_premium`: a key was supplied. */
  predicate IsPremium(o: Opts) {
    o.apiKey.Some?
  }

  /** Whole minutes in a duration, rounded down. */
  function WholeMinutes(d: Duration): (m: u64)
    ensures m as int * 60 * NANOS_PER_SEC <= d.TotalNanos() < (m as int + 1) * 60 * NANOS_PER_SEC
  {
    d.AsSecs() / 60
  }

  /** `OptsBuilder::build`, i.e. `From<OptsBuilder> for Opts`. */
  function Build(b: OptsBuilder): (o: Opts)
    ensures o.limit == Premium <==> b.apiKey.Some?
    ensures IsPremium(o) <==> o.limit == Premium
    ensures o.apiKey == b.apiKey && o.level == b.level && o.protocol == b.protocol
    ensures b.countries.None? ==> o.countries == NoCountries
    ensures b.countries.Some? ==> o.countries == b.countries.value
    ensures o.lastChecked.Some? <==> b.lastChecked.Some?
    ensures b.lastChecked.Some? ==>
              var d := b.lastChecked.value.value;
              o.lastChecked.value as int * 60 * NANOS_PER_SEC <= d.TotalNanos()
              < (o.lastChecked.value as int + 1) * 60 * NANOS_PER_SEC
    ensures o.port == b.port
    ensures o.timeToConnect.Some? <==> b.timeToConnect.Some?
    ensures b.timeToConnect.Some? ==>
              var d := b.timeToConnect.value.value;
              o.timeToConnect.value as int * NANOS_PER_SEC <= d.TotalNanos()
              < (o.timeToConnect.value as int + 1) * NANOS_PER_SEC
    ensures o.cookies == b.cookies && o.connectsToGoogle == b.connectsToGoogle
    ensures o.https == b.https && o.post == b.post && o.referer == b.referer
    ensures o.forwardsUserAgent == b.forwardsUserAgent
    ensures o.format == Json
  {
    Opts(
      b.apiKey,
      b.level,
      b.protocol,
      b.countries.GetOr(NoCountries),
      if b.lastChecked.Some? then Some(WholeMinutes(b.lastChecked.value.value)) else None,
      b.port,
      if b.timeToConnect.Some? then Some(b.timeToConnect.value.value.AsSecs()) else None,
      b.cookies,
      b.connectsToGoogle,
      b.https,
      b.post,
      b.referer,
      b.forwardsUserAgent,
      if b.apiKey.Some? then Premium else Free,
      Json)
  }

  /** Building an untouched builder gives the default options. */
  lemma BuildDefault()
    ensures Build(DefaultBuilder) == DefaultOpts
  {
  }

  // ---------------------------------------------------------------------
  // Query parameters

  /** The query parameters the options can produce. */
  datatype ParamKey =
    | Api | LevelKey | Type | Country | NotCountry | LastCheck | Port | Speed
    | Cookies | Google | Https | Post | Referer | UserAgent | LimitKey | FormatKey

  /** The wire name of each parameter: the field name, or its serde rename.
      No name is empty or holds the `=` and `&` separators of a query string. */
  function WireName(k: ParamKey): (w: string)
    ensures |w| > 0 && '=' !in w && '&' !in w
  {
    match k
    case Api => "api"
    case LevelKey => "level"
    case Type => "type"
    case Country => "country"
    case NotCountry => "not_country"
    case LastCheck => "last_check"
    case Port => "port"
    case Speed => "speed"
    case Cookies => "cookies"
    case Google => "google"
    case Https => "https"
    case Post => "post"
    case Referer => "referer"
    case UserAgent => "user_agent"
    case LimitKey => "limit"
    case FormatKey => "format"
  }

  /** Reading a wire name back; the inverse of `WireName`. */
  function ParseWireName(s: string): Option<ParamKey> {
    match s
    case "api" => Some(Api)
    case "level" => Some(LevelKey)
    case "type" => Some(Type)
    case "country" => Some(Country)
    case "not_country" => Some(NotCountry)
    case "last_check" => Some(LastCheck)
    case "port" => Some(Port)
    case "speed" => Some(Speed)
    case "cookies" => Some(Cookies)
    case "google" => Some(Google)
    case "https" => Some(Https)
    case "post" => Some(Post)
    case "referer" => Some(Referer)
    case "user_agent" => Some(UserAgent)
    case "limit" => Some(LimitKey)
    case "format" => Some(FormatKey)
    case _ => None
  }

  /** Every parameter has its own wire name: the table can be read back, so
      no two parameters share a name. */
  lemma WireNamesDistinct(k1: ParamKey, k2: ParamKey)
    ensures ParseWireName(WireName(k1)) == Some(k1)
    ensures WireName(k1) == WireName(k2) ==> k1 == k2
  {
  }

  /** One `key=value` pair of the query string, before percent-encoding. */
  datatype Param = Param(key: ParamKey, value: string)

  function LevelToken(l: Level): string {
    match l
    case Anonymous => "anonymous"
    case Elite => "elite"
  }

  function ProtocolToken(p: Protocol): string {
    match p
    case Http => "http"
    case Socks4 => "socks4"
    case Socks5 => "socks5"
  }

  function BoolToken(b: bool): string {
    if b then "true" else "false"
  }

  /** Codes joined with commas, as a country list is sent. */
  function JoinComma(codes: seq<string>): string {
    if |codes| == 0 then ""
    else if |codes| == 1 then codes[0]
    else codes[0] + "," + JoinComma(codes[1..])
  }

  function Numeral(n: nat): string {
    Decimal.ToDecimal(n)
  }

  // The text of an optional field, absent when the field is.

  function LevelText(l: Option<Level>): Option<string> {
    if l.Some? then Some(LevelToken(l.value)) else None
  }

  function ProtocolText(p: Option<Protocol>): Option<string> {
    if p.Some? then Some(ProtocolToken(p.value)) else None
  }

  function CountText(n: Option<u64>): Option<string> {
    if n.Some? then Some(Numeral(n.value as nat)) else None
  }

  function PortText(n: Option<NonZeroU16>): Option<string> {
    if n.Some? then Some(Numeral(n.value as nat)) else None
  }

  function BoolText(b: Option<bool>): Option<string> {
    if b.Some? then Some(BoolToken(b.value)) else None
  }

  /** The text each parameter is sent with, or `None` when it is left out.
      The country filter is flattened into `country` for an allow list or
      `not_country` for a block list, and is left out when empty. */
  function FieldValue(o: Opts, k: ParamKey): Option<string> {
    match k
    case Api => o.apiKey
    case LevelKey => LevelText(o.level)
    case Type => ProtocolText(o.protocol)
    case Country =>
      if !o.countries.blocked && !o.countries.IsEmpty() then Some(JoinComma(o.countries.codes)) else None
    case NotCountry =>
      if o.countries.blocked && !o.countries.IsEmpty() then Some(JoinComma(o.countries.codes)) else None
    case LastCheck => CountText(o.lastChecked)
    case Port => PortText(o.port)
    case Speed => CountText(o.timeToConnect)
    case Cookies => BoolText(o.cookies)
    case Google => BoolText(o.connectsToGoogle)
    case Https => BoolText(o.https)
    case Post => BoolText(o.post)
    case Referer => BoolText(o.referer)
    case UserAgent => BoolText(o.forwardsUserAgent)
    case LimitKey => Some(Numeral(LimitValue(o.limit) as nat))
    case FormatKey => Some("json")
  }

  /** `limit` and `format` always have a value, the key is sent as given,
      and a non-empty country filter goes out under exactly one of `country`
      (allow list) and `not_country` (block list) as its comma-joined codes. */
  lemma FieldValueCases(o: Opts)
    ensures FieldValue(o, LimitKey).Some? && FieldValue(o, FormatKey) == Some("json")
    ensures FieldValue(o, Api) == o.apiKey
    ensures FieldValue(o, Country).Some? <==> !o.countries.blocked && |o.countries.codes| > 0
    ensures FieldValue(o, NotCountry).Some? <==> o.countries.blocked && |o.countries.codes| > 0
    ensures FieldValue(o, Country).Some? ==> FieldValue(o, Country).value == JoinComma(o.countries.codes)
    ensures FieldValue(o, NotCountry).Some? ==> FieldValue(o, NotCountry).value == JoinComma(o.countries.codes)
  {
  }

  /** A parameter when the field has a value, nothing otherwise. */
  function Emit(k: ParamKey, value: Option<string>): seq<Param> {
    if value.Some? then [Param(k, value.value)] else []
  }

  /** The position of each parameter in declaration order. */
  function Rank(k: ParamKey): (i: nat)
    ensures i < 16
  {
    match k
    case Api => 0 case LevelKey => 1 case Type => 2 case Country => 3
    case NotCountry => 4 case LastCheck => 5 case Port => 6 case Speed => 7
    case Cookies => 8 case Google => 9 case Https => 10 case Post => 11
    case Referer => 12 case UserAgent => 13 case LimitKey => 14 case FormatKey => 15
  }

  /** The parameter at each position; the inverse of `Rank`. */
  function KeyOfRank(i: nat): (k: ParamKey)
    requires i < 16
    ensures Rank(k) == i
  {
    if i == 0 then Api else if i == 1 then LevelKey else if i == 2 then Type
    else if i == 3 then Country else if i == 4 then NotCountry else if i == 5 then LastCheck
    else if i == 6 then Port else if i == 7 then Speed else if i == 8 then Cookies
    else if i == 9 then Google else if i == 10 then Https else if i == 11 then Post
    else if i == 12 then Referer else if i == 13 then UserAgent else if i == 14 then LimitKey
    else FormatKey
  }

  /** Every parameter, in the order the fields are declared. */
  function AllKeys(): (ks: seq<ParamKey>)
    ensures |ks| == 16
    ensures forall i :: 0 <= i < 16 ==> ks[i] == KeyOfRank(i)
  {
    seq(16, i requires 0 <= i < 16 => KeyOfRank(i))
  }

  /** The parameters for the keys `ks`, in that order. */
  function EmitAll(o: Opts, ks: seq<ParamKey>): (ps: seq<Param>)
    ensures |ps| <= |ks|
  {
    if |ks| == 0 then [] else Emit(ks[0], FieldValue(o, ks[0])) + EmitAll(o, ks[1..])
  }

  /** Every emitted parameter belongs to a listed key and carries that key's
      field text. */
  lemma {:induction false} EmitAllSound(o: Opts, ks: seq<ParamKey>)
    ensures forall p :: p in EmitAll(o, ks) ==> p.key in ks && FieldValue(o, p.key) == Some(p.value)
  {
    if |ks| > 0 {
      EmitAllSound(o, ks[1..]);
      assert EmitAll(o, ks) == Emit(ks[0], FieldValue(o, ks[0])) + EmitAll(o, ks[1..]);
    }
  }

  /** The query parameters the options are sent as: at most one per key,
      each carrying its field's text. */
  function Serialize(o: Opts): (ps: seq<Param>)
    ensures |ps| <= 16
    ensures forall p :: p in ps ==> FieldValue(o, p.key) == Some(p.value)
  {
    EmitAllSound(o, AllKeys());
    EmitAll(o, AllKeys())
  }

  /** Each listed key contributes its field's value once per listing, and
      nothing else is produced. */
  lemma {:induction false} EmitAllCount(o: Opts, ks: seq<ParamKey>, k: ParamKey, v: string)
    ensures multiset(EmitAll(o, ks))[Param(k, v)] ==
              if FieldValue(o, k) == Some(v) then multiset(ks)[k] else 0
  {
    if |ks| > 0 {
      var rest := ks[1..];
      EmitAllCount(o, rest, k, v);
      EmitCount(ks[0], FieldValue(o, ks[0]), k, v);
      assert multiset(EmitAll(o, ks)) ==
        multiset(Emit(ks[0], FieldValue(o, ks[0]))) + multiset(EmitAll(o, rest));
      assert ks == [ks[0]] + rest;
      assert multiset(ks) == multiset{ks[0]} + multiset(rest);
    }
  }

  /** One key's contribution: its own value, once, when present. */
  lemma EmitCount(k0: ParamKey, value: Option<string>, k: ParamKey, v: string)
    ensures multiset(Emit(k0, value))[Param(k, v)] ==
              if k0 == k && value == Some(v) then 1 else 0
  {
  }

  /** A key found at exactly one position occurs once in the multiset. */
  lemma CountUnique(ks: seq<ParamKey>, k: ParamKey, j: nat)
    requires j < |ks| && ks[j] == k
    requires forall i :: 0 <= i < |ks| && i != j ==> ks[i] != k
    ensures multiset(ks)[k] == 1
  {
    assert ks == ks[..j] + [ks[j]] + ks[j + 1..];
    assert k !in ks[..j];
    assert k !in ks[j + 1..];
  }

  /** The table lists every parameter exactly once. */
  lemma AllKeysOnce(k: ParamKey)
    ensures multiset(AllKeys())[k] == 1
  {
    var ks := AllKeys();
    forall i | 0 <= i < |ks| && i != Rank(k)
      ensures ks[i] != k
    {
      assert Rank(ks[i]) == i;
    }
    CountUnique(ks, k, Rank(k));
  }

  /** The wire-name table: a parameter appears exactly once, with its own
      value, when its field has a value, and not at all otherwise; `limit`
      and `format` are always sent. */
  lemma SerializedParams(o: Opts, k: ParamKey, v: string)
    ensures multiset(Serialize(o))[Param(k, v)] == (if FieldValue(o, k) == Some(v) then 1 else 0)
    ensures FieldValue(o, LimitKey).Some? && FieldValue(o, FormatKey) == Some("json")
  {
    EmitAllCount(o, AllKeys(), k, v);
    AllKeysOnce(k);
  }

  /** The parameters of `o` are exactly the ones in `expected`, in any order:
      the comparison the serialization test makes after sorting both sides. */
  predicate SerializesTo(o: Opts, expected: multiset<Param>) {
    multiset(Serialize(o)) == expected
  }

  /** Two options objects whose fields produce the same texts are sent as
      the same parameters. */
  lemma SerializesByFields(o: Opts, expected: multiset<Param>)
    requires forall k, v :: expected[Param(k, v)] == (if FieldValue(o, k) == Some(v) then 1 else 0)
    ensures SerializesTo(o, expected)
  {
    forall p
      ensures multiset(Serialize(o))[p] == expected[p]
    {
      SerializedParams(o, p.key, p.value);
    }
  }

  /** How a parameter appears in the query string, before percent-encoding:
      its wire name, `=`, and its text. */
  function Render(p: Param): string {
    WireName(p.key) + "=" + p.value
  }

  /** The query-string pairs of a parameter list, position by position. */
  function RenderAll(ps: seq<Param>): (ts: seq<string>)
    ensures |ts| == |ps|
    ensures forall i :: 0 <= i < |ps| ==> ts[i] == Render(ps[i])
  {
    seq(|ps|, i requires 0 <= i < |ps| => Render(ps[i]))
  }

  /** In two sequences with the same elements, the head of the first occurs
      in the second at some position `j`; what remains on both sides after
      removing it again has the same elements. */
  lemma RemoveMatching<T>(a: seq<T>, b: seq<T>) returns (j: nat)
    requires |a| > 0 && multiset(a) == multiset(b)
    ensures j < |b| && b[j] == a[0]
    ensures multiset(a[1..]) == multiset(b[..j] + b[j + 1..])
  {
    assert a == [a[0]] + a[1..];
    assert a[0] in multiset(b);
    j :| 0 <= j < |b| && b[j] == a[0];
    var rest := b[..j] + b[j + 1..];
    assert b == b[..j] + [b[j]] + b[j + 1..];
    assert multiset(b) == multiset(rest) + multiset{a[0]};
    assert multiset(a) == multiset{a[0]} + multiset(a[1..]);
    forall y ensures multiset(a[1..])[y] == multiset(rest)[y] {
      assert multiset(a)[y] == multiset(b)[y];
    }
    assert multiset(a[1..]) == multiset(rest);
  }

  /** Rendering a concatenation renders each part. */
  lemma RenderAllAppend(p: seq<Param>, q: seq<Param>)
    ensures RenderAll(p + q) == RenderAll(p) + RenderAll(q)
  {
  }

  /** Removing the parameter at `j` removes its pair from the rendering. */
  lemma RenderAllRemove(b: seq<Param>, j: nat)
    requires j < |b|
    ensures multiset(RenderAll(b)) == multiset{Render(b[j])} + multiset(RenderAll(b[..j] + b[j + 1..]))
    ensures j == 0 ==> multiset(RenderAll(b)) == multiset{Render(b[0])} + multiset(RenderAll(b[1..]))
  {
    var left, x, right := b[..j], b[j], b[j + 1..];
    assert b == left + [x] + right;
    assert left + right == b[..j] + b[j + 1..];
    RenderAllAppend(left + [x], right);
    RenderAllAppend(left, [x]);
    RenderAllAppend(left, right);
    assert RenderAll([x]) == [Render(x)];
    calc {
      multiset(RenderAll(b));
      multiset(RenderAll(left) + [Render(x)] + RenderAll(right));
      multiset(RenderAll(left)) + multiset{Render(x)} + multiset(RenderAll(right));
      multiset{Render(x)} + multiset(RenderAll(left) + RenderAll(right));
    }
    if j == 0 {
      assert left + right == b[1..];
    }
  }

  /** Reordering the parameters only reorders their query-string pairs. */
  lemma {:induction false} RenderPermutation(a: seq<Param>, b: seq<Param>)
    requires multiset(a) == multiset(b)
    ensures multiset(RenderAll(a)) == multiset(RenderAll(b))
    decreases |a|
  {
    if |a| == 0 {
      assert |b| == |multiset(b)| == 0;
    } else {
      var j := RemoveMatching(a, b);
      RenderPermutation(a[1..], b[..j] + b[j + 1..]);
      RenderAllRemove(a, 0);
      RenderAllRemove(b, j);
    }
  }

  /** The query string of `o`, split at `&`, holds exactly the pairs
      `expected`, in any order: the comparison the serialization test makes
      after sorting both sides. */
  predicate SendsPairs(o: Opts, expected: seq<string>) {
    multiset(RenderAll(Serialize(o))) == multiset(expected)
  }

  /** Options sent as the parameters `ps` are sent as the pairs `ps` render to. */
  lemma SendsRendered(o: Opts, m: multiset<Param>, ps: seq<Param>, expected: seq<string>)
    requires SerializesTo(o, m) && multiset(ps) == m
    requires |ps| == |expected|
    requires forall i :: 0 <= i < |ps| ==> Render(ps[i]) == expected[i]
    ensures SendsPairs(o, expected)
  {
    assert RenderAll(ps) == expected;
    RenderPermutation(Serialize(o), ps);
  }

  /** The parameters of the default options. */
  lemma DefaultParams()
    ensures SerializesTo(DefaultOpts, multiset{Param(LimitKey, "5"), Param(FormatKey, "json")})
  {
    SerializesByFields(DefaultOpts, multiset{Param(LimitKey, "5"), Param(FormatKey, "json")});
  }

  /** The pairs the default parameters render to. */
  lemma DefaultRendered()
    ensures multiset([Param(FormatKey, "json"), Param(LimitKey, "5")]) ==
              multiset{Param(LimitKey, "5"), Param(FormatKey, "json")}
    ensures forall i :: 0 <= i < 2 ==>
              Render([Param(FormatKey, "json"), Param(LimitKey, "5")][i]) == ["format=json", "limit=5"][i]
  {
    assert Render(Param(FormatKey, "json")) == "format=json";
    assert Render(Param(LimitKey, "5")) == "limit=5";
  }

  /** The default options are sent as exactly `limit=5` and `format=json`. */
  lemma DefaultSerialization()
    ensures SerializesTo(DefaultOpts, multiset{Param(LimitKey, "5"), Param(FormatKey, "json")})
    ensures SendsPairs(DefaultOpts, ["format=json", "limit=5"])
  {
    DefaultParams();
    DefaultRendered();
    SendsRendered(DefaultOpts, multiset{Param(LimitKey, "5"), Param(FormatKey, "json")},
                  [Param(FormatKey, "json"), Param(LimitKey, "5")], ["format=json", "limit=5"]);
  }

  /** The numerals that appear in the serialization tests. */
  lemma TestNumerals()
    ensures Numeral(5) == "5" && Numeral(10) == "10" && Numeral(20) == "20"
    ensures Numeral(8080) == "8080"
  {
    assert Decimal.ToDecimal(8) == "8" && Decimal.ToDecimal(0) == "0";
    assert Decimal.ToDecimal(80) == "80";
    assert Decimal.ToDecimal(808) == "808";
  }

  /** The parameters of the options built from just a key. */
  lemma ApiKeyParams()
    ensures SerializesTo(Build(WithApiKey(DefaultBuilder, "<key>")),
                         multiset{Param(Api, "<key>"), Param(LimitKey, "20"), Param(FormatKey, "json")})
  {
    var o := Build(WithApiKey(DefaultBuilder, "<key>"));
    var expected := multiset{Param(Api, "<key>"), Param(LimitKey, "20"), Param(FormatKey, "json")};
    TestNumerals();
    assert o == DefaultOpts.(apiKey := Some("<key>"), limit := Premium);
    forall k: ParamKey, v: string
      ensures expected[Param(k, v)] == (if FieldValue(o, k) == Some(v) then 1 else 0)
    {
    }
    SerializesByFields(o, expected);
  }

  /** The pairs the key test's parameters render to. */
  lemma ApiKeyRendered()
    ensures multiset([Param(Api, "<key>"), Param(FormatKey, "json"), Param(LimitKey, "20")]) ==
              multiset{Param(Api, "<key>"), Param(LimitKey, "20"), Param(FormatKey, "json")}
    ensures forall i :: 0 <= i < 3 ==>
              Render([Param(Api, "<key>"), Param(FormatKey, "json"), Param(LimitKey, "20")][i]) ==
              ["api=<key>", "format=json", "limit=20"][i]
  {
    assert Render(Param(Api, "<key>")) == "api=<key>";
    assert Render(Param(FormatKey, "json")) == "format=json";
    assert Render(Param(LimitKey, "20")) == "limit=20";
  }

  /** A key raises the limit to 20 and is sent under `api`. */
  lemma ApiKeySerialization()
    ensures SerializesTo(Build(WithApiKey(DefaultBuilder, "<key>")),
                         multiset{Param(Api, "<key>"), Param(LimitKey, "20"), Param(FormatKey, "json")})
    ensures SendsPairs(Build(WithApiKey(DefaultBuilder, "<key>")),
                       ["api=<key>", "format=json", "limit=20"])
  {
    ApiKeyParams();
    ApiKeyRendered();
    SendsRendered(Build(WithApiKey(DefaultBuilder, "<key>")),
                  multiset{Param(Api, "<key>"), Param(LimitKey, "20"), Param(FormatKey, "json")},
                  [Param(Api, "<key>"), Param(FormatKey, "json"), Param(LimitKey, "20")],
                  ["api=<key>", "format=json", "limit=20"]);
  }

  /** An empty country list is left out altogether. */
  lemma EmptyCountriesSerialization()
    ensures SerializesTo(Build(WithCountries(DefaultBuilder, NoCountries)),
                         multiset{Param(LimitKey, "5"), Param(FormatKey, "json")})
    ensures SendsPairs(Build(WithCountries(DefaultBuilder, NoCountries)), ["format=json", "limit=5"])
  {
    var o := Build(WithCountries(DefaultBuilder, NoCountries));
    assert o == DefaultOpts;
    DefaultSerialization();
  }

  /** The builder with every option set, as in the serialization test. */
  function KitchenSink(): OptsBuilder {
    WithForwardsUserAgent(WithReferer(WithPost(WithHttps(WithConnectsToGoogle(
      WithCookies(WithPort(WithTimeToConnect(WithLastChecked(WithCountries(
        WithProtocol(WithLevel(WithApiKey(DefaultBuilder, "<key>"), Elite), Socks4),
        Countries(true, ["CH", "ES"])),
        LastChecked(FromSecs(60 * 10))), TimeToConnect(FromSecs(10))), 8080),
      true), false), true), false), true), false)
  }

  /** The options the kitchen-sink builder builds. */
  const KitchenSinkOpts: Opts :=
    Opts(Some("<key>"), Some(Elite), Some(Socks4), Countries(true, ["CH", "ES"]),
         Some(10), Some(8080), Some(10), Some(true), Some(false), Some(true),
         Some(false), Some(true), Some(false), Premium, Json)

  /** Building the kitchen sink: the key raises the limit, ten minutes of
      staleness become `10`, and ten seconds of connect time become `10`. */
  lemma KitchenSinkBuild()
    ensures Build(KitchenSink()) == KitchenSinkOpts
  {
  }

  /** The parameters the serialization test expects for the kitchen sink,
      in the order it lists them, in five groups: the automatic ones with
      the key, the enums with the countries, the durations with the port,
      and the flags. */
  const KitchenSinkHead: seq<Param> := [Param(LimitKey, "20"), Param(FormatKey, "json"), Param(Api, "<key>")]
  const KitchenSinkKinds: seq<Param> := [Param(LevelKey, "elite"), Param(Type, "socks4"), Param(NotCountry, "CH,ES")]
  const KitchenSinkTimes: seq<Param> := [Param(LastCheck, "10"), Param(Speed, "10"), Param(Port, "8080")]
  const KitchenSinkFlags: seq<Param> := [Param(Cookies, "true"), Param(Google, "false"), Param(Https, "true")]
  const KitchenSinkTail: seq<Param> := [Param(Post, "false"), Param(Referer, "true"), Param(UserAgent, "false")]

  const KitchenSinkList: seq<Param> :=
    KitchenSinkHead + KitchenSinkKinds + KitchenSinkTimes + KitchenSinkFlags + KitchenSinkTail

  /** The same parameters in any order, group by group. */
  const KitchenSinkParams: multiset<Param> :=
    multiset{Param(LimitKey, "20"), Param(FormatKey, "json"), Param(Api, "<key>")}
    + multiset{Param(LevelKey, "elite"), Param(Type, "socks4"), Param(NotCountry, "CH,ES")}
    + multiset{Param(LastCheck, "10"), Param(Speed, "10"), Param(Port, "8080")}
    + multiset{Param(Cookies, "true"), Param(Google, "false"), Param(Https, "true")}
    + multiset{Param(Post, "false"), Param(Referer, "true"), Param(UserAgent, "false")}

  /** The list holds the expected parameters. */
  lemma KitchenSinkListed()
    ensures multiset(KitchenSinkList) == KitchenSinkParams
  {
    assert multiset(KitchenSinkList) ==
      multiset(KitchenSinkHead) + multiset(KitchenSinkKinds) + multiset(KitchenSinkTimes)
      + multiset(KitchenSinkFlags) + multiset(KitchenSinkTail);
  }

  /** The pairs the kitchen-sink test expects, before percent-encoding,
      group by group. */
  const KitchenSinkPairs: seq<string> :=
    ["limit=20", "format=json", "api=<key>"]
    + ["level=elite", "type=socks4", "not_country=CH,ES"]
    + ["last_check=10", "speed=10", "port=8080"]
    + ["cookies=true", "google=false", "https=true"]
    + ["post=false", "referer=true", "user_agent=false"]

  /** The listed parameters render to the expected pairs, position by
      position. */
  lemma KitchenSinkRendered()
    ensures |KitchenSinkList| == |KitchenSinkPairs|
    ensures forall i :: 0 <= i < |KitchenSinkList| ==> Render(KitchenSinkList[i]) == KitchenSinkPairs[i]
  {
    KitchenSinkHeadRenders();
    KitchenSinkKindsRender();
    KitchenSinkTimesRender();
    KitchenSinkFlagsRender();
    KitchenSinkTailRenders();
    RenderAllAppend(KitchenSinkHead, KitchenSinkKinds);
    RenderAllAppend(KitchenSinkHead + KitchenSinkKinds, KitchenSinkTimes);
    RenderAllAppend(KitchenSinkHead + KitchenSinkKinds + KitchenSinkTimes, KitchenSinkFlags);
    RenderAllAppend(KitchenSinkHead + KitchenSinkKinds + KitchenSinkTimes + KitchenSinkFlags, KitchenSinkTail);
    assert RenderAll(KitchenSinkList) == KitchenSinkPairs;
  }

  /** Each group renders to its pairs. */
  lemma KitchenSinkHeadRenders()
    ensures RenderAll(KitchenSinkHead) == ["limit=20", "format=json", "api=<key>"]
  {
    assert Render(Param(LimitKey, "20")) == "limit=20";
    assert Render(Param(FormatKey, "json")) == "format=json";
    assert Render(Param(Api, "<key>")) == "api=<key>";
  }

  lemma KitchenSinkKindsRender()
    ensures RenderAll(KitchenSinkKinds) == ["level=elite", "type=socks4", "not_country=CH,ES"]
  {
    assert Render(Param(LevelKey, "elite")) == "level=elite";
    assert Render(Param(Type, "socks4")) == "type=socks4";
    assert Render(Param(NotCountry, "CH,ES")) == "not_country=CH,ES";
  }

  lemma KitchenSinkTimesRender()
    ensures RenderAll(KitchenSinkTimes) == ["last_check=10", "speed=10", "port=8080"]
  {
    assert Render(Param(LastCheck, "10")) == "last_check=10";
    assert Render(Param(Speed, "10")) == "speed=10";
    assert Render(Param(Port, "8080")) == "port=8080";
  }

  lemma KitchenSinkFlagsRender()
    ensures RenderAll(KitchenSinkFlags) == ["cookies=true", "google=false", "https=true"]
  {
    assert Render(Param(Cookies, "true")) == "cookies=true";
    assert Render(Param(Google, "false")) == "google=false";
    assert Render(Param(Https, "true")) == "https=true";
  }

  lemma KitchenSinkTailRenders()
    ensures RenderAll(KitchenSinkTail) == ["post=false", "referer=true", "user_agent=false"]
  {
    assert Render(Param(Post, "false")) == "post=false";
    assert Render(Param(Referer, "true")) == "referer=true";
    assert Render(Param(UserAgent, "false")) == "user_agent=false";
  }

  /** The value each key carries in the kitchen-sink serialization. */
  function KitchenSinkValue(k: ParamKey): Option<string> {
    match k
    case Api => Some("<key>")
    case LevelKey => Some("elite")
    case Type => Some("socks4")
    case Country => None
    case NotCountry => Some("CH,ES")
    case LastCheck => Some("10")
    case Port => Some("8080")
    case Speed => Some("10")
    case Cookies => Some("true")
    case Google => Some("false")
    case Https => Some("true")
    case Post => Some("false")
    case Referer => Some("true")
    case UserAgent => Some("false")
    case LimitKey => Some("20")
    case FormatKey => Some("json")
  }

  /** The kitchen-sink options render each key as the table above says. */
  lemma KitchenSinkFieldValues(k: ParamKey)
    ensures FieldValue(KitchenSinkOpts, k) == KitchenSinkValue(k)
  {
    TestNumerals();
    assert JoinComma(["CH", "ES"]) == "CH,ES";
  }

  /** The expected parameters hold each key's value exactly once. */
  lemma KitchenSinkParamsCounted(k: ParamKey, v: string)
    ensures KitchenSinkParams[Param(k, v)] == (if KitchenSinkValue(k) == Some(v) then 1 else 0)
  {
  }

  /** The parameters of the kitchen-sink options. */
  lemma KitchenSinkParamsSent()
    ensures SerializesTo(Build(KitchenSink()), KitchenSinkParams)
  {
    KitchenSinkBuild();
    var o := KitchenSinkOpts;
    forall k: ParamKey, v: string
      ensures KitchenSinkParams[Param(k, v)] == (if FieldValue(o, k) == Some(v) then 1 else 0)
    {
      KitchenSinkFieldValues(k);
      KitchenSinkParamsCounted(k, v);
    }
    SerializesByFields(o, KitchenSinkParams);
  }

  /** Every option set at once, each under its wire name. */
  lemma KitchenSinkSerialization()
    ensures SerializesTo(Build(KitchenSink()), KitchenSinkParams)
    ensures SendsPairs(Build(KitchenSink()), KitchenSinkPairs)
  {
    KitchenSinkParamsSent();
    KitchenSinkListed();
    KitchenSinkRendered();
    SendsRendered(Build(KitchenSink()), KitchenSinkParams, KitchenSinkList, KitchenSinkPairs);
  }
}
