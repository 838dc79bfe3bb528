/** Post-processing of the API's proxy list: raw entries, as the JSON decoder
    produces them, become typed `Proxy` values, and entries whose country
    could not be resolved are dropped. */
module Proxies {
  import opened Types
  import Decimal

  /** `std::net::SocketAddrV4`, already parsed from the `ipPort` field. */
  datatype SocketAddrV4 = SocketAddrV4(a: u8, b: u8, c: u8, d: u8, port: u16)

  /** A country: a recognised ISO 3166-1 alpha-2 code, or the sentinel that
      stands for a code the decoder did not recognise. */
  datatype Country = Unspecified | Iso(code: string)

  /** A calendar date and wall-clock time without a time zone, as the date
      parser yields it. */
  datatype NaiveDateTime = NaiveDateTime(year: int, month: nat, day: nat, hour: nat, minute: nat, second: nat)

  /** The `support` object of a raw entry: each flag is 0, 1 or absent. */
  datatype RawSupports = RawSupports(
    https: Option<u8>,
    get: Option<u8>,
    post: Option<u8>,
    cookies: Option<u8>,
    referer: Option<u8>,
    forwardsUserAgent: Option<u8>,
    connectsToGoogle: Option<u8>)

  /** One entry of the response's `data` array after JSON decoding: the
      timestamp and the speed are still text. */
  datatype RawProxy = RawProxy(
    socket: SocketAddrV4,
    country: Country,
    lastChecked: string,
    level: Level,
    protocol: Protocol,
    timeToConnect: string,
    supports: RawSupports)

  /** The capabilities a proxy offers. */
  datatype Supports = Supports(
    https: bool,
    get: bool,
    post: bool,
    cookies: bool,
    referer: bool,
    forwardsUserAgent: bool,
    connectsToGoogle: bool)

  /** A fully typed proxy. */
  datatype Proxy = Proxy(
    socket: SocketAddrV4,
    country: Country,
    lastChecked: NaiveDateTime,
    level: Level,
    protocol: Protocol,
    timeToConnect: Duration,
    supports: Supports)

  /** Failure to decode the response body as JSON of the expected shape. */
  datatype JsonError = JsonError(message: string)

  /** The date parser for the `"%F %T"` format, supplied by the caller;
      `None` is a text it rejects. */
  type DateParser = string -> Option<NaiveDateTime>

  /** `ignore_bad_countries`: the result of decoding the country field, with
      a failed decode replaced by `Unspecified` rather than failing the whole
      response. */
  function IgnoreBadCountries(decoded: Result<Country, JsonError>): (c: Country)
    ensures decoded.Failure? ==> c == Unspecified
    ensures decoded.Success? ==> c == decoded.value
  {
    match decoded
    case Success(country) => country
    case Failure(_) => Unspecified
  }

  /** `Supports::default()`. */
  const NoSupports: Supports := Supports(false, false, false, false, false, false, false)

  /** Reading one capability flag: only an explicit 1 means yes; any other
      number, and an absent flag, mean no. */
  function ParseFlag(flag: Option<u8>): (b: bool)
    ensures b <==> flag == Some(1)
  {
    match flag
    case Some(v) => v == 1
    case None => false
  }

  /** `From<RawSupports> for Supports`. */
  function SupportsFromRaw(raw: RawSupports): (s: Supports)
    ensures s.https <==> raw.https == Some(1)
    ensures s.get <==> raw.get == Some(1)
    ensures s.post <==> raw.post == Some(1)
    ensures s.cookies <==> raw.cookies == Some(1)
    ensures s.referer <==> raw.referer == Some(1)
    ensures s.forwardsUserAgent <==> raw.forwardsUserAgent == Some(1)
    ensures s.connectsToGoogle <==> raw.connectsToGoogle == Some(1)
  {
    Supports(
      ParseFlag(raw.https),
      ParseFlag(raw.get),
      ParseFlag(raw.post),
      ParseFlag(raw.cookies),
      ParseFlag(raw.referer),
      ParseFlag(raw.forwardsUserAgent),
      ParseFlag(raw.connectsToGoogle))
  }

  /** Each capability depends on its own raw flag only: changing every other
      flag leaves it as it was. */
  lemma SupportsNoCrossTalk(r1: RawSupports, r2: RawSupports)
    ensures r1.https == r2.https ==> SupportsFromRaw(r1).https == SupportsFromRaw(r2).https
    ensures r1.get == r2.get ==> SupportsFromRaw(r1).get == SupportsFromRaw(r2).get
    ensures r1.post == r2.post ==> SupportsFromRaw(r1).post == SupportsFromRaw(r2).post
    ensures r1.cookies == r2.cookies ==> SupportsFromRaw(r1).cookies == SupportsFromRaw(r2).cookies
    ensures r1.referer == r2.referer ==> SupportsFromRaw(r1).referer == SupportsFromRaw(r2).referer
    ensures r1.forwardsUserAgent == r2.forwardsUserAgent ==>
              SupportsFromRaw(r1).forwardsUserAgent == SupportsFromRaw(r2).forwardsUserAgent
    ensures r1.connectsToGoogle == r2.connectsToGoogle ==>
              SupportsFromRaw(r1).connectsToGoogle == SupportsFromRaw(r2).connectsToGoogle
  {
  }

  /** The default capabilities, which offer nothing, are read exactly from
      support objects where no flag is an explicit 1. */
  lemma DefaultSupportsCharacterised(raw: RawSupports)
    ensures SupportsFromRaw(raw) == NoSupports <==>
              raw.https != Some(1) && raw.get != Some(1) && raw.post != Some(1) &&
              raw.cookies != Some(1) && raw.referer != Some(1) &&
              raw.forwardsUserAgent != Some(1) && raw.connectsToGoogle != Some(1)
    ensures SupportsFromRaw(RawSupports(None, None, None, None, None, None, None)) == NoSupports
  {
  }

  /** A raw entry the conversion accepts; the source panics on the others. */
  predicate Convertible(raw: RawProxy, parseDate: DateParser) {
    parseDate(raw.lastChecked).Some? && Decimal.ParseU64(raw.timeToConnect).Some?
  }

  /** `From<RawProxy> for Proxy`. */
  function FromRaw(raw: RawProxy, parseDate: DateParser): (p: Proxy)
    requires Convertible(raw, parseDate)
    ensures p.socket == raw.socket && p.country == raw.country
    ensures p.level == raw.level && p.protocol == raw.protocol
    ensures Some(p.lastChecked) == parseDate(raw.lastChecked)
    ensures p.timeToConnect.nanos == 0
    ensures Decimal.ParseU64(raw.timeToConnect) == Some(p.timeToConnect.secs)
    ensures p.supports == SupportsFromRaw(raw.supports)
  {
    var secs := Decimal.ParseU64(raw.timeToConnect).value;
    Proxy(
      raw.socket,
      raw.country,
      parseDate(raw.lastChecked).value,
      raw.level,
      raw.protocol,
      FromSecs(secs),
      SupportsFromRaw(raw.supports))
  }

  /** A speed printed as a plain numeral converts to that many seconds. */
  lemma SpeedRoundTrip(raw: RawProxy, parseDate: DateParser, secs: u64)
    requires parseDate(raw.lastChecked).Some?
    requires raw.timeToConnect == Decimal.ToDecimal(secs as nat)
    ensures Convertible(raw, parseDate)
    ensures FromRaw(raw, parseDate).timeToConnect.TotalNanos() == secs as int * NANOS_PER_SEC
  {
    Decimal.PrintParseRoundTrip(secs);
  }

  /** The conversion of every entry of a batch, in order. */
  function ConvertAll(raws: seq<RawProxy>, parseDate: DateParser): (ps: seq<Proxy>)
    requires forall i :: 0 <= i < |raws| ==> Convertible(raws[i], parseDate)
    ensures |ps| == |raws|
    ensures forall i :: 0 <= i < |raws| ==> ps[i] == FromRaw(raws[i], parseDate)
  {
    seq(|raws|, i requires 0 <= i < |raws| => FromRaw(raws[i], parseDate))
  }

  predicate Resolved(p: Proxy) {
    !p.country.Unspecified?
  }

  /** The filter stage: keep the proxies whose country is resolved, in their
      original order. */
  function KeepResolved(ps: seq<Proxy>): (kept: seq<Proxy>)
    ensures |kept| <= |ps|
    ensures forall i :: 0 <= i < |kept| ==> Resolved(kept[i])
    ensures forall p :: p in kept <==> p in ps && Resolved(p)
  {
    if |ps| == 0 then []
    else if Resolved(ps[0]) then [ps[0]] + KeepResolved(ps[1..])
    else KeepResolved(ps[1..])
  }

  /** `a` is `b` with some elements removed and the rest in order. */
  predicate IsSubsequence<T(==)>(a: seq<T>, b: seq<T>)
    decreases |b|
  {
    if |a| == 0 then true
    else if |b| == 0 then false
    else if a[0] == b[0] then IsSubsequence(a[1..], b[1..])
    else IsSubsequence(a, b[1..])
  }

  /** The filter only removes: its output is an order-preserving
      subsequence of its input. */
  lemma {:induction false} KeepResolvedIsSubsequence(ps: seq<Proxy>)
    ensures IsSubsequence(KeepResolved(ps), ps)
  {
    if |ps| > 0 {
      KeepResolvedIsSubsequence(ps[1..]);
      if Resolved(ps[0]) {
        assert KeepResolved(ps)[1..] == KeepResolved(ps[1..]);
      } else {
        var kept := KeepResolved(ps);
        if |kept| > 0 {
          assert kept[0] in ps[1..];
          assert kept[0] != ps[0];
        }
      }
    }
  }

  /** Entries whose country is resolved are never dropped: filtering a batch
      where every country is resolved leaves it unchanged. */
  lemma {:induction false} KeepResolvedKeepsAll(ps: seq<Proxy>)
    requires forall i :: 0 <= i < |ps| ==> Resolved(ps[i])
    ensures KeepResolved(ps) == ps
  {
    if |ps| > 0 {
      KeepResolvedKeepsAll(ps[1..]);
      assert [ps[0]] + ps[1..] == ps;
    }
  }

  /** The filter distributes over concatenation, so it can be applied one
      entry at a time. */
  lemma {:induction false} KeepResolvedAppend(ps: seq<Proxy>, qs: seq<Proxy>)
    ensures KeepResolved(ps + qs) == KeepResolved(ps) + KeepResolved(qs)
  {
    if |ps| > 0 {
      assert (ps + qs)[0] == ps[0];
      assert (ps + qs)[1..] == ps[1..] + qs;
      KeepResolvedAppend(ps[1..], qs);
    } else {
      assert ps + qs == qs;
    }
  }

  /** Converting one more entry of a batch extends the conversion by that
      entry's result. */
  lemma ConvertAllExtend(raws: seq<RawProxy>, parseDate: DateParser, i: nat)
    requires i < |raws|
    requires forall j :: 0 <= j < |raws| ==> Convertible(raws[j], parseDate)
    ensures ConvertAll(raws[..i + 1], parseDate) ==
              ConvertAll(raws[..i], parseDate) + [FromRaw(raws[i], parseDate)]
  {
  }

  /** One more converted entry extends the filtered output by itself when its
      country is resolved, and by nothing otherwise. */
  lemma FilterStep(raws: seq<RawProxy>, parseDate: DateParser, i: nat)
    requires i < |raws|
    requires forall j :: 0 <= j < |raws| ==> Convertible(raws[j], parseDate)
    ensures var p := FromRaw(raws[i], parseDate);
      KeepResolved(ConvertAll(raws[..i + 1], parseDate)) ==
        KeepResolved(ConvertAll(raws[..i], parseDate)) + (if Resolved(p) then [p] else [])
  {
    var p := FromRaw(raws[i], parseDate);
    ConvertAllExtend(raws, parseDate, i);
    KeepResolvedAppend(ConvertAll(raws[..i], parseDate), [p]);
    assert KeepResolved([p]) == if Resolved(p) then [p] else [];
  }

  /** `proxies_from_json` after JSON decoding: a decode failure is passed
      through; otherwise each entry is converted and the unresolved ones are
      dropped, keeping order. */
  method ProxiesFromJson(decoded: Result<seq<RawProxy>, JsonError>, parseDate: DateParser)
    returns (r: Result<seq<Proxy>, JsonError>)
    requires decoded.Success? ==>
               forall i :: 0 <= i < |decoded.value| ==> Convertible(decoded.value[i], parseDate)
    ensures decoded.Failure? ==> r == Failure(decoded.error)
    ensures decoded.Success? ==> r == Success(KeepResolved(ConvertAll(decoded.value, parseDate)))
  {
    if decoded.Failure? {
      return Failure(decoded.error);
    }
    var raws := decoded.value;
    var out: seq<Proxy> := [];
    var i := 0;
    while i < |raws|
      invariant 0 <= i <= |raws|
      invariant out == KeepResolved(ConvertAll(raws[..i], parseDate))
    {
      var p := FromRaw(raws[i], parseDate);
      FilterStep(raws, parseDate, i);
      out := out + (if Resolved(p) then [p] else []);
      i := i + 1;
    }
    assert raws[..i] == raws;
    return Success(out);
  }

  /** The output of `proxies_from_json`: never an unresolved country, an
      order-preserving subsequence of the converted batch, and every
      converted entry with a resolved country present. */
  lemma ProxiesFromJsonProperties(raws: seq<RawProxy>, parseDate: DateParser)
    requires forall i :: 0 <= i < |raws| ==> Convertible(raws[i], parseDate)
    ensures var out := KeepResolved(ConvertAll(raws, parseDate));
      && (forall i :: 0 <= i < |out| ==> out[i].country != Unspecified)
      && IsSubsequence(out, ConvertAll(raws, parseDate))
      && |out| <= |raws|
      && (forall i :: 0 <= i < |raws| && raws[i].country != Unspecified ==>
            FromRaw(raws[i], parseDate) in out)
  {
    var converted := ConvertAll(raws, parseDate);
    KeepResolvedIsSubsequence(converted);
    forall i | 0 <= i < |raws| && raws[i].country != Unspecified
      ensures FromRaw(raws[i], parseDate) in KeepResolved(converted)
    {
      assert converted[i] == FromRaw(raws[i], parseDate);
    }
  }
}
