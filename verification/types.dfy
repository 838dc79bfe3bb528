/** Vocabulary shared by the whole library: fixed-width integers, the
    anonymity level and protocol enums, durations, and the country filter. */
module Types {

  newtype u8 = x: int | 0 <= x < 0x100
  newtype u16 = x: int | 0 <= x < 0x1_0000
  newtype u64 = x: int | 0 <= x < 0x1_0000_0000_0000_0000

  /** Rust's `NonZeroU16`, used for the port filter. */
  newtype NonZeroU16 = x: int | 1 <= x < 0x1_0000 witness 1

  /** Number of nanoseconds in one second. */
  const NANOS_PER_SEC: int := 1_000_000_000

  newtype SubsecNanos = x: int | 0 <= x < 1_000_000_000

  datatype Option<+T> = None | Some(value: T) {
    function GetOr(default: T): T {
      match this
      case Some(v) => v
      case None => default
    }
  }

  datatype Result<+R, +E> = Success(value: R) | Failure(error: E)

  /** Anonymity level of a proxy; transparent proxies are not offered. */
  datatype Level = Anonymous | Elite

  datatype Protocol = Http | Socks4 | Socks5

  /** `std::time::Duration`: whole seconds plus the sub-second nanoseconds. */
  datatype Duration = Duration(secs: u64, nanos: SubsecNanos) {
    /** The exact length of the duration in nanoseconds. */
    function TotalNanos(): int {
      secs as int * NANOS_PER_SEC + nanos as int
    }

    /** `Duration::as_secs`: the whole seconds, dropping the fraction. */
    function AsSecs(): (r: u64)
      ensures r as int * NANOS_PER_SEC <= TotalNanos() < (r as int + 1) * NANOS_PER_SEC
    {
      secs
    }
  }

  /** `Duration::from_secs`. */
  function FromSecs(s: u64): (d: Duration)
    ensures d.TotalNanos() == s as int * NANOS_PER_SEC
  {
    Duration(s, 0)
  }

  /** Staleness bound of the options. `src/types.rs` defines only `Level`
      and `Protocol`, so the range check on this wrapper is not modelled and
      the wrapped duration is taken as given. */
  datatype LastChecked = LastChecked(value: Duration)

  /** Connect-time bound of the options; taken as given like `LastChecked`. */
  datatype TimeToConnect = TimeToConnect(value: Duration)

  /** A country filter: either an allow list or a block list of ISO 3166-1
      alpha-2 codes. */
  datatype Countries = Countries(blocked: bool, codes: seq<string>) {
    predicate IsEmpty() {
      |codes| == 0
    }
  }

  /** `Countries::default()`: an allow list with no entries. */
  const NoCountries: Countries := Countries(false, [])
}
