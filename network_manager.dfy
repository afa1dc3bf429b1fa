/** NetworkManager's pure rules: availability, network type and the chunk size
    chosen for it. The Android capability queries become a record of booleans
    and the downstream bandwidth. */
module Network {
  import opened Wrappers
  import opened Platform
  import ChunkUpload

  datatype NetworkType = WIFI | CELLULAR | ETHERNET | SLOW_4G | NONE

  /** What NetworkCapabilities answers for the queries the manager makes. */
  datatype Capabilities = Capabilities(
    internet: bool,
    validated: bool,
    wifi: bool,
    ethernet: bool,
    cellular: bool,
    linkDownstreamBandwidthKbps: int32)

  /** connectivityManager.activeNetwork, and its capabilities when there is one. */
  datatype ActiveNetwork = NoActiveNetwork | Active(capabilities: Option<Capabilities>)

  /** Cellular slower than this downstream bandwidth is slow 4G. */
  const SLOW_4G_THRESHOLD_KBPS: int := 2000

  const MIB: int := 1024 * 1024

  /** The capabilities, if there is an active network and it has any. */
  function CapabilitiesOf(n: ActiveNetwork): Option<Capabilities> {
    if n.Active? then n.capabilities else None
  }

  function IsNetworkAvailable(n: ActiveNetwork): (available: bool)
    ensures available <==> CapabilitiesOf(n).Some? && CapabilitiesOf(n).value.internet && CapabilitiesOf(n).value.validated
  {
    match n
    case NoActiveNetwork => false
    case Active(None) => false
    case Active(Some(c)) => c.internet && c.validated
  }

  function GetNetworkType(n: ActiveNetwork): NetworkType {
    match n
    case NoActiveNetwork => NONE
    case Active(None) => NONE
    case Active(Some(c)) =>
      if c.wifi then WIFI
      else if c.ethernet then ETHERNET
      else if c.cellular then (if (c.linkDownstreamBandwidthKbps as int) < SLOW_4G_THRESHOLD_KBPS then SLOW_4G else CELLULAR)
      else NONE
  }

  /** 10 MiB on wifi or ethernet, 5 MiB on cellular or with no network, 2 MiB on slow 4G. */
  function GetOptimalChunkSize(n: ActiveNetwork): (size: int)
    ensures 2 * MIB <= size <= 10 * MIB
  {
    match GetNetworkType(n)
    case WIFI => 10 * 1024 * 1024
    case ETHERNET => 10 * 1024 * 1024
    case CELLULAR => 5 * 1024 * 1024
    case SLOW_4G => 2 * 1024 * 1024
    case NONE => 5 * 1024 * 1024
  }

  /** The type as a priority over transports: wifi over ethernet over cellular,
      cellular split by bandwidth, anything else (or no network) NONE. */
  lemma NetworkTypeCharacterized(n: ActiveNetwork)
    ensures var c := CapabilitiesOf(n);
      && (GetNetworkType(n) == WIFI <==> c.Some? && c.value.wifi)
      && (GetNetworkType(n) == ETHERNET <==> c.Some? && !c.value.wifi && c.value.ethernet)
      && (GetNetworkType(n) == SLOW_4G <==>
            c.Some? && !c.value.wifi && !c.value.ethernet && c.value.cellular &&
            (c.value.linkDownstreamBandwidthKbps as int) < SLOW_4G_THRESHOLD_KBPS)
      && (GetNetworkType(n) == CELLULAR <==>
            c.Some? && !c.value.wifi && !c.value.ethernet && c.value.cellular &&
            (c.value.linkDownstreamBandwidthKbps as int) >= SLOW_4G_THRESHOLD_KBPS)
      && (GetNetworkType(n) == NONE <==> c.None? || (!c.value.wifi && !c.value.ethernet && !c.value.cellular))
  {
  }

  /** The chunk size per network type, and that it is always a size
      createChunks can work with; cellular and no network use the default. */
  lemma OptimalChunkSizeFits(n: ActiveNetwork)
    ensures GetOptimalChunkSize(n) > 0
    ensures GetNetworkType(n) in {WIFI, ETHERNET} <==> GetOptimalChunkSize(n) == 10 * MIB
    ensures GetNetworkType(n) in {CELLULAR, NONE} <==> GetOptimalChunkSize(n) == ChunkUpload.DEFAULT_CHUNK_SIZE
    ensures GetNetworkType(n) == SLOW_4G <==> GetOptimalChunkSize(n) == 2 * MIB
  {
  }
}
