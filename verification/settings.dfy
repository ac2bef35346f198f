/** Client configuration, the idle timeout derived from it, and the framing both ends configure. */
module Settings {
  import opened Wrappers

  type Positive = n: int | n > 0 witness 1

  /** A configuration value as PHP holds it: an integer, a float (kept as an exact fraction) or null. */
  datatype Setting = IntVal(n: int) | FloatVal(num: int, den: Positive) | NullVal

  type Config = map<string, Setting>

  const DefaultMaxLength: int := 1024 * 1024 * 2

  /** The client's default configuration. */
  const Defaults: Config := map[
    "package_max_length" := IntVal(DefaultMaxLength),
    "recv_timeout" := IntVal(10),
    "connect_timeout" := FloatVal(1, 2),
    "heartbeat" := IntVal(20),
    "max_requests" := IntVal(0),
    "max_wait_close_seconds" := IntVal(2)
  ]

  /** `array_replace`: every key of `settings` overrides, every other key of `config` is kept. */
  function Replace(config: Config, settings: Config): (r: Config)
    ensures r.Keys == config.Keys + settings.Keys
    ensures forall k :: k in settings ==> r[k] == settings[k]
    ensures forall k :: k in config && k !in settings ==> r[k] == config[k]
  {
    config + settings
  }

  /** `$config[$key] ?? null`: a missing key reads as null. */
  function Get(config: Config, key: string): Setting
  {
    if key in config then config[key] else NullVal
  }

  /** `is_numeric` on a configuration value. */
  predicate IsNumeric(s: Setting)
  {
    !s.NullVal?
  }

  predicate HeartbeatEnabled(config: Config)
  {
    IsNumeric(Get(config, "heartbeat"))
  }

  /** PHP's `(int)` cast of the fraction num / den: truncation toward zero. */
  function Truncate(num: int, den: Positive): (q: int)
    ensures 0 <= num ==> 0 <= q && q * den <= num < q * den + den
    ensures num < 0 ==> q <= 0 && q * den - den < num <= q * den
  {
    if num >= 0 then num / den else -((-num) / den)
  }

  /** The read/write idle timeout: twice the heartbeat interval, or -1 (no timeout) when heartbeats are off. */
  function MaxIdleTime(config: Config): (r: int)
    ensures !HeartbeatEnabled(config) ==> r == -1
    ensures Get(config, "heartbeat").IntVal? ==> r == 2 * Get(config, "heartbeat").n
    ensures var h := Get(config, "heartbeat");
      h.FloatVal? && 0 <= h.num ==> r * h.den <= 2 * h.num < r * h.den + h.den
    ensures var h := Get(config, "heartbeat");
      h.FloatVal? && h.num < 0 ==> r * h.den - h.den < 2 * h.num <= r * h.den
  {
    match Get(config, "heartbeat")
    case NullVal => -1
    case IntVal(n) => 2 * n
    case FloatVal(num, den) => Truncate(2 * num, den)
  }

  /** The length-prefixed framing options handed to the socket layer. */
  datatype Framing = Framing(
    openLengthCheck: bool,
    lengthType: string,
    lengthOffset: nat,
    bodyOffset: nat,
    maxLength: Setting)

  /** The client's framing: `package_max_length ?? 2 MiB`. */
  function ClientFraming(config: Config): Framing
  {
    var max := Get(config, "package_max_length");
    Framing(true, "N", 0, 4, if max.NullVal? then IntVal(DefaultMaxLength) else max)
  }

  /** The server's framing: the collection's `get('package_max_length', 2 MiB)`. */
  function ServerFraming(config: Config): Framing
  {
    var max := if "package_max_length" in config then config["package_max_length"] else IntVal(DefaultMaxLength);
    Framing(true, "N", 0, 4, max)
  }

  /** Both ends frame with a 4-byte big-endian length at offset 0 and the body at offset 4, and agree on the limit. */
  lemma FramingsAgree(client: Config, server: Config)
    ensures ClientFraming(client).(maxLength := NullVal) == ServerFraming(server).(maxLength := NullVal)
    ensures var f := ClientFraming(client);
      f.openLengthCheck && f.lengthType == "N" && f.lengthOffset == 0 && f.bodyOffset == 4
    ensures Get(client, "package_max_length").NullVal? ==> ClientFraming(client).maxLength == IntVal(DefaultMaxLength)
    ensures "package_max_length" !in server ==> ServerFraming(server).maxLength == IntVal(DefaultMaxLength)
    ensures ClientFraming(Defaults) == ServerFraming(map[])
    ensures "package_max_length" in server && !server["package_max_length"].NullVal?
            && Get(client, "package_max_length") == server["package_max_length"]
            ==> ClientFraming(client) == ServerFraming(server)
  {
  }
}
