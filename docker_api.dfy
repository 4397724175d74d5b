/**
 * The data the Docker daemon hands to the client: one raw stats sample of a container (the
 * decoded JSON of the stats stream) and one entry of the container listing.  Every JSON key the
 * client reads may be missing, so every such field is an Option; `None` stands for a missing key.
 */
module DockerApi {
  import opened Wrappers

  /** A JSON key whose value the client treats specially when it is `null`. */
  datatype Field<+T> = Absent | Null | Present(value: T)

  datatype CpuUsage = CpuUsage(totalUsage: Option<int>, percpuUsage: Field<seq<int>>)

  /** `cpu_stats` or `precpu_stats`. */
  datatype CpuBlock = CpuBlock(systemCpuUsage: Option<int>, cpuUsage: Option<CpuUsage>, onlineCpus: Option<int>)

  /** `memory_stats['stats']`. */
  datatype MemorySub = MemorySub(cache: Option<int>, maxUsage: Option<int>)

  datatype MemoryBlock = MemoryBlock(usage: Option<int>, limit: Option<int>, stats: Option<MemorySub>)

  /** One entry of `networks`. */
  datatype Interface = Interface(rxBytes: Option<int>, txBytes: Option<int>)

  /** One entry of `blkio_stats['io_service_bytes_recursive']`. */
  datatype BlkioEntry = BlkioEntry(op: Option<string>, value: Option<int>)

  datatype Blkio = Blkio(ioServiceBytesRecursive: Field<seq<BlkioEntry>>)

  /** One raw sample of the stats stream. */
  datatype Sample = Sample(
    read: Option<string>,
    cpuStats: Option<CpuBlock>,
    precpuStats: Option<CpuBlock>,
    memoryStats: Option<MemoryBlock>,
    networks: Option<map<string, Interface>>,
    blkioStats: Option<Blkio>)

  /** The `{}` a streamer holds before its first sample arrives. */
  const EmptySample := Sample(None, None, None, None, None, None)

  /** `datetime.fromisoformat`, seen as whole seconds; `None` is the `ValueError` it raises. */
  type IsoParser = string -> Option<int>

  /** Python's `s[:n]`. */
  function Prefix(s: string, n: nat): (t: string)
    ensures |t| == if |s| < n then |s| else n
    ensures t <= s
  {
    if |s| < n then s else s[..n]
  }

  /** `read_iso_timestamp`: parse only the first 19 characters of a daemon timestamp. */
  function ReadIsoTimestamp(timestamp: string, parse: IsoParser): (r: Result<int>)
    ensures r.Ok? <==> parse(Prefix(timestamp, 19)).Some?
    ensures r.Ok? ==> r.value == parse(Prefix(timestamp, 19)).value
    ensures r.Err? ==> r.error == ValueError
  {
    match parse(Prefix(timestamp, 19))
    case Some(t) => Ok(t)
    case None => Err(ValueError)
  }

  /** Whatever follows the 19th character (fractional seconds, `Z`, an offset) is never read. */
  lemma TimestampIgnoresTail(timestamp: string, tail: string, parse: IsoParser)
    requires |timestamp| >= 19
    ensures ReadIsoTimestamp(timestamp + tail, parse) == ReadIsoTimestamp(timestamp, parse)
  {
    assert Prefix(timestamp + tail, 19) == Prefix(timestamp, 19);
  }

  /** `str.upper` on ASCII letters. */
  function UpperChar(c: char): char {
    if 'a' <= c <= 'z' then (c as int - 32) as char else c
  }

  function Upper(s: string): (u: string)
    ensures |u| == |s|
    ensures forall i :: 0 <= i < |s| ==> u[i] == UpperChar(s[i])
  {
    seq(|s|, i requires 0 <= i < |s| => UpperChar(s[i]))
  }

  /** `container.attrs['Config']`, restricted to the keys the client reads. */
  datatype ContainerConfig = ContainerConfig(
    entrypoint: Option<seq<string>>,
    cmd: Option<seq<string>>,
    exposedPorts: Option<seq<string>>)

  /**
   * One container of `containers.list()`: name, id, `attrs['State']['Status']`, the image tags as
   * text, `attrs['Created']`, `attrs['State']['StartedAt']`, `attrs['Config']`, and the names of
   * the attributes of the SDK object (what `hasattr` sees).
   */
  datatype Container = Container(
    name: string,
    id: string,
    status: string,
    image: string,
    createdAt: string,
    startedAt: Option<string>,
    config: Option<ContainerConfig>,
    attributes: set<string>)

  /** `STREAMING_STATUS = ['running', 'paused']`. */
  const StreamingStatus: seq<string> := ["running", "paused"]

  predicate IsStreaming(status: string) {
    status in StreamingStatus
  }

  /** The command the client shows: `Entrypoint` followed by `Cmd`, each only when non-empty. */
  function Command(config: ContainerConfig): (command: seq<string>)
    ensures command == config.entrypoint.GetOr([]) + config.cmd.GetOr([])
  {
    var entrypoint := if config.entrypoint.Some? && |config.entrypoint.value| > 0 then config.entrypoint.value else [];
    var cmd := if config.cmd.Some? && |config.cmd.value| > 0 then config.cmd.value else [];
    entrypoint + cmd
  }

  // ---- Reading the sample (shared by both generations of the stats streamer) ----

  /** `stats[block]['system_cpu_usage']`; `None` is a KeyError. */
  function SystemUsage(block: Option<CpuBlock>): Option<int> {
    if block.Some? then block.value.systemCpuUsage else None
  }

  /** `stats[block]['cpu_usage']['total_usage']`; `None` is a KeyError. */
  function TotalUsage(block: Option<CpuBlock>): Option<int> {
    if block.Some? && block.value.cpuUsage.Some? then block.value.cpuUsage.value.totalUsage else None
  }

  /**
   * The core count: `online_cpus` when it is reported, else `len(percpu_usage or [])`;
   * `None` is the KeyError of a missing `percpu_usage`.
   */
  function CoreCount(block: Option<CpuBlock>): (count: Option<int>)
    ensures block.Some? && block.value.onlineCpus.Some? ==> count == block.value.onlineCpus
    ensures block.Some? && block.value.onlineCpus.None? && block.value.cpuUsage.Some? ==>
      match block.value.cpuUsage.value.percpuUsage
      case Absent => count.None?
      case Null => count == Some(0)
      case Present(cores) => count == Some(|cores|)
  {
    if block.None? then None
    else if block.value.onlineCpus.Some? then block.value.onlineCpus
    else if block.value.cpuUsage.None? then None
    else match block.value.cpuUsage.value.percpuUsage
      case Absent => None
      case Null => Some(0)
      case Present(cores) => Some(|cores|)
  }

  /** Every key the CPU computation reads is present. */
  predicate HasCpuCounters(s: Sample) {
    && SystemUsage(s.cpuStats).Some? && TotalUsage(s.cpuStats).Some?
    && SystemUsage(s.precpuStats).Some? && TotalUsage(s.precpuStats).Some?
    && CoreCount(s.cpuStats).Some?
  }

  /** Both deltas are taken within one sample: `cpu_stats` minus `precpu_stats`. */
  function CpuDelta(s: Sample): int
    requires HasCpuCounters(s)
  {
    TotalUsage(s.cpuStats).value - TotalUsage(s.precpuStats).value
  }

  function SystemDelta(s: Sample): int
    requires HasCpuCounters(s)
  {
    SystemUsage(s.cpuStats).value - SystemUsage(s.precpuStats).value
  }

  /** `stats['networks']['eth0']`; `None` is a KeyError. */
  function Eth0(s: Sample): Option<Interface> {
    if s.networks.Some? && "eth0" in s.networks.value then Some(s.networks.value["eth0"]) else None
  }

  /** `blkio_stats['io_service_bytes_recursive']`; `Absent` is a KeyError. */
  function BlkioList(s: Sample): Field<seq<BlkioEntry>> {
    if s.blkioStats.Some? then s.blkioStats.value.ioServiceBytesRecursive else Absent
  }

  predicate HasOp(e: BlkioEntry, op: string) {
    e.op.Some? && Upper(e.op.value) == op
  }

  /** The position of the first entry whose op upper-cases to `op`. */
  function FirstWithOp(entries: seq<BlkioEntry>, op: string): (k: Option<nat>)
    ensures k.Some? ==> k.value < |entries| && HasOp(entries[k.value], op)
    ensures k.Some? ==> forall j :: 0 <= j < k.value ==> !HasOp(entries[j], op)
    ensures k.None? ==> forall j :: 0 <= j < |entries| ==> !HasOp(entries[j], op)
  {
    if entries == [] then None
    else if HasOp(entries[0], op) then Some(0)
    else match FirstWithOp(entries[1..], op)
      case None => None
      case Some(k) => Some(k + 1)
  }

  /**
   * `[i for i in entries if i['op'].upper() == op][0]['value']`: the comprehension reads the op of
   * every entry (KeyError if one has none), `[0]` raises IndexError when nothing matches, and the
   * first match must carry a value (KeyError otherwise).
   */
  function FirstOpValue(entries: seq<BlkioEntry>, op: string): (r: Result<int>)
    ensures (exists j :: 0 <= j < |entries| && entries[j].op.None?) ==> r == Err(KeyError)
    ensures (forall j :: 0 <= j < |entries| ==> entries[j].op.Some?) ==>
      match FirstWithOp(entries, op)
      case None => r == Err(IndexError)
      case Some(k) => r == (if entries[k].value.Some? then Ok(entries[k].value.value) else Err(KeyError))
  {
    if exists j :: 0 <= j < |entries| && entries[j].op.None? then Err(KeyError)
    else match FirstWithOp(entries, op)
      case None => Err(IndexError)
      case Some(k) => if entries[k].value.Some? then Ok(entries[k].value.value) else Err(KeyError)
  }
}
