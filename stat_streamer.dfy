/**
 * The stats streamer of the `docker_client` package: it keeps the latest raw sample of one
 * container and derives CPU, memory, network and disk figures from it.  CPU and memory are read
 * from the stored sample alone; network and disk deltas are taken against the reading stored by the
 * previous successful call of the same getter, which every successful call then replaces.
 */
module StatStreamer {
  import opened Wrappers
  import opened DockerApi

  datatype CpuStats = CpuStats(usage: real, cores: int)

  datatype MemoryStats = MemoryStats(usage: Option<int>, limit: Option<int>, cache: Option<int>, maxUsage: Option<int>)

  /** `rx`, `tx` are raw byte differences and `duration` the time between the two readings. */
  datatype NetIoStats = NetIoStats(
    readTime: Option<int>, totalRx: Option<int>, totalTx: Option<int>,
    rx: Option<int>, tx: Option<int>, duration: Option<int>)

  datatype DiskIoStats = DiskIoStats(
    readTime: Option<int>, totalIor: Option<int>, totalIow: Option<int>,
    ior: Option<int>, iow: Option<int>, duration: Option<int>)

  /** The part of the stored `old_net_io` / `old_disk_io` record that the next call reads. */
  datatype Reading = Reading(totalIn: int, totalOut: int, readTime: int)

  /** What a network or disk getter returns, and the reading it leaves stored. */
  datatype Call<+S> = Call(stats: Option<S>, stored: Option<Reading>)

  // ---------------------------------------------------------------- CPU

  /**
   * `get_cpu_stats`: `None` when a counter is missing (the KeyError is caught); a zero system delta
   * is divided by all the same, and the ZeroDivisionError escapes.
   */
  function CpuStatsOf(s: Sample): (r: Result<Option<CpuStats>>)
    ensures r == Ok(None) <==> !HasCpuCounters(s)
    ensures r.Err? <==> HasCpuCounters(s) && SystemDelta(s) == 0
    ensures r.Err? ==> r.error == ZeroDivisionError
    ensures r.Ok? && r.value.Some? ==>
      && HasCpuCounters(s)
      && r.value.value.cores == CoreCount(s.cpuStats).value
      && r.value.value.usage * SystemDelta(s) as real == (CpuDelta(s) * r.value.value.cores * 100) as real
  {
    if !HasCpuCounters(s) then Ok(None)
    else if SystemDelta(s) == 0 then Err(ZeroDivisionError)
    else
      var cores := CoreCount(s.cpuStats).value;
      var usage := CpuDelta(s) as real / SystemDelta(s) as real * cores as real * 100.0;
      Ok(Some(CpuStats(usage, cores)))
  }

  /**
   * Four online cores, 200 units of container time over 500 units of system time: 160 percent.
   * The two counters come from `cpu_stats` and `precpu_stats` of the same sample.
   */
  lemma CpuExample()
    ensures
      var block := (total: int, system: int) => Some(CpuBlock(Some(system), Some(CpuUsage(Some(total), Null)), Some(4)));
      var s := Sample(None, block(1200, 500500), block(1000, 500000), None, None, None);
      CpuStatsOf(s) == Ok(Some(CpuStats(160.0, 4)))
  {
  }

  // ---------------------------------------------------------------- memory

  /**
   * `get_memory_stats` as written: `None` when nothing was read, a partial record when `limit` is
   * missing, and never a cache or maximum usage, because the guard of the optional details asks
   * whether the record being built (which only ever has `usage` and `limit`) has a `stats` key.
   */
  function MemoryStatsAsWritten(s: Sample): (r: Option<MemoryStats>)
    ensures r.None? <==> s.memoryStats.None? || s.memoryStats.value.usage.None?
    ensures r.Some? ==> r.value.usage == s.memoryStats.value.usage && r.value.limit == s.memoryStats.value.limit
    ensures r.Some? ==> r.value.cache.None? && r.value.maxUsage.None?
  {
    match s.memoryStats
    case None => None
    case Some(m) =>
      if m.usage.None? then None
      else if m.limit.None? then Some(MemoryStats(m.usage, None, None, None))
      else Some(MemoryStats(m.usage, m.limit, None, None))
  }

  /** The guard tests the daemon's `memory_stats` dict, as the earlier generation does. */
  function MemoryStatsOf(s: Sample): (r: Option<MemoryStats>)
    ensures r.None? <==> s.memoryStats.None? || s.memoryStats.value.usage.None?
    ensures r.Some? ==> r.value.usage == s.memoryStats.value.usage && r.value.limit == s.memoryStats.value.limit
    ensures r.Some? ==>
      var m := s.memoryStats.value;
      if m.limit.Some? && m.stats.Some?
      then r.value.cache == m.stats.value.cache && r.value.maxUsage == m.stats.value.maxUsage
      else r.value.cache.None? && r.value.maxUsage.None?
  {
    match s.memoryStats
    case None => None
    case Some(m) =>
      if m.usage.None? then None
      else if m.limit.None? then Some(MemoryStats(m.usage, None, None, None))
      else if m.stats.Some? then Some(MemoryStats(m.usage, m.limit, m.stats.value.cache, m.stats.value.maxUsage))
      else Some(MemoryStats(m.usage, m.limit, None, None))
  }

  /** A sample that reports a cache: the code as written drops it, the corrected reader keeps it. */
  lemma CacheDroppedAsWritten()
    ensures
      var s := Sample(None, None, None, Some(MemoryBlock(Some(100), Some(1000), Some(MemorySub(Some(7), Some(90))))), None, None);
      && MemoryStatsAsWritten(s) == Some(MemoryStats(Some(100), Some(1000), None, None))
      && MemoryStatsOf(s) == Some(MemoryStats(Some(100), Some(1000), Some(7), Some(90)))
  {
  }

  // ---------------------------------------------------------------- network

  /** The reading a fully successful `get_network_io` takes from the sample. */
  function NetReadingOf(s: Sample, parse: IsoParser): Option<Reading> {
    var eth0 := Eth0(s);
    if eth0.None? || eth0.value.rxBytes.None? || eth0.value.txBytes.None? || s.read.None? then None
    else match ReadIsoTimestamp(s.read.value, parse)
      case Err(_) => None
      case Ok(t) => Some(Reading(eth0.value.rxBytes.value, eth0.value.txBytes.value, t))
  }

  /**
   * `get_network_io`: reads `total_rx`, `total_tx`, then `read`.  A missing key leaves whatever was
   * read so far (possibly nothing) and keeps the stored reading; an unparsable timestamp raises.
   * Only a complete reading is stored, and the deltas are taken against the previous one.
   */
  function NetworkIo(s: Sample, previous: Option<Reading>, parse: IsoParser): (r: Result<Call<NetIoStats>>)
    ensures r.Err? <==>
      && Eth0(s).Some? && Eth0(s).value.rxBytes.Some? && Eth0(s).value.txBytes.Some? && s.read.Some?
      && parse(Prefix(s.read.value, 19)).None?
    ensures r.Err? ==> r.error == ValueError
    ensures r.Ok? && NetReadingOf(s, parse).None? ==> r.value.stored == previous
    ensures r.Ok? && r.value.stats.None? <==> Eth0(s).None? || Eth0(s).value.rxBytes.None?
    ensures r.Ok? && r.value.stats.Some? ==> r.value.stats.value.totalRx == Eth0(s).value.rxBytes
    ensures Eth0(s).Some? && Eth0(s).value.rxBytes.Some? && Eth0(s).value.txBytes.None? ==>
      r == Ok(Call(Some(NetIoStats(None, Eth0(s).value.rxBytes, None, None, None, None)), previous))
    ensures Eth0(s).Some? && Eth0(s).value.rxBytes.Some? && Eth0(s).value.txBytes.Some? && s.read.None? ==>
      r == Ok(Call(Some(NetIoStats(None, Eth0(s).value.rxBytes, Eth0(s).value.txBytes, None, None, None)), previous))
    ensures NetReadingOf(s, parse).Some? ==>
      var now := NetReadingOf(s, parse).value;
      && r.Ok? && r.value.stored == Some(now)
      && r.value.stats.Some?
      && r.value.stats.value.totalTx == Some(now.totalOut)
      && r.value.stats.value.readTime == Some(now.readTime)
      && (previous.None? ==> r.value.stats.value.rx.None? && r.value.stats.value.tx.None? && r.value.stats.value.duration.None?)
      && (previous.Some? ==>
           && r.value.stats.value.rx == Some(now.totalIn - previous.value.totalIn)
           && r.value.stats.value.tx == Some(now.totalOut - previous.value.totalOut)
           && r.value.stats.value.duration == Some(now.readTime - previous.value.readTime))
    ensures r.Ok? && r.value.stats.Some? && r.value.stats.value.rx.Some? ==> NetReadingOf(s, parse).Some? && previous.Some?
  {
    var eth0 := Eth0(s);
    if eth0.None? || eth0.value.rxBytes.None? then Ok(Call(None, previous))
    else
      var totalRx := eth0.value.rxBytes.value;
      if eth0.value.txBytes.None? then Ok(Call(Some(NetIoStats(None, Some(totalRx), None, None, None, None)), previous))
      else
        var totalTx := eth0.value.txBytes.value;
        if s.read.None? then Ok(Call(Some(NetIoStats(None, Some(totalRx), Some(totalTx), None, None, None)), previous))
        else match ReadIsoTimestamp(s.read.value, parse)
          case Err(e) => Err(e)
          case Ok(t) =>
            var now := Reading(totalRx, totalTx, t);
            match previous
            case None => Ok(Call(Some(NetIoStats(Some(t), Some(totalRx), Some(totalTx), None, None, None)), Some(now)))
            case Some(p) =>
              Ok(Call(Some(NetIoStats(Some(t), Some(totalRx), Some(totalTx),
                Some(totalRx - p.totalIn), Some(totalTx - p.totalOut), Some(t - p.readTime))), Some(now)))
  }

  /** The delta is per call: asking twice about the same sample reports no traffic the second time. */
  lemma NetworkIoTwiceIsZero(s: Sample, previous: Option<Reading>, parse: IsoParser)
    requires NetReadingOf(s, parse).Some?
    ensures
      var second := NetworkIo(s, NetworkIo(s, previous, parse).value.stored, parse);
      && second.Ok? && second.value.stats.Some?
      && second.value.stats.value.rx == Some(0)
      && second.value.stats.value.tx == Some(0)
      && second.value.stats.value.duration == Some(0)
  {
  }

  // ---------------------------------------------------------------- disk

  /** The reading a fully successful `get_disk_io` takes from the sample. */
  function DiskReadingOf(s: Sample, parse: IsoParser): Option<Reading> {
    if !BlkioList(s).Present? then None
    else
      var entries := BlkioList(s).value;
      if FirstOpValue(entries, "READ").Err? || FirstOpValue(entries, "WRITE").Err? || s.read.None? then None
      else match ReadIsoTimestamp(s.read.value, parse)
        case Err(_) => None
        case Ok(t) => Some(Reading(FirstOpValue(entries, "READ").value, FirstOpValue(entries, "WRITE").value, t))
  }

  /**
   * `get_disk_io`: reads the first READ total, the first WRITE total, then `read`.  KeyError and
   * TypeError (a `null` list) are caught and leave a partial record or `None`; the IndexError of a
   * list without a READ (or WRITE) entry and the ValueError of a bad timestamp escape.
   */
  function DiskIo(s: Sample, previous: Option<Reading>, parse: IsoParser): (r: Result<Call<DiskIoStats>>)
    ensures r.Err? <==> (
      && BlkioList(s).Present?
      && var read := FirstOpValue(BlkioList(s).value, "READ");
         var write := FirstOpValue(BlkioList(s).value, "WRITE");
         || read == Err(IndexError)
         || (read.Ok? && write == Err(IndexError))
         || (read.Ok? && write.Ok? && s.read.Some? && parse(Prefix(s.read.value, 19)).None?))
    ensures !BlkioList(s).Present? ==> r == Ok(Call(None, previous))
    ensures BlkioList(s).Present? ==>
      var read := FirstOpValue(BlkioList(s).value, "READ");
      var write := FirstOpValue(BlkioList(s).value, "WRITE");
      && (read == Err(IndexError) ==> r == Err(IndexError))
      && (read == Err(KeyError) ==> r == Ok(Call(None, previous)))
      && (read.Ok? && write == Err(IndexError) ==> r == Err(IndexError))
      && (read.Ok? && write == Err(KeyError) ==>
            r == Ok(Call(Some(DiskIoStats(None, Some(read.value), None, None, None, None)), previous)))
      && (read.Ok? && write.Ok? && s.read.None? ==>
            r == Ok(Call(Some(DiskIoStats(None, Some(read.value), Some(write.value), None, None, None)), previous)))
      && (read.Ok? && write.Ok? && s.read.Some? && parse(Prefix(s.read.value, 19)).None? ==> r == Err(ValueError))
    ensures r.Ok? && DiskReadingOf(s, parse).None? ==> r.value.stored == previous
    ensures DiskReadingOf(s, parse).Some? ==>
      var now := DiskReadingOf(s, parse).value;
      && r.Ok? && r.value.stored == Some(now)
      && r.value.stats.Some?
      && r.value.stats.value.totalIor == Some(now.totalIn)
      && r.value.stats.value.totalIow == Some(now.totalOut)
      && r.value.stats.value.readTime == Some(now.readTime)
      && (previous.None? ==> r.value.stats.value.ior.None? && r.value.stats.value.iow.None? && r.value.stats.value.duration.None?)
      && (previous.Some? ==>
           && r.value.stats.value.ior == Some(now.totalIn - previous.value.totalIn)
           && r.value.stats.value.iow == Some(now.totalOut - previous.value.totalOut)
           && r.value.stats.value.duration == Some(now.readTime - previous.value.readTime))
    ensures r.Ok? && r.value.stats.Some? && r.value.stats.value.ior.Some? ==> DiskReadingOf(s, parse).Some? && previous.Some?
  {
    match BlkioList(s)
    case Absent => Ok(Call(None, previous))
    case Null => Ok(Call(None, previous))
    case Present(entries) =>
      match FirstOpValue(entries, "READ")
      case Err(IndexError) => Err(IndexError)
      case Err(_) => Ok(Call(None, previous))
      case Ok(totalIor) =>
        match FirstOpValue(entries, "WRITE")
        case Err(IndexError) => Err(IndexError)
        case Err(_) => Ok(Call(Some(DiskIoStats(None, Some(totalIor), None, None, None, None)), previous))
        case Ok(totalIow) =>
          if s.read.None? then Ok(Call(Some(DiskIoStats(None, Some(totalIor), Some(totalIow), None, None, None)), previous))
          else match ReadIsoTimestamp(s.read.value, parse)
            case Err(e) => Err(e)
            case Ok(t) =>
              var now := Reading(totalIor, totalIow, t);
              match previous
              case None => Ok(Call(Some(DiskIoStats(Some(t), Some(totalIor), Some(totalIow), None, None, None)), Some(now)))
              case Some(p) =>
                Ok(Call(Some(DiskIoStats(Some(t), Some(totalIor), Some(totalIow),
                  Some(totalIor - p.totalIn), Some(totalIow - p.totalOut), Some(t - p.readTime))), Some(now)))
  }

  // ---------------------------------------------------------------- the streamer object

  /** The stream task of `InfoStreamer`: never scheduled, running, or cancelled. */
  datatype TaskState = NoTask | Running | Cancelled

  class ContainerStatStreamer {
    /** The container record the streamer was made for (`InfoStreamer.container`). */
    var container: Container
    var stats: Sample
    var oldNetIo: Option<Reading>
    var oldDiskIo: Option<Reading>
    var task: TaskState

    constructor (container: Container)
      ensures this.container == container
      ensures stats == EmptySample && oldNetIo.None? && oldDiskIo.None? && task == NoTask
    {
      this.container := container;
      stats := EmptySample;
      oldNetIo := None;
      oldDiskIo := None;
      task := NoTask;
    }

    /** `stream_handler`: the new sample replaces the stored one wholesale. */
    method StreamHandler(value: Sample)
      modifies this`stats
      ensures stats == value
    {
      stats := value;
    }

    /** `start_stream`: refused while the task is running; otherwise a new task is scheduled. */
    method StartStream() returns (r: Outcome)
      modifies this`task
      ensures old(task) == Running ==> r == Fail(Raised("Already streaming!")) && task == Running
      ensures old(task) != Running ==> r == Pass && task == Running
    {
      if task == Running {
        return Fail(Raised("Already streaming!"));
      }
      task := Running;
      r := Pass;
    }

    /** `stop_stream`: refused if never started; cancelling an already cancelled task changes nothing. */
    method StopStream() returns (r: Outcome)
      modifies this`task
      ensures old(task) == NoTask ==> r == Fail(Raised("Streaming was never started!")) && task == NoTask
      ensures old(task) != NoTask ==> r == Pass && task == Cancelled
    {
      if task == NoTask {
        return Fail(Raised("Streaming was never started!"));
      }
      task := Cancelled;
      r := Pass;
    }

    /** `get_network_io` on the stored sample; the stored reading follows `NetworkIo`. */
    method GetNetworkIo(parse: IsoParser) returns (r: Result<Option<NetIoStats>>)
      modifies this`oldNetIo
      ensures
        var call := NetworkIo(stats, old(oldNetIo), parse);
        if call.Ok? then r == Ok(call.value.stats) && oldNetIo == call.value.stored
        else r == Err(call.error) && oldNetIo == old(oldNetIo)
    {
      var call := NetworkIo(stats, oldNetIo, parse);
      if call.Ok? {
        oldNetIo := call.value.stored;
        r := Ok(call.value.stats);
      } else {
        r := Err(call.error);
      }
    }

    /** `get_disk_io` on the stored sample; the stored reading follows `DiskIo`. */
    method GetDiskIo(parse: IsoParser) returns (r: Result<Option<DiskIoStats>>)
      modifies this`oldDiskIo
      ensures
        var call := DiskIo(stats, old(oldDiskIo), parse);
        if call.Ok? then r == Ok(call.value.stats) && oldDiskIo == call.value.stored
        else r == Err(call.error) && oldDiskIo == old(oldDiskIo)
    {
      var call := DiskIo(stats, oldDiskIo, parse);
      if call.Ok? {
        oldDiskIo := call.value.stored;
        r := Ok(call.value.stats);
      } else {
        r := Err(call.error);
      }
    }
  }
}
