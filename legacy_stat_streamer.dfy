/**
 * The earlier stats streamer (`cDock/container_stat_streamer.py`).  It differs from the later one in
 * what it returns on a missing key (a CPU usage of 0.0, records whose fields are all absent), in
 * the order it reads network and disk keys (the timestamp first), and in catching only KeyError.
 * Its records are those of `cDock/models.py`, which have no `duration` field: the duration the code
 * computes is dropped when the record is built.
 */
module LegacyStatStreamer {
  import opened Wrappers
  import opened DockerApi
  import StatStreamer

  datatype MemoryStats = MemoryStats(usage: Option<int>, limit: Option<int>, cache: Option<int>, maxUsage: Option<int>)

  datatype NetIoStats = NetIoStats(readTime: Option<int>, totalRx: Option<int>, totalTx: Option<int>, rx: Option<int>, tx: Option<int>)

  datatype DiskIoStats = DiskIoStats(readTime: Option<int>, totalIor: Option<int>, totalIow: Option<int>, ior: Option<int>, iow: Option<int>)

  /** The part of the stored `__old_net_io` / `__old_disk_io` record that the next call reads. */
  datatype Reading = Reading(totalIn: int, totalOut: int, readTime: int)

  /** What a getter returns, and the reading it leaves stored. */
  datatype Call<+S> = Call(stats: S, stored: Option<Reading>)

  const NoNetIo := NetIoStats(None, None, None, None, None)
  const NoDiskIo := DiskIoStats(None, None, None, None, None)

  /**
   * `get_cpu_usage`: 0.0 when a counter is missing, rather than an absent value; a zero system
   * delta is not guarded and raises.
   */
  function CpuUsage(s: Sample): (r: Result<real>)
    ensures !HasCpuCounters(s) ==> r == Ok(0.0)
    ensures r.Err? <==> HasCpuCounters(s) && SystemDelta(s) == 0
    ensures r.Err? ==> r.error == ZeroDivisionError
    ensures HasCpuCounters(s) && r.Ok? ==>
      r.value * SystemDelta(s) as real == (CpuDelta(s) * CoreCount(s.cpuStats).value * 100) as real
  {
    if !HasCpuCounters(s) then Ok(0.0)
    else if SystemDelta(s) == 0 then Err(ZeroDivisionError)
    else Ok(CpuDelta(s) as real / SystemDelta(s) as real * CoreCount(s.cpuStats).value as real * 100.0)
  }

  /**
   * `get_memory_usage`: always a record.  `cache` and `max_usage` come from `memory_stats['stats']`
   * when that sub-dict exists and `limit` was read.
   */
  function MemoryUsage(s: Sample): (r: MemoryStats)
    ensures s.memoryStats.None? ==> r == MemoryStats(None, None, None, None)
    ensures s.memoryStats.Some? && s.memoryStats.value.usage.None? ==> r == MemoryStats(None, None, None, None)
    ensures s.memoryStats.Some? && s.memoryStats.value.usage.Some? ==>
      var m := s.memoryStats.value;
      && r.usage == m.usage
      && r.limit == m.limit
      && (m.limit.Some? && m.stats.Some? ==> r.cache == m.stats.value.cache && r.maxUsage == m.stats.value.maxUsage)
      && (m.limit.None? || m.stats.None? ==> r.cache.None? && r.maxUsage.None?)
  {
    match s.memoryStats
    case None => MemoryStats(None, None, None, None)
    case Some(m) =>
      if m.usage.None? then MemoryStats(None, None, None, None)
      else if m.limit.None? then MemoryStats(m.usage, None, None, None)
      else if m.stats.Some? then MemoryStats(m.usage, m.limit, m.stats.value.cache, m.stats.value.maxUsage)
      else MemoryStats(m.usage, m.limit, None, None)
  }

  /** The reading a fully successful `get_network_io` takes from the sample. */
  function NetReadingOf(s: Sample, parse: IsoParser): Option<Reading> {
    var eth0 := Eth0(s);
    if s.read.None? || eth0.None? || eth0.value.rxBytes.None? || eth0.value.txBytes.None? then None
    else match ReadIsoTimestamp(s.read.value, parse)
      case Err(_) => None
      case Ok(t) => Some(Reading(eth0.value.rxBytes.value, eth0.value.txBytes.value, t))
  }

  /**
   * `get_network_io`: reads `read` first, so a missing timestamp yields a record with no field set;
   * then `total_rx`, `total_tx`.  Only a complete reading is stored.
   */
  function NetworkIo(s: Sample, previous: Option<Reading>, parse: IsoParser): (r: Result<Call<NetIoStats>>)
    ensures r.Err? <==> s.read.Some? && parse(Prefix(s.read.value, 19)).None?
    ensures r.Err? ==> r.error == ValueError
    ensures s.read.None? ==> r == Ok(Call(NoNetIo, previous))
    ensures r.Ok? && NetReadingOf(s, parse).None? ==> r.value.stored == previous
    ensures r.Ok? && s.read.Some? && NetReadingOf(s, parse).None? ==>
      r.value.stats == NetIoStats(parse(Prefix(s.read.value, 19)), if Eth0(s).Some? then Eth0(s).value.rxBytes else None, None, None, None)
    ensures NetReadingOf(s, parse).Some? ==>
      var now := NetReadingOf(s, parse).value;
      && r.Ok? && r.value.stored == Some(now)
      && r.value.stats.readTime == Some(now.readTime)
      && r.value.stats.totalRx == Some(now.totalIn)
      && r.value.stats.totalTx == Some(now.totalOut)
      && (previous.None? ==> r.value.stats.rx.None? && r.value.stats.tx.None?)
      && (previous.Some? ==>
           && r.value.stats.rx == Some(now.totalIn - previous.value.totalIn)
           && r.value.stats.tx == Some(now.totalOut - previous.value.totalOut))
    ensures r.Ok? && r.value.stats.rx.Some? ==> NetReadingOf(s, parse).Some? && previous.Some?
  {
    if s.read.None? then Ok(Call(NoNetIo, previous))
    else match ReadIsoTimestamp(s.read.value, parse)
      case Err(e) => Err(e)
      case Ok(t) =>
        var eth0 := Eth0(s);
        if eth0.None? || eth0.value.rxBytes.None? then Ok(Call(NetIoStats(Some(t), None, None, None, None), previous))
        else if eth0.value.txBytes.None? then Ok(Call(NetIoStats(Some(t), eth0.value.rxBytes, None, None, None), previous))
        else
          var now := Reading(eth0.value.rxBytes.value, eth0.value.txBytes.value, t);
          match previous
          case None => Ok(Call(NetIoStats(Some(t), Some(now.totalIn), Some(now.totalOut), None, None), Some(now)))
          case Some(p) =>
            Ok(Call(NetIoStats(Some(t), Some(now.totalIn), Some(now.totalOut),
              Some(now.totalIn - p.totalIn), Some(now.totalOut - p.totalOut)), Some(now)))
  }

  /** The reading a fully successful `get_disk_io` takes from the sample. */
  function DiskReadingOf(s: Sample, parse: IsoParser): Option<Reading> {
    if !BlkioList(s).Present? || s.read.None? then None
    else
      var entries := BlkioList(s).value;
      if FirstOpValue(entries, "READ").Err? || FirstOpValue(entries, "WRITE").Err? then None
      else match ReadIsoTimestamp(s.read.value, parse)
        case Err(_) => None
        case Ok(t) => Some(Reading(FirstOpValue(entries, "READ").value, FirstOpValue(entries, "WRITE").value, t))
  }

  /**
   * `get_disk_io`: reads the list, then `read`, then the first READ and WRITE totals.  Only
   * KeyError is caught, so a `null` list raises TypeError once the timestamp has been parsed; a list
   * without a READ (or WRITE) entry raises IndexError.
   */
  function DiskIo(s: Sample, previous: Option<Reading>, parse: IsoParser): (r: Result<Call<DiskIoStats>>)
    ensures r.Err? ==> r.error in {TypeError, IndexError, ValueError}
    ensures BlkioList(s).Null? && s.read.Some? && parse(Prefix(s.read.value, 19)).Some? ==> r == Err(TypeError)
    ensures BlkioList(s).Absent? || s.read.None? ==> r == Ok(Call(NoDiskIo, previous))
    ensures r.Err? <==> (
      && !BlkioList(s).Absent? && s.read.Some?
      && (|| parse(Prefix(s.read.value, 19)).None?
          || BlkioList(s).Null?
          || var read := FirstOpValue(BlkioList(s).value, "READ");
             var write := FirstOpValue(BlkioList(s).value, "WRITE");
             read == Err(IndexError) || (read.Ok? && write == Err(IndexError))))
    ensures !BlkioList(s).Absent? && s.read.Some? && parse(Prefix(s.read.value, 19)).None? ==> r == Err(ValueError)
    ensures BlkioList(s).Present? && s.read.Some? && parse(Prefix(s.read.value, 19)).Some? ==>
      var t := parse(Prefix(s.read.value, 19)).value;
      var read := FirstOpValue(BlkioList(s).value, "READ");
      var write := FirstOpValue(BlkioList(s).value, "WRITE");
      && (read == Err(IndexError) ==> r == Err(IndexError))
      && (read == Err(KeyError) ==> r == Ok(Call(DiskIoStats(Some(t), None, None, None, None), previous)))
      && (read.Ok? && write == Err(IndexError) ==> r == Err(IndexError))
      && (read.Ok? && write == Err(KeyError) ==>
            r == Ok(Call(DiskIoStats(Some(t), Some(read.value), None, None, None), previous)))
    ensures r.Ok? && DiskReadingOf(s, parse).None? ==> r.value.stored == previous
    ensures DiskReadingOf(s, parse).Some? ==>
      var now := DiskReadingOf(s, parse).value;
      && r.Ok? && r.value.stored == Some(now)
      && r.value.stats.readTime == Some(now.readTime)
      && r.value.stats.totalIor == Some(now.totalIn)
      && r.value.stats.totalIow == Some(now.totalOut)
      && (previous.None? ==> r.value.stats.ior.None? && r.value.stats.iow.None?)
      && (previous.Some? ==>
           && r.value.stats.ior == Some(now.totalIn - previous.value.totalIn)
           && r.value.stats.iow == Some(now.totalOut - previous.value.totalOut))
    ensures r.Ok? && r.value.stats.ior.Some? ==> DiskReadingOf(s, parse).Some? && previous.Some?
  {
    if BlkioList(s).Absent? || s.read.None? then Ok(Call(NoDiskIo, previous))
    else match ReadIsoTimestamp(s.read.value, parse)
      case Err(e) => Err(e)
      case Ok(t) =>
        match BlkioList(s)
        case Null => Err(TypeError)
        case Present(entries) =>
          match FirstOpValue(entries, "READ")
          case Err(IndexError) => Err(IndexError)
          case Err(_) => Ok(Call(DiskIoStats(Some(t), None, None, None, None), previous))
          case Ok(totalIor) =>
            match FirstOpValue(entries, "WRITE")
            case Err(IndexError) => Err(IndexError)
            case Err(_) => Ok(Call(DiskIoStats(Some(t), Some(totalIor), None, None, None), previous))
            case Ok(totalIow) =>
              var now := Reading(totalIor, totalIow, t);
              match previous
              case None => Ok(Call(DiskIoStats(Some(t), Some(totalIor), Some(totalIow), None, None), Some(now)))
              case Some(p) =>
                Ok(Call(DiskIoStats(Some(t), Some(totalIor), Some(totalIow),
                  Some(totalIor - p.totalIn), Some(totalIow - p.totalOut)), Some(now)))
  }

  /** Where the later streamer reports a CPU figure, the earlier one reports the same usage. */
  lemma CpuUsageAgreesWithLater(s: Sample)
    requires StatStreamer.CpuStatsOf(s).Ok? && StatStreamer.CpuStatsOf(s).value.Some?
    ensures CpuUsage(s) == Ok(StatStreamer.CpuStatsOf(s).value.value.usage)
  {
  }

  /**
   * The intended memory record: where the later streamer's corrected reader yields a record, this
   * one yields the same four fields.  The reader as written there loses `cache` and `max_usage`.
   */
  lemma MemoryUsageAgreesWithCorrected(s: Sample)
    requires StatStreamer.MemoryStatsOf(s).Some?
    ensures
      var m := StatStreamer.MemoryStatsOf(s).value;
      MemoryUsage(s) == MemoryStats(m.usage, m.limit, m.cache, m.maxUsage)
  {
  }

  /**
   * The streamer object.  Its constructor schedules the stream task at once; `stop_stream`
   * cancels it (again, harmlessly, if it already was).
   */
  class ContainerStatStreamer {
    var container: Container
    var stats: Sample
    var oldNetIo: Option<Reading>
    var oldDiskIo: Option<Reading>
    var streaming: bool

    constructor (container: Container)
      ensures this.container == container && stats == EmptySample
      ensures oldNetIo.None? && oldDiskIo.None? && streaming
    {
      this.container := container;
      stats := EmptySample;
      oldNetIo := None;
      oldDiskIo := None;
      streaming := true;
    }

    /** `stop_stream`. */
    method StopStream()
      modifies this`streaming
      ensures !streaming
    {
      streaming := false;
    }

    /** `get_container`. */
    function GetContainer(): Container
      reads this
    {
      container
    }

    /** `update_container`. */
    method UpdateContainer(c: Container)
      modifies this`container
      ensures container == c
    {
      container := c;
    }

    /** `get_network_io` on the stored sample; the stored reading follows `NetworkIo`. */
    method GetNetworkIo(parse: IsoParser) returns (r: Result<NetIoStats>)
      modifies this`oldNetIo
      ensures
        var call := NetworkIo(stats, old(oldNetIo), parse);
        if call.Ok? then r == Ok(call.value.stats) && oldNetIo == call.value.stored
        else r == Err(call.error) && oldNetIo == old(oldNetIo)
    {
      var call := NetworkIo(stats, oldNetIo, parse);
      if call.Ok? {
        oldNetIo := call.value.stored;
        r := Ok(call.value.stats);
      } else {
        r := Err(call.error);
      }
    }

    /** `get_disk_io` on the stored sample; the stored reading follows `DiskIo`. */
    method GetDiskIo(parse: IsoParser) returns (r: Result<DiskIoStats>)
      modifies this`oldDiskIo
      ensures
        var call := DiskIo(stats, old(oldDiskIo), parse);
        if call.Ok? then r == Ok(call.value.stats) && oldDiskIo == call.value.stored
        else r == Err(call.error) && oldDiskIo == old(oldDiskIo)
    {
      var call := DiskIo(stats, oldDiskIo, parse);
      if call.Ok? {
        oldDiskIo := call.value.stored;
        r := Ok(call.value.stats);
      } else {
        r := Err(call.error);
      }
    }
  }
}
