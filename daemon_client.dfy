/**
 * The daemon client of the `docker_client` package.  It keeps three maps, all keyed by container
 * name: the last container record seen, the stats streamer of every container that is running or
 * paused, and the container actions still in progress (keyed `name/action`).  Each refresh folds the
 * daemon's listing into the first two maps; each action request is checked against the first and
 * the third.
 */
module DaemonClient {
  import opened Wrappers
  import opened DockerApi
  import StatStreamer

  /**
   * A value of the container map.  Removing a container does not delete its entry: the record is
   * overwritten by the key string itself, which has none of the container's attributes.
   */
  datatype Entry = Live(container: Container) | Tombstone(key: string)

  function EntryKey(e: Entry): string {
    match e
    case Live(c) => c.name
    case Tombstone(k) => k
  }

  /** The six actions the client exposes, each forwarding to the SDK method of the same name. */
  datatype ActionKind = Start | Restart | Pause | Resume | Stop | Kill {
    function Name(): string {
      match this
      case Start => "start"
      case Restart => "restart"
      case Pause => "pause"
      case Resume => "resume"
      case Stop => "stop"
      case Kill => "kill"
    }
  }

  /** What a pending action's thread was started with. */
  datatype PendingAction = PendingAction(containerKey: string, action: ActionKind)

  /** The key of the action map. */
  function ActionKey(containerKey: string, action: ActionKind): string {
    containerKey + "/" + action.Name()
  }

  /** `hasattr(entry, action_name)`. */
  predicate HasAction(e: Entry, action: ActionKind) {
    e.Live? && action.Name() in e.container.attributes
  }

  /**
   * The guards of `__container_action`, in their order; `Pass` means the action thread is started
   * and recorded under its key.
   */
  function ActionGuard(containers: map<string, Entry>, pending: map<string, PendingAction>, containerKey: string, action: ActionKind): (r: Outcome)
    ensures r == Fail(Raised("Unknown container!")) <==> containerKey !in containers
    ensures r == Fail(Raised("Unknown action_executor!")) <==>
      containerKey in containers && !HasAction(containers[containerKey], action)
    ensures r == Fail(Raised("Another action_executor in progress!")) <==>
      containerKey in containers && HasAction(containers[containerKey], action) && ActionKey(containerKey, action) in pending
    ensures r == Pass <==>
      containerKey in containers && HasAction(containers[containerKey], action) && ActionKey(containerKey, action) !in pending
  {
    if containerKey !in containers then Fail(Raised("Unknown container!"))
    else if !HasAction(containers[containerKey], action) then Fail(Raised("Unknown action_executor!"))
    else if ActionKey(containerKey, action) in pending then Fail(Raised("Another action_executor in progress!"))
    else Pass
  }

  lemma ActionKeySuffix(containerKey: string, action: ActionKind)
    ensures |ActionKey(containerKey, action)| > |containerKey|
    ensures ActionKey(containerKey, action)[|containerKey| + 1..] == action.Name()
  {
  }

  /** Distinct actions on one container get distinct keys. */
  lemma ActionKeysDistinct(containerKey: string, a: ActionKind, b: ActionKind)
    requires a != b
    ensures ActionKey(containerKey, a) != ActionKey(containerKey, b)
  {
    ActionKeySuffix(containerKey, a);
    ActionKeySuffix(containerKey, b);
    assert a.Name() != b.Name();
  }

  /** While an accepted action is pending, the same request is refused. */
  lemma SecondIdenticalActionRejected(containers: map<string, Entry>, pending: map<string, PendingAction>, containerKey: string, action: ActionKind)
    requires ActionGuard(containers, pending, containerKey, action) == Pass
    ensures
      var after := pending[ActionKey(containerKey, action) := PendingAction(containerKey, action)];
      ActionGuard(containers, after, containerKey, action) == Fail(Raised("Another action_executor in progress!"))
  {
  }

  /** A pending action does not block a different action on the same container. */
  lemma OtherActionAccepted(containers: map<string, Entry>, pending: map<string, PendingAction>, containerKey: string, action: ActionKind, other: ActionKind)
    requires ActionGuard(containers, pending, containerKey, action) == Pass
    requires ActionGuard(containers, pending, containerKey, other) == Pass
    requires other != action
    ensures
      var after := pending[ActionKey(containerKey, action) := PendingAction(containerKey, action)];
      ActionGuard(containers, after, containerKey, other) == Pass
  {
    ActionKeysDistinct(containerKey, action, other);
  }

  /** Once the action's thread has finished and dropped its key, the same request is accepted again. */
  lemma CompletedActionCanRepeat(containers: map<string, Entry>, pending: map<string, PendingAction>, containerKey: string, action: ActionKind)
    requires ActionGuard(containers, pending, containerKey, action) == Pass
    ensures
      var key := ActionKey(containerKey, action);
      var after := pending[key := PendingAction(containerKey, action)] - {key};
      ActionGuard(containers, after, containerKey, action) == Pass
  {
    var key := ActionKey(containerKey, action);
    assert key !in pending[key := PendingAction(containerKey, action)] - {key};
  }

  // ---------------------------------------------------------------- the listing fold

  function Names(listing: seq<Container>): set<string> {
    if listing == [] then {} else Names(listing[..|listing| - 1]) + {listing[|listing| - 1].name}
  }

  /**
   * The names that keep a streamer after the upserts of a listing: a later record of a name decides
   * over an earlier one.
   */
  function StreamingNames(listing: seq<Container>): set<string> {
    if listing == [] then {}
    else
      var last := listing[|listing| - 1];
      var rest := StreamingNames(listing[..|listing| - 1]);
      if IsStreaming(last.status) then rest + {last.name} else rest - {last.name}
  }

  /** The container map after upserting every record of a listing. */
  function Stored(containers: map<string, Entry>, listing: seq<Container>): map<string, Entry> {
    if listing == [] then containers
    else
      var last := listing[|listing| - 1];
      Stored(containers, listing[..|listing| - 1])[last.name := Live(last)]
  }

  /** `__remove_container` applied to every key of `keys` that is in the map. */
  function Tombstoned(containers: map<string, Entry>, keys: set<string>): map<string, Entry> {
    map k | k in containers :: if k in keys then Tombstone(k) else containers[k]
  }

  /**
   * Every record of the listing under `name` has a streaming status, so the upserts never pop the
   * streamer that name already has.
   */
  predicate StreamsThroughout(listing: seq<Container>, name: string) {
    forall j :: 0 <= j < |listing| && listing[j].name == name ==> IsStreaming(listing[j].status)
  }

  /** Streaming throughout a longer prefix means streaming throughout the shorter one and at its end. */
  lemma StreamsThroughoutStep(listing: seq<Container>, i: nat, name: string)
    requires i < |listing| && StreamsThroughout(listing[..i + 1], name)
    ensures StreamsThroughout(listing[..i], name)
    ensures listing[i].name == name ==> IsStreaming(listing[i].status)
  {
    assert listing[..i + 1][i] == listing[i];
    forall j | 0 <= j < i && listing[..i][j].name == name
      ensures IsStreaming(listing[..i][j].status)
    {
      assert listing[..i + 1][j] == listing[..i][j];
    }
  }

  /**
   * One upsert of `listing[i]` keeps, under every name still streaming throughout the longer prefix,
   * the streamer of `kept` that the name held before.
   */
  /** With unique names, the name of a streaming record streams throughout the listing. */
  lemma UniqueStreamsThroughout(listing: seq<Container>, k: nat)
    requires UniqueNames(listing) && k < |listing| && IsStreaming(listing[k].status)
    ensures StreamsThroughout(listing, listing[k].name)
  {
  }

  lemma KeptAfterUpsert<T>(listing: seq<Container>, i: nat, kept: map<string, T>, before: map<string, T>, after: map<string, T>)
    requires i < |listing|
    requires forall k :: k in kept && StreamsThroughout(listing[..i], k) ==> k in before && before[k] == kept[k]
    requires after.Keys == if IsStreaming(listing[i].status) then before.Keys + {listing[i].name} else before.Keys - {listing[i].name}
    requires forall k :: k in after && k != listing[i].name ==> after[k] == before[k]
    requires listing[i].name in before && IsStreaming(listing[i].status) ==> after[listing[i].name] == before[listing[i].name]
    ensures forall k :: k in kept && StreamsThroughout(listing[..i + 1], k) ==>
      StreamsThroughout(listing[..i], k) && k in after && after[k] == kept[k]
  {
    forall k | k in kept && StreamsThroughout(listing[..i + 1], k)
      ensures StreamsThroughout(listing[..i], k) && k in after && after[k] == kept[k]
    {
      StreamsThroughoutStep(listing, i, k);
    }
  }

  /** One more upsert extends the fold of the streamer keys by the next record. */
  lemma StreamingKeysStep(listing: seq<Container>, i: nat, before: set<string>, keys: set<string>)
    requires i < |listing|
    requires keys == StreamingNames(listing[..i]) + (before - Names(listing[..i]))
    ensures (if IsStreaming(listing[i].status) then keys + {listing[i].name} else keys - {listing[i].name})
      == StreamingNames(listing[..i + 1]) + (before - Names(listing[..i + 1]))
  {
    assert listing[..i + 1][..i] == listing[..i];
  }

  lemma TombstonedNone(containers: map<string, Entry>)
    ensures Tombstoned(containers, {}) == containers
  {
  }

  lemma TombstonedStep(containers: map<string, Entry>, keys: set<string>, k: string)
    ensures Tombstoned(containers, keys + {k}) ==
      if k in containers then Tombstoned(containers, keys)[k := Tombstone(k)] else Tombstoned(containers, keys)
  {
  }

  predicate UniqueNames(listing: seq<Container>) {
    forall i, j :: 0 <= i < j < |listing| ==> listing[i].name != listing[j].name
  }

  lemma {:induction false} NamesListed(listing: seq<Container>)
    ensures Names(listing) == set c | c in listing :: c.name
  {
    if listing != [] {
      var init := listing[..|listing| - 1];
      NamesListed(init);
      assert listing == init + [listing[|listing| - 1]];
    }
  }

  lemma {:induction false} StreamingNamesListed(listing: seq<Container>)
    ensures StreamingNames(listing) <= Names(listing)
  {
    if listing != [] {
      StreamingNamesListed(listing[..|listing| - 1]);
    }
  }

  /**
   * With unique names, the streamed names after a refresh are exactly the listed names whose status
   * is `running` or `paused`.
   */
  lemma {:induction false} StreamingNamesOfUniqueListing(listing: seq<Container>)
    requires UniqueNames(listing)
    ensures StreamingNames(listing) == set c | c in listing && IsStreaming(c.status) :: c.name
  {
    if listing != [] {
      var init := listing[..|listing| - 1];
      var last := listing[|listing| - 1];
      assert listing == init + [last];
      assert UniqueNames(init);
      StreamingNamesOfUniqueListing(init);
      forall c | c in init
        ensures c.name != last.name
      {
        var j :| 0 <= j < |init| && init[j] == c;
        assert listing[j] == c;
      }
    }
  }

  /** With unique names, every listed record is stored under its name after the upserts. */
  lemma {:induction false} StoredUniqueListing(containers: map<string, Entry>, listing: seq<Container>)
    requires UniqueNames(listing)
    ensures Stored(containers, listing).Keys == containers.Keys + Names(listing)
    ensures forall i :: 0 <= i < |listing| ==> listing[i].name in Stored(containers, listing)
    ensures forall i :: 0 <= i < |listing| ==> Stored(containers, listing)[listing[i].name] == Live(listing[i])
    ensures forall k :: k in containers && k !in Names(listing) ==> Stored(containers, listing)[k] == containers[k]
  {
    if listing != [] {
      var init := listing[..|listing| - 1];
      var last := listing[|listing| - 1];
      assert UniqueNames(init);
      StoredUniqueListing(containers, init);
      forall i | 0 <= i < |listing|
        ensures listing[i].name in Stored(containers, listing)
        ensures Stored(containers, listing)[listing[i].name] == Live(listing[i])
      {
        if i < |listing| - 1 {
          assert listing[i] == init[i];
          assert listing[i].name != last.name;
        }
      }
    }
  }

  // ---------------------------------------------------------------- views

  /** The fields `__get_active_container_stats` manages to fill before its first exception. */
  datatype ActiveStats = ActiveStats(
    startedAt: Option<string>,
    command: Option<seq<string>>,
    cpuStats: Option<StatStreamer.CpuStats>,
    memoryStats: Option<StatStreamer.MemoryStats>,
    netIoStats: Option<StatStreamer.NetIoStats>,
    diskIoStats: Option<StatStreamer.DiskIoStats>,
    ports: Option<seq<string>>)

  const NoActiveStats := ActiveStats(None, None, None, None, None, None, None)

  datatype ContainerView = ContainerView(
    name: string, id: string, status: string, image: string, createdAt: string,
    active: ActiveStats)

  /** The part of a streamer that the active-stats getters read and write. */
  datatype Snapshot = Snapshot(stats: Sample, oldNetIo: Option<StatStreamer.Reading>, oldDiskIo: Option<StatStreamer.Reading>)

  /** The snapshot of a streamer that has been started and has not received a sample yet. */
  const Unstreamed := Snapshot(EmptySample, None, None)

  /** A streamer whose state is `Unstreamed`. */
  predicate Unread(s: StatStreamer.ContainerStatStreamer)
    reads s
  {
    s.stats == EmptySample && s.oldNetIo.None? && s.oldDiskIo.None?
  }

  /** `Entrypoint` then `Cmd`, or nothing when `Config` is missing. */
  function CommandOf(c: Container): seq<string> {
    if c.config.Some? then Command(c.config.value) else []
  }

  /**
   * `__get_active_container_stats` on a container and the state of its streamer (`None` when the
   * name has none, which the lookup reports as KeyError).  Every exception is caught, so the result
   * holds the fields assigned before it, in source order; the stored readings only change through
   * the network and disk getters.
   */
  function ActiveStatsOf(c: Container, streamer: Option<Snapshot>, parse: IsoParser): (r: (ActiveStats, Option<Snapshot>))
    ensures c.startedAt.None? ==> r == (NoActiveStats, streamer)
    ensures c.startedAt.Some? && c.config.None? ==>
      r == (ActiveStats(c.startedAt, Some([]), None, None, None, None, None), streamer)
    ensures c.startedAt.Some? && c.config.Some? && streamer.None? ==>
      r == (ActiveStats(c.startedAt, Some(CommandOf(c)), None, None, None, None, None), streamer)
    ensures c.startedAt.Some? && c.config.Some? && streamer.Some? ==>
      var st := streamer.value;
      var cpu := StatStreamer.CpuStatsOf(st.stats);
      var net := StatStreamer.NetworkIo(st.stats, st.oldNetIo, parse);
      var disk := StatStreamer.DiskIo(st.stats, st.oldDiskIo, parse);
      && r.0.startedAt == c.startedAt && r.0.command == Some(CommandOf(c))
      && r.1.Some? && r.1.value.stats == st.stats
      && (cpu.Err? ==> r == (ActiveStats(c.startedAt, Some(CommandOf(c)), None, None, None, None, None), streamer))
      && (cpu.Ok? ==> r.0.cpuStats == cpu.value && r.0.memoryStats == StatStreamer.MemoryStatsOf(st.stats))
      && (cpu.Ok? && net.Err? ==> r.0.netIoStats.None? && r.0.diskIoStats.None? && r.0.ports.None? && r.1 == streamer)
      && (cpu.Ok? && net.Ok? ==> r.0.netIoStats == net.value.stats && r.1.value.oldNetIo == net.value.stored)
      && (cpu.Ok? && net.Ok? && disk.Err? ==>
            r.0.diskIoStats.None? && r.0.ports.None? && r.1.value.oldDiskIo == st.oldDiskIo)
      && (cpu.Ok? && net.Ok? && disk.Ok? ==>
            && r.0.diskIoStats == disk.value.stats && r.1.value.oldDiskIo == disk.value.stored
            && r.0.ports == Some(c.config.value.exposedPorts.GetOr([])))
  {
    if c.startedAt.None? then (NoActiveStats, streamer)
    else if c.config.None? then (ActiveStats(c.startedAt, Some([]), None, None, None, None, None), streamer)
    else
      var command := Some(Command(c.config.value));
      if streamer.None? then (ActiveStats(c.startedAt, command, None, None, None, None, None), streamer)
      else
        var snap := streamer.value;
        match StatStreamer.CpuStatsOf(snap.stats)
        case Err(_) => (ActiveStats(c.startedAt, command, None, None, None, None, None), streamer)
        case Ok(cpu) =>
          var memory := StatStreamer.MemoryStatsOf(snap.stats);
          match StatStreamer.NetworkIo(snap.stats, snap.oldNetIo, parse)
          case Err(_) => (ActiveStats(c.startedAt, command, cpu, memory, None, None, None), streamer)
          case Ok(net) =>
            var afterNet := snap.(oldNetIo := net.stored);
            match StatStreamer.DiskIo(snap.stats, snap.oldDiskIo, parse)
            case Err(_) => (ActiveStats(c.startedAt, command, cpu, memory, net.stats, None, None), Some(afterNet))
            case Ok(disk) =>
              var ports := Some(c.config.value.exposedPorts.GetOr([]));
              (ActiveStats(c.startedAt, command, cpu, memory, net.stats, disk.stats, ports), Some(afterNet.(oldDiskIo := disk.stored)))
  }

  /** A view shows the container it was made from, with active fields only for a streaming status. */
  predicate Describes(v: ContainerView, c: Container) {
    && v.name == c.name && v.id == c.id && v.status == c.status && v.image == c.image && v.createdAt == c.createdAt
    && (!IsStreaming(c.status) ==> v.active == NoActiveStats)
    && (IsStreaming(c.status) ==> v.active.startedAt == c.startedAt && (c.startedAt.Some? ==> v.active.command == Some(CommandOf(c))))
  }

  /** A live entry whose status streams. */
  predicate Streams(e: Entry) {
    e.Live? && IsStreaming(e.container.status)
  }

  /**
   * Every entry sits under its own key, and the names with a streamer are exactly those whose entry
   * is a live container with a streaming status.
   */
  ghost predicate Shaped(containers: map<string, Entry>, streaming: set<string>) {
    && (forall k :: k in containers ==> EntryKey(containers[k]) == k)
    && (forall k :: k in streaming ==> k in containers && Streams(containers[k]))
    && (forall k :: k in containers && Streams(containers[k]) ==> k in streaming)
  }

  /** The map shape after one entry is written, with the streamer keys that entry leaves. */
  lemma ShapedAfterWrite(containers: map<string, Entry>, streaming: set<string>, key: string, e: Entry, after: set<string>)
    requires Shaped(containers, streaming) && EntryKey(e) == key
    requires forall k :: k in after <==> if k == key then Streams(e) else k in streaming
    ensures Shaped(containers[key := e], after)
  {
  }

  /** Adding an element already present, or removing one that is absent, leaves a set as it is. */
  lemma SetUnchanged<T>(s: set<T>, x: T)
    ensures x in s ==> s + {x} == s
    ensures x !in s ==> s - {x} == s
  {
  }

  /** Dropping the key of a value no other key holds removes exactly that value. */
  lemma ValuesAfterDrop<K, V>(m: map<K, V>, key: K)
    requires key in m
    requires forall k :: k in m && k != key ==> m[k] != m[key]
    ensures (m - {key}).Values == m.Values - {m[key]}
  {
    forall o | o in m.Values && o != m[key]
      ensures o in (m - {key}).Values
    {
      var k :| k in m && m[k] == o;
      assert k != key && (m - {key})[k] == o;
    }
  }

  /** Adding a new key adds exactly its value. */
  lemma ValuesAfterAdd<K, V>(m: map<K, V>, key: K, v: V)
    requires key !in m
    ensures m[key := v].Values == m.Values + {v}
  {
    forall o | o in m.Values
      ensures o in m[key := v].Values
    {
      var k :| k in m && m[k] == o;
      assert k != key && m[key := v][k] == o;
    }
    assert m[key := v][key] == v;
  }

  /** What `get_version_and_container_views` returns: `version` and `container_views` when read. */
  datatype RefreshStats = RefreshStats(version: Option<string>, views: Option<seq<ContainerView>>)

  class DockerDaemonClient {
    /** Whether `connect` created an SDK client (closing it does not reset this). */
    var connected: bool
    var containers: map<string, Entry>
    var streams: map<string, StatStreamer.ContainerStatStreamer>
    var pending: map<string, PendingAction>

    /**
     * Every entry sits under its own key; a name has a streamer exactly when its entry is a live
     * container with a streaming status; every kept streamer is running and was made for a container
     * of its name, so no two names share one; and every pending action sits under its own key.
     */
    ghost predicate Valid()
      reads this, streams.Values
    {
      && Shaped(containers, streams.Keys)
      && (forall k :: k in streams ==> streams[k].task == StatStreamer.Running && streams[k].container.name == k)
      && (forall k :: k in pending ==> k == ActionKey(pending[k].containerKey, pending[k].action))
    }

    /** Every streamer of `before` that the client no longer holds has been stopped. */
    ghost predicate StoppedUnlessKept(before: set<StatStreamer.ContainerStatStreamer>)
      reads this, before
    {
      forall o :: o in before && o !in streams.Values ==> o.task == StatStreamer.Cancelled
    }

    /** The streamer kept for a name, as a frame. */
    function StreamerAt(name: string): set<StatStreamer.ContainerStatStreamer>
      reads this
    {
      if name in streams then {streams[name]} else {}
    }

    /** The state of the streamer kept for a name. */
    function SnapshotAt(name: string): Option<Snapshot>
      reads this, streams.Values
    {
      if name in streams then Some(Snapshot(streams[name].stats, streams[name].oldNetIo, streams[name].oldDiskIo)) else None
    }

    constructor ()
      ensures Valid()
      ensures !connected && containers == map[] && streams == map[] && pending == map[]
    {
      connected := false;
      containers := map[];
      streams := map[];
      pending := map[];
    }

    /** `connect`: refused once a client exists; `succeeds` is whether the SDK client could be created. */
    method Connect(succeeds: bool) returns (r: Result<bool>)
      modifies this`connected
      ensures old(connected) ==> r == Err(Raised("DockerDaemonClient - Already connection to a daemon")) && connected
      ensures !old(connected) ==> r == Ok(succeeds) && connected == succeeds
    {
      if connected {
        return Err(Raised("DockerDaemonClient - Already connection to a daemon"));
      }
      connected := succeeds;
      r := Ok(succeeds);
    }

    /** `ContainerStatStreamer(container)` followed by `start_stream()`. */
    static method StartedStreamer(c: Container) returns (s: StatStreamer.ContainerStatStreamer)
      ensures fresh(s) && s.container == c && s.task == StatStreamer.Running && Unread(s)
    {
      s := new StatStreamer.ContainerStatStreamer(c);
      var _ := s.StartStream();
    }

    /** The new streamer of `__upsert_container`: the record is stored and its streamer started. */
    method Track(c: Container)
      requires Valid() && c.name !in streams && IsStreaming(c.status)
      modifies this`containers, this`streams
      ensures Valid()
      ensures containers == old(containers)[c.name := Live(c)]
      ensures c.name in streams && fresh(streams[c.name]) && Unread(streams[c.name])
      ensures streams == old(streams)[c.name := streams[c.name]]
      ensures streams.Keys == old(streams).Keys + {c.name}
      ensures streams.Values == old(streams.Values) + {streams[c.name]}
    {
      ShapedAfterWrite(containers, streams.Keys, c.name, Live(c), streams.Keys + {c.name});
      containers := containers[c.name := Live(c)];
      var s := StartedStreamer(c);
      ValuesAfterAdd(streams, c.name, s);
      streams := streams[c.name := s];
    }

    /**
     * `pop(container_key).stop_stream()`, as `__upsert_container` and `__remove_container` do it:
     * the entry `e`, which does not stream, is stored and the key's streamer stopped.
     */
    method Untrack(key: string, e: Entry)
      requires Valid() && key in streams && EntryKey(e) == key && !Streams(e)
      modifies this`containers, this`streams, StreamerAt(key)`task
      ensures Valid()
      ensures containers == old(containers)[key := e]
      ensures streams == old(streams) - {key}
      ensures streams.Keys == old(streams).Keys - {key}
      ensures old(streams[key]).task == StatStreamer.Cancelled
      ensures streams.Values == old(streams.Values) - {old(streams[key])}
    {
      ShapedAfterWrite(containers, streams.Keys, key, e, streams.Keys - {key});
      containers := containers[key := e];
      var s := streams[key];
      ValuesAfterDrop(streams, key);
      streams := streams - {key};
      var _ := s.StopStream();
    }

    /**
     * `__upsert_container`: the record replaces the old entry; a streamer is created and started only
     * if the name has none and the status streams, and popped and stopped only if the name has one
     * and the status does not.
     */
    method Upsert(c: Container)
      requires Valid()
      modifies this`containers, this`streams, StreamerAt(c.name)`task
      ensures Valid()
      ensures containers == old(containers)[c.name := Live(c)]
      ensures streams.Keys == if IsStreaming(c.status) then old(streams).Keys + {c.name} else old(streams).Keys - {c.name}
      ensures forall k :: k in streams && k != c.name ==> streams[k] == old(streams[k])
      ensures c.name in old(streams) && IsStreaming(c.status) ==> streams[c.name] == old(streams[c.name])
      ensures forall k :: k in old(streams) && k in streams ==> unchanged(streams[k])
      ensures c.name !in old(streams) && IsStreaming(c.status) ==> fresh(streams[c.name]) && Unread(streams[c.name])
      ensures c.name in old(streams) && !IsStreaming(c.status) ==> old(streams[c.name]).task == StatStreamer.Cancelled
      ensures forall o :: o in streams.Values ==> o in old(streams.Values) || (fresh(o) && Unread(o))
      ensures StoppedUnlessKept(old(streams.Values))
    {
      if c.name !in streams && IsStreaming(c.status) {
        Track(c);
      } else if c.name in streams && !IsStreaming(c.status) {
        Untrack(c.name, Live(c));
      } else {
        SetUnchanged(streams.Keys, c.name);
        ShapedAfterWrite(containers, streams.Keys, c.name, Live(c), streams.Keys);
        containers := containers[c.name := Live(c)];
      }
    }

    /**
     * `__remove_container`: a known entry is overwritten by its key, never deleted; a streamer, if
     * any, is popped and stopped.
     */
    method Remove(key: string)
      requires Valid()
      modifies this`containers, this`streams, StreamerAt(key)`task
      ensures Valid()
      ensures containers == if key in old(containers) then old(containers)[key := Tombstone(key)] else old(containers)
      ensures streams.Keys == old(streams).Keys - {key}
      ensures forall k :: k in streams ==> streams[k] == old(streams[k]) && unchanged(streams[k])
      ensures key in old(streams) ==> old(streams[key]).task == StatStreamer.Cancelled
      ensures StoppedUnlessKept(old(streams.Values))
    {
      if key in streams {
        Untrack(key, Tombstone(key));
      } else {
        SetUnchanged(streams.Keys, key);
        if key in containers {
          ShapedAfterWrite(containers, streams.Keys, key, Tombstone(key), streams.Keys);
          containers := containers[key := Tombstone(key)];
        }
      }
    }

    /** `__get_active_container_stats`, following `ActiveStatsOf` on the name's streamer. */
    method ActiveContainerStats(c: Container, parse: IsoParser) returns (a: ActiveStats)
      requires Valid()
      modifies StreamerAt(c.name)`oldNetIo, StreamerAt(c.name)`oldDiskIo
      ensures Valid()
      ensures (a, SnapshotAt(c.name)) == ActiveStatsOf(c, old(SnapshotAt(c.name)), parse)
    {
      if c.startedAt.None? {
        return NoActiveStats;
      }
      if c.config.None? {
        return ActiveStats(c.startedAt, Some([]), None, None, None, None, None);
      }
      var command := Some(Command(c.config.value));
      if c.name !in streams {
        return ActiveStats(c.startedAt, command, None, None, None, None, None);
      }
      var s := streams[c.name];
      var cpu := StatStreamer.CpuStatsOf(s.stats);
      if cpu.Err? {
        return ActiveStats(c.startedAt, command, None, None, None, None, None);
      }
      var memory := StatStreamer.MemoryStatsOf(s.stats);
      var net := s.GetNetworkIo(parse);
      if net.Err? {
        return ActiveStats(c.startedAt, command, cpu.value, memory, None, None, None);
      }
      var disk := s.GetDiskIo(parse);
      if disk.Err? {
        return ActiveStats(c.startedAt, command, cpu.value, memory, net.value, None, None);
      }
      a := ActiveStats(c.startedAt, command, cpu.value, memory, net.value, disk.value, Some(c.config.value.exposedPorts.GetOr([])));
    }

    /** `__generate_container_view`: the fixed fields, merged with the active ones when the status streams. */
    method GenerateContainerView(c: Container, parse: IsoParser) returns (v: ContainerView)
      requires Valid()
      modifies StreamerAt(c.name)`oldNetIo, StreamerAt(c.name)`oldDiskIo
      ensures Valid()
      ensures Describes(v, c)
      ensures IsStreaming(c.status) ==> (v.active, SnapshotAt(c.name)) == ActiveStatsOf(c, old(SnapshotAt(c.name)), parse)
      ensures !IsStreaming(c.status) ==> SnapshotAt(c.name) == old(SnapshotAt(c.name))
      ensures forall n :: n != c.name ==> SnapshotAt(n) == old(SnapshotAt(n))
    {
      var active := NoActiveStats;
      if IsStreaming(c.status) {
        active := ActiveContainerStats(c, parse);
      }
      v := ContainerView(c.name, c.id, c.status, c.image, c.createdAt, active);
    }

    /**
     * One turn of the upsert loop: the container map and the streamer keys advance by `list[i]`, and
     * every streamer of `before` that is no longer held stays stopped.
     */
    method UpsertNext(list: seq<Container>, i: nat, ghost stored: map<string, Entry>,
                      ghost kept: map<string, StatStreamer.ContainerStatStreamer>,
                      ghost before: set<StatStreamer.ContainerStatStreamer>)
      requires Valid() && i < |list|
      requires containers == Stored(stored, list[..i])
      requires streams.Keys == StreamingNames(list[..i]) + (kept.Keys - Names(list[..i]))
      requires forall k :: k in kept && StreamsThroughout(list[..i], k) ==> k in streams && streams[k] == kept[k]
      requires StoppedUnlessKept(before)
      requires forall o :: o in streams.Values && o !in before ==> Unread(o)
      modifies this`containers, this`streams, StreamerAt(list[i].name)`task
      ensures Valid()
      ensures containers == Stored(stored, list[..i + 1])
      ensures streams.Keys == StreamingNames(list[..i + 1]) + (kept.Keys - Names(list[..i + 1]))
      ensures forall k :: k in kept && StreamsThroughout(list[..i + 1], k) ==>
        StreamsThroughout(list[..i], k) && k in streams && streams[k] == kept[k] && unchanged(streams[k])
      ensures forall o :: o in streams.Values ==> o in old(streams.Values) || fresh(o)
      ensures forall o :: o in streams.Values && o !in before ==> Unread(o)
      ensures StoppedUnlessKept(before)
    {
      assert list[..i + 1][..i] == list[..i];
      StreamingKeysStep(list, i, kept.Keys, streams.Keys);
      ghost var prev := streams;
      Upsert(list[i]);
      KeptAfterUpsert(list, i, kept, prev, streams);
    }

    /** The upsert loop of `get_version_and_container_views`, over the whole listing in order. */
    method UpsertAll(list: seq<Container>)
      requires Valid()
      modifies this`containers, this`streams, streams.Values`task
      ensures Valid()
      ensures containers == Stored(old(containers), list)
      ensures streams.Keys == StreamingNames(list) + (old(streams).Keys - Names(list))
      ensures forall k :: k in old(streams) && StreamsThroughout(list, k) ==>
        k in streams && streams[k] == old(streams[k]) && unchanged(streams[k])
      ensures forall o :: o in streams.Values ==> o in old(streams.Values) || fresh(o)
      ensures forall o :: o in streams.Values && o !in old(streams.Values) ==> Unread(o)
      ensures StoppedUnlessKept(old(streams.Values))
    {
      var i := 0;
      while i < |list|
        invariant 0 <= i <= |list|
        invariant Valid()
        invariant containers == Stored(old(containers), list[..i])
        invariant streams.Keys == StreamingNames(list[..i]) + (old(streams).Keys - Names(list[..i]))
        invariant forall k :: k in old(streams) && StreamsThroughout(list[..i], k) ==>
          k in streams && streams[k] == old(streams[k]) && unchanged(streams[k])
        invariant forall o :: o in streams.Values ==> o in old(streams.Values) || fresh(o)
        invariant forall o :: o in streams.Values && o !in old(streams.Values) ==> Unread(o)
        invariant StoppedUnlessKept(old(streams.Values))
      {
        UpsertNext(list, i, old(containers), old(streams), old(streams.Values));
        i := i + 1;
      }
      assert list[..i] == list;
    }

    /**
     * One turn of the removal loop: `n` moves from the keys still `left` to the removed ones, and
     * every streamer of `before` that is no longer held stays stopped.
     */
    method RemoveNext(n: string, ghost keys: set<string>, ghost left: set<string>, ghost stored: map<string, Entry>,
                      ghost kept: map<string, StatStreamer.ContainerStatStreamer>, ghost before: set<StatStreamer.ContainerStatStreamer>)
      requires Valid() && n in left && left <= keys
      requires containers == Tombstoned(stored, keys - left)
      requires streams.Keys == kept.Keys - (keys - left)
      requires forall k :: k in streams ==> streams[k] == kept[k]
      requires StoppedUnlessKept(before)
      modifies this`containers, this`streams, StreamerAt(n)`task
      ensures Valid()
      ensures containers == Tombstoned(stored, keys - (left - {n}))
      ensures streams.Keys == kept.Keys - (keys - (left - {n}))
      ensures forall k :: k in streams ==> streams[k] == kept[k] && unchanged(streams[k])
      ensures StoppedUnlessKept(before)
    {
      assert (keys - left) + {n} == keys - (left - {n});
      TombstonedStep(stored, keys - left, n);
      Remove(n);
    }

    /** Removes every key of `keys`, in any order. */
    method RemoveAll(keys: set<string>)
      requires Valid()
      modifies this`containers, this`streams, streams.Values`task
      ensures Valid()
      ensures containers == Tombstoned(old(containers), keys)
      ensures streams.Keys == old(streams).Keys - keys
      ensures forall k :: k in streams ==> streams[k] == old(streams[k]) && unchanged(streams[k])
      ensures StoppedUnlessKept(old(streams.Values))
    {
      var left := keys;
      TombstonedNone(containers);
      while left != {}
        invariant Valid()
        invariant left <= keys
        invariant streams.Keys == old(streams).Keys - (keys - left)
        invariant forall k :: k in streams ==> streams[k] == old(streams[k]) && unchanged(streams[k])
        invariant containers == Tombstoned(old(containers), keys - left)
        invariant StoppedUnlessKept(old(streams.Values))
        decreases left
      {
        var n :| n in left;
        RemoveNext(n, keys, left, old(containers), old(streams), old(streams.Values));
        left := left - {n};
      }
    }

    /**
     * The two loops of `get_version_and_container_views`: every record is upserted, then every name
     * that still has a streamer but is not listed is removed.
     */
    method Reconcile(list: seq<Container>)
      requires Valid()
      modifies this`containers, this`streams, streams.Values`task
      ensures Valid()
      ensures streams.Keys == StreamingNames(list)
      ensures containers == Tombstoned(Stored(old(containers), list), old(streams).Keys - Names(list))
      ensures forall k :: k in old(streams) && k in streams && StreamsThroughout(list, k) ==>
        streams[k] == old(streams[k]) && unchanged(streams[k])
      ensures forall o :: o in streams.Values ==> o in old(streams.Values) || fresh(o)
      ensures forall o :: o in streams.Values && o !in old(streams.Values) ==> Unread(o)
      ensures StoppedUnlessKept(old(streams.Values))
    {
      UpsertAll(list);
      ghost var upserted := streams;
      StreamingNamesListed(list);
      var missing := streams.Keys - Names(list);
      assert missing == old(streams).Keys - Names(list);
      assert missing <= containers.Keys;
      ghost var stored := containers;
      RemoveAll(missing);
      assert containers == Tombstoned(stored, old(streams).Keys - Names(list));
      assert streams.Keys == StreamingNames(list);
    }

    /** The view comprehension of `get_version_and_container_views`. */
    method ViewsOf(list: seq<Container>, parse: IsoParser) returns (views: seq<ContainerView>)
      requires Valid()
      modifies streams.Values`oldNetIo, streams.Values`oldDiskIo
      ensures Valid()
      ensures |views| == |list|
      ensures forall k :: 0 <= k < |list| ==> Describes(views[k], list[k])
      ensures UniqueNames(list) ==> forall k :: 0 <= k < |list| && IsStreaming(list[k].status) ==>
        (views[k].active, SnapshotAt(list[k].name)) == ActiveStatsOf(list[k], old(SnapshotAt(list[k].name)), parse)
    {
      views := [];
      var j := 0;
      while j < |list|
        invariant 0 <= j <= |list|
        invariant Valid()
        invariant |views| == j
        invariant forall k :: 0 <= k < j ==> Describes(views[k], list[k])
        invariant UniqueNames(list) ==> forall k :: 0 <= k < j && IsStreaming(list[k].status) ==>
          (views[k].active, SnapshotAt(list[k].name)) == ActiveStatsOf(list[k], old(SnapshotAt(list[k].name)), parse)
        invariant UniqueNames(list) ==> forall k :: j <= k < |list| ==> SnapshotAt(list[k].name) == old(SnapshotAt(list[k].name))
      {
        var v := GenerateContainerView(list[j], parse);
        views := views + [v];
        j := j + 1;
      }
    }

    /**
     * The part of `get_version_and_container_views` after both SDK calls succeeded: the two loops,
     * then one view per record.
     */
    method RefreshViews(list: seq<Container>, parse: IsoParser) returns (views: seq<ContainerView>)
      requires Valid()
      modifies this`containers, this`streams, streams.Values
      ensures Valid()
      ensures |views| == |list|
      ensures forall i :: 0 <= i < |list| ==> Describes(views[i], list[i])
      ensures streams.Keys == StreamingNames(list)
      ensures containers == Tombstoned(Stored(old(containers), list), old(streams).Keys - Names(list))
      ensures forall k :: k in old(streams) && k in streams && StreamsThroughout(list, k) ==>
        streams[k] == old(streams[k]) && streams[k].stats == old(streams[k].stats)
      ensures UniqueNames(list) ==> forall i :: 0 <= i < |list| && IsStreaming(list[i].status) ==>
        var n := list[i].name;
        (views[i].active, SnapshotAt(n)) == ActiveStatsOf(list[i], if n in old(streams) then old(SnapshotAt(n)) else Some(Unstreamed), parse)
      ensures StoppedUnlessKept(old(streams.Values))
    {
      Reconcile(list);
      if UniqueNames(list) {
        ReconciledSnapshots(list);
      }
      views := ViewsOf(list, parse);
    }

    /**
     * `get_version_and_container_views`.  `version` and `listing` are what the SDK returned (`None`
     * where it raised).  Every record is upserted in listing order, every name that still has a
     * streamer but is not listed is removed, and a view is made per record, in listing order.
     */
    method GetVersionAndContainerViews(version: Option<string>, listing: Option<seq<Container>>, parse: IsoParser)
      returns (r: Result<RefreshStats>)
      requires Valid()
      modifies this`containers, this`streams, streams.Values
      ensures Valid()
      ensures !connected ==> r == Err(Raised("Client not Initialized!"))
      ensures connected && version.None? ==> r == Ok(RefreshStats(None, None))
      ensures connected && version.Some? && listing.None? ==> r == Ok(RefreshStats(version, None))
      ensures !connected || version.None? || listing.None? ==>
        containers == old(containers) && streams == old(streams) && forall k :: k in streams ==> unchanged(streams[k])
      ensures connected && version.Some? && listing.Some? ==>
        && r.Ok? && r.value.version == version && r.value.views.Some?
        && |r.value.views.value| == |listing.value|
        && (forall i :: 0 <= i < |listing.value| ==> Describes(r.value.views.value[i], listing.value[i]))
        && streams.Keys == StreamingNames(listing.value)
        && containers == Tombstoned(Stored(old(containers), listing.value), old(streams).Keys - Names(listing.value))
        && (forall k :: k in old(streams) && k in streams && StreamsThroughout(listing.value, k) ==>
              streams[k] == old(streams[k]) && streams[k].stats == old(streams[k].stats))
        && (UniqueNames(listing.value) ==> forall i :: 0 <= i < |listing.value| && IsStreaming(listing.value[i].status) ==>
              var n := listing.value[i].name;
              (r.value.views.value[i].active, SnapshotAt(n))
              == ActiveStatsOf(listing.value[i], if n in old(streams) then old(SnapshotAt(n)) else Some(Unstreamed), parse))
      ensures StoppedUnlessKept(old(streams.Values))
    {
      if !connected {
        return Err(Raised("Client not Initialized!"));
      }
      if version.None? {
        return Ok(RefreshStats(None, None));
      }
      if listing.None? {
        return Ok(RefreshStats(version, None));
      }
      var views := RefreshViews(listing.value, parse);
      r := Ok(RefreshStats(version, Some(views)));
    }

    /** A name that had no streamer holds a fresh one, since every earlier streamer keeps its container. */
    twostate lemma NewStreamerUnread(n: string)
      requires n in streams && n !in old(streams) && streams[n].container.name == n
      requires forall m :: m in old(streams) ==> old(streams[m].container.name) == m
      requires forall m :: m in old(streams) ==> old(streams[m]).container == old(streams[m].container)
      requires forall o :: o in streams.Values && o !in old(streams.Values) ==> Unread(o)
      ensures SnapshotAt(n) == Some(Unstreamed)
    {
      forall m | m in old(streams)
        ensures old(streams[m]) != streams[n]
      {
        assert old(streams[m].container.name) == m;
      }
      assert streams[n] in streams.Values;
    }

    /**
     * After the two loops on a listing with unique names, the streamer of each streaming record holds
     * the snapshot it held before, or `Unstreamed` when the name had no streamer.
     */
    twostate lemma ReconciledSnapshots(list: seq<Container>)
      requires old(Valid()) && Valid() && UniqueNames(list)
      requires streams.Keys == StreamingNames(list)
      requires forall k :: k in old(streams) && k in streams && StreamsThroughout(list, k) ==>
        streams[k] == old(streams[k]) && unchanged(streams[k])
      requires forall o :: o in streams.Values && o !in old(streams.Values) ==> Unread(o)
      requires forall m :: m in old(streams) ==> old(streams[m]).container == old(streams[m].container)
      ensures forall i :: 0 <= i < |list| && IsStreaming(list[i].status) ==>
        SnapshotAt(list[i].name) == if list[i].name in old(streams) then old(SnapshotAt(list[i].name)) else Some(Unstreamed)
    {
      StreamingNamesOfUniqueListing(list);
      forall i | 0 <= i < |list| && IsStreaming(list[i].status)
        ensures SnapshotAt(list[i].name) == if list[i].name in old(streams) then old(SnapshotAt(list[i].name)) else Some(Unstreamed)
      {
        var n := list[i].name;
        assert n in streams;
        if n in old(streams) {
          UniqueStreamsThroughout(list, i);
        } else {
          NewStreamerUnread(n);
        }
      }
    }

    /**
     * `__container_action` through one of the six wrappers: the guards of `ActionGuard`; on `Pass`
     * the action is recorded under its key (its thread then runs `ActionExecutor`).
     */
    method ContainerAction(containerKey: string, action: ActionKind) returns (r: Outcome)
      requires Valid()
      modifies this`pending
      ensures Valid()
      ensures r == ActionGuard(containers, old(pending), containerKey, action)
      ensures r.Pass? ==> pending == old(pending)[ActionKey(containerKey, action) := PendingAction(containerKey, action)]
      ensures r.Fail? ==> pending == old(pending)
    {
      if containerKey !in containers {
        return Fail(Raised("Unknown container!"));
      }
      if !HasAction(containers[containerKey], action) {
        return Fail(Raised("Unknown action_executor!"));
      }
      var key := ActionKey(containerKey, action);
      if key in pending {
        return Fail(Raised("Another action_executor in progress!"));
      }
      pending := pending[key := PendingAction(containerKey, action)];
      r := Pass;
    }

    /**
     * `__action_executor` after the action returned or raised (either way the exception is only
     * logged): the key is dropped from the action map; dropping a key that is not there raises.
     */
    method ActionExecutor(key: string) returns (r: Outcome)
      requires Valid()
      modifies this`pending
      ensures Valid()
      ensures pending == old(pending) - {key}
      ensures r == if key in old(pending) then Pass else Fail(KeyError)
    {
      if key !in pending {
        return Fail(KeyError);
      }
      pending := pending - {key};
      r := Pass;
    }

    /**
     * `disconnect`: without a client the call to `close` raises AttributeError; otherwise every key
     * of the container map is removed, which tombstones every entry and stops every streamer.
     */
    method Disconnect() returns (r: Outcome)
      requires Valid()
      modifies this`containers, this`streams, streams.Values
      ensures Valid()
      ensures !old(connected) ==> r == Fail(AttributeError) && containers == old(containers) && streams == old(streams)
      ensures old(connected) ==> r == Pass && containers == Tombstoned(old(containers), old(containers).Keys) && streams == map[]
      ensures StoppedUnlessKept(old(streams.Values))
    {
      if !connected {
        return Fail(AttributeError);
      }
      RemoveAll(containers.Keys);
      assert streams.Keys == {};
      r := Pass;
    }
  }
}
