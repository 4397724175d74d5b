/**
 * The earlier daemon client (`cDock/docker_daemon_client.py`).  It keeps a single map, from
 * container id to stats streamer, with a streamer for every listed container whatever its status.
 * A streamer keeps the container record it was created with; actions go to that record directly,
 * without any bookkeeping of their own.
 */
module LegacyDaemonClient {
  import opened Wrappers
  import opened DockerApi
  import LegacyStatStreamer

  /** The ids of a listing. */
  function Ids(listing: seq<Container>): set<string> {
    if listing == [] then {} else Ids(listing[..|listing| - 1]) + {listing[|listing| - 1].id}
  }

  /** One more record extends the tracked ids by its id, which may already be among them. */
  lemma IdsStep(listing: seq<Container>, i: nat, before: set<string>, keys: set<string>)
    requires i < |listing|
    requires keys == before + Ids(listing[..i])
    ensures keys + {listing[i].id} == before + Ids(listing[..i + 1])
    ensures listing[i].id in keys ==> keys == before + Ids(listing[..i + 1])
  {
    assert listing[..i + 1][..i] == listing[..i];
  }

  lemma {:induction false} IdsListed(listing: seq<Container>)
    ensures forall k :: k in Ids(listing) <==> exists i :: 0 <= i < |listing| && listing[i].id == k
  {
    if listing != [] {
      var init := listing[..|listing| - 1];
      IdsListed(init);
      forall k | k in Ids(listing)
        ensures exists i :: 0 <= i < |listing| && listing[i].id == k
      {
        if k in Ids(init) {
          var i :| 0 <= i < |init| && init[i].id == k;
          assert listing[i] == init[i];
        } else {
          assert listing[|listing| - 1].id == k;
        }
      }
      forall k | exists i :: 0 <= i < |listing| && listing[i].id == k
        ensures k in Ids(listing)
      {
        var i :| 0 <= i < |listing| && listing[i].id == k;
        if i < |listing| - 1 {
          assert init[i] == listing[i];
        }
      }
    }
  }

  /** A view of `cDock/models.py`, restricted to the fields this model fills. */
  datatype ContainerView = ContainerView(
    name: string, id: string, status: string, image: string, createdAt: string,
    command: seq<string>, startedAt: Option<string>, ports: Option<seq<string>>)

  /**
   * The view `update` builds for one container.  Every view starts with an empty command; for a
   * running or paused container `StartedAt`, `ExposedPorts` and the command are read, and a missing
   * `StartedAt` or `Config` raises KeyError, which nothing catches.
   */
  function View(c: Container): (r: Result<ContainerView>)
    ensures r.Err? <==> IsStreaming(c.status) && (c.startedAt.None? || c.config.None?)
    ensures r.Err? ==> r.error == KeyError
    ensures r.Ok? ==>
      var v := r.value;
      && v.name == c.name && v.id == c.id && v.status == c.status && v.image == c.image && v.createdAt == c.createdAt
      && (!IsStreaming(c.status) ==> v.command == [] && v.startedAt.None? && v.ports.None?)
      && (IsStreaming(c.status) ==>
           && v.startedAt == c.startedAt
           && v.ports == Some(c.config.value.exposedPorts.GetOr([]))
           && v.command == c.config.value.entrypoint.GetOr([]) + c.config.value.cmd.GetOr([]))
  {
    var base := ContainerView(c.name, c.id, c.status, c.image, c.createdAt, [], None, None);
    if !IsStreaming(c.status) then Ok(base)
    else if c.startedAt.None? || c.config.None? then Err(KeyError)
    else Ok(base.(startedAt := c.startedAt, ports := Some(c.config.value.exposedPorts.GetOr([])), command := Command(c.config.value)))
  }

  /**
   * The insert loop of `update` as written: the streamer constructor is handed the event loop as
   * a second argument, which its one-parameter signature refuses, so the first untracked id of the
   * listing ends the call with TypeError.
   */
  function InsertAsWritten(tracked: set<string>, list: seq<Container>): (r: Outcome)
    ensures r.Fail? <==> exists i :: 0 <= i < |list| && list[i].id !in tracked
    ensures r.Fail? ==> r.error == TypeError
  {
    if list == [] then Pass
    else if list[0].id !in tracked then Fail(TypeError)
    else
      var rest := InsertAsWritten(tracked, list[1..]);
      assert forall i :: 1 <= i < |list| ==> list[i] == list[1..][i - 1];
      rest
  }

  /**
   * The view of one container as written: for a running or paused container `StartedAt` is read
   * (KeyError when missing) and then `get_cpu_stats` is called, which the earlier streamer does
   * not define, so AttributeError escapes.
   */
  function ViewAsWritten(c: Container): (r: Result<ContainerView>)
    ensures r.Err? <==> IsStreaming(c.status)
    ensures r.Err? ==> r.error == if c.startedAt.None? then KeyError else AttributeError
    ensures r.Ok? ==> r == View(c)
  {
    if !IsStreaming(c.status) then View(c)
    else if c.startedAt.None? then Err(KeyError)
    else Err(AttributeError)
  }

  /**
   * A running container that the intended view shows: as written, a first listing holding it fails
   * at the streamer constructor, and a listing whose id is already tracked fails at its view.
   */
  lemma RunningContainerNeverShownAsWritten(c: Container)
    requires IsStreaming(c.status) && c.startedAt.Some? && c.config.Some?
    ensures View(c).Ok?
    ensures InsertAsWritten({}, [c]) == Fail(TypeError)
    ensures ViewAsWritten(c) == Err(AttributeError)
  {
    assert [c][0].id !in {};
  }

  /** What a successful `update` returns. */
  datatype UpdateStats = UpdateStats(version: string, containers: seq<ContainerView>)

  class DockerDaemonClient {
    var connected: bool
    var streams: map<string, LegacyStatStreamer.ContainerStatStreamer>

    /** Every streamer is streaming, holds a container with its key as id, and is not shared. */
    ghost predicate Valid()
      reads this, streams.Values
    {
      && (forall k :: k in streams ==> streams[k].streaming && streams[k].container.id == k)
      && (forall k, l :: k in streams && l in streams && k != l ==> streams[k] != streams[l])
    }

    function StreamerAt(id: string): set<LegacyStatStreamer.ContainerStatStreamer>
      reads this
    {
      if id in streams then {streams[id]} else {}
    }

    constructor ()
      ensures Valid()
      ensures !connected && streams == map[]
    {
      connected := false;
      streams := map[];
    }

    /** `connect`: refused once a client exists; `succeeds` is whether the SDK client could be created. */
    method Connect(succeeds: bool) returns (r: Outcome)
      modifies this`connected
      ensures old(connected) ==> r == Fail(Raised("DockerDaemonClient - Already connection to a daemon")) && connected
      ensures !old(connected) ==> r == Pass && connected == succeeds
    {
      if connected {
        return Fail(Raised("DockerDaemonClient - Already connection to a daemon"));
      }
      connected := succeeds;
      r := Pass;
    }

    /** `__remove_container`: pops and stops the id's streamer; an untracked id changes nothing. */
    method Remove(id: string)
      requires Valid()
      modifies this`streams, StreamerAt(id)`streaming
      ensures Valid()
      ensures streams == old(streams) - {id}
      ensures id in old(streams) ==> !old(streams[id]).streaming
    {
      if id in streams {
        var s := streams[id];
        streams := streams - {id};
        s.StopStream();
      }
    }

    /** One step of the insert loop of `update`: a new streamer for an id that has none. */
    method Track(c: Container)
      requires Valid()
      modifies this`streams
      ensures Valid()
      ensures streams.Keys == old(streams).Keys + {c.id}
      ensures forall k :: k in old(streams) ==> streams[k] == old(streams[k])
      ensures forall k :: k in streams && k !in old(streams) ==> k == c.id && fresh(streams[k]) && streams[k].container == c
    {
      if c.id !in streams {
        var s := new LegacyStatStreamer.ContainerStatStreamer(c);
        assert forall k :: k in streams ==> streams[k] != s;
        streams := streams[c.id := s];
      }
    }

    /** The insert loop of `update`: a streamer for every listed id that has none. */
    method InsertAll(list: seq<Container>)
      requires Valid()
      modifies this`streams
      ensures Valid()
      ensures streams.Keys == old(streams).Keys + Ids(list)
      ensures forall k :: k in old(streams) ==> streams[k] == old(streams[k])
      ensures forall k :: k in streams && k !in old(streams) ==> fresh(streams[k]) && streams[k].container in list
    {
      var i := 0;
      while i < |list|
        invariant 0 <= i <= |list|
        invariant Valid()
        invariant streams.Keys == old(streams).Keys + Ids(list[..i])
        invariant forall k :: k in old(streams) ==> streams[k] == old(streams[k])
        invariant forall k :: k in streams && k !in old(streams) ==> fresh(streams[k]) && streams[k].container in list[..i]
      {
        IdsStep(list, i, old(streams).Keys, streams.Keys);
        Track(list[i]);
        i := i + 1;
      }
      assert list[..i] == list;
    }

    /** The removal loop of `update`, over a set of tracked ids in any order. */
    method RemoveAll(ids: set<string>)
      requires Valid()
      requires ids <= streams.Keys
      modifies this`streams, streams.Values`streaming
      ensures Valid()
      ensures streams.Keys == old(streams).Keys - ids
      ensures forall k :: k in streams ==> streams[k] == old(streams[k])
      ensures forall k :: k in ids ==> !old(streams[k]).streaming
    {
      var left := ids;
      while left != {}
        invariant Valid()
        invariant left <= ids
        invariant left <= streams.Keys
        invariant streams.Keys == old(streams).Keys - (ids - left)
        invariant forall k :: k in streams ==> streams[k] == old(streams[k])
        invariant forall k :: k in ids - left ==> !old(streams[k]).streaming
        decreases left
      {
        var n :| n in left;
        Remove(n);
        forall k | k in ids - (left - {n})
          ensures !old(streams[k]).streaming
        {
          if k != n {
            assert old(streams[k]) != old(streams[n]);
          }
        }
        left := left - {n};
      }
    }

    /** The two loops of `update`: afterwards the tracked ids are exactly the listed ones. */
    method Reconcile(list: seq<Container>)
      requires Valid()
      modifies this`streams, streams.Values`streaming
      ensures Valid()
      ensures streams.Keys == Ids(list)
      ensures forall k :: k in old(streams) && k in streams ==> streams[k] == old(streams[k])
      ensures forall k :: k in streams && k !in old(streams) ==> fresh(streams[k]) && streams[k].container in list
      ensures forall k :: k in old(streams) && k !in streams ==> !old(streams[k]).streaming
    {
      InsertAll(list);
      ghost var inserted := streams;
      var absent := streams.Keys - Ids(list);
      assert absent == old(streams).Keys - Ids(list);
      RemoveAll(absent);
      assert forall k :: k in old(streams) && k !in streams ==> k in absent && inserted[k] == old(streams[k]);
    }

    /**
     * `update`.  `version` and `listing` are what the SDK returned (`None` where it raised).  After
     * the two loops the tracked ids are exactly the listed ones; then a view is made per record, in
     * listing order, and the first view that raises ends the call with the maps already updated.
     */
    method Update(version: Option<string>, listing: Option<seq<Container>>) returns (r: Result<Option<UpdateStats>>)
      requires Valid()
      modifies this`streams, streams.Values`streaming
      ensures Valid()
      ensures connected == old(connected)
      ensures !connected ==> r == Err(Raised("Client not Initialized!")) && streams == old(streams)
      ensures connected && (version.None? || listing.None?) ==> r == Ok(None) && streams == old(streams)
      ensures connected && listing.Some? && version.Some? ==> streams.Keys == Ids(listing.value)
      ensures forall k :: k in old(streams) && k in streams ==> streams[k] == old(streams[k])
      ensures forall k :: k in streams && k !in old(streams) ==> fresh(streams[k]) && listing.Some? && streams[k].container in listing.value
      ensures forall k :: k in old(streams) && k !in streams ==> !old(streams[k]).streaming
      ensures connected && listing.Some? && version.Some? ==>
        (r.Err? <==> exists i :: 0 <= i < |listing.value| && View(listing.value[i]).Err?)
      ensures connected && r.Err? ==> r.error == KeyError
      ensures connected && listing.Some? && version.Some? && r.Ok? ==>
        && r.value.Some? && r.value.value.version == version.value
        && |r.value.value.containers| == |listing.value|
        && forall i :: 0 <= i < |listing.value| ==> View(listing.value[i]) == Ok(r.value.value.containers[i])
    {
      if !connected {
        return Err(Raised("Client not Initialized!"));
      }
      if version.None? || listing.None? {
        return Ok(None);
      }
      var list := listing.value;
      Reconcile(list);
      var views := Views(list);
      if views.Err? {
        return Err(views.error);
      }
      r := Ok(Some(UpdateStats(version.value, views.value)));
    }

    /** The view loop of `update`: the first view that raises ends it. */
    static method Views(list: seq<Container>) returns (r: Result<seq<ContainerView>>)
      ensures r.Err? <==> exists i :: 0 <= i < |list| && View(list[i]).Err?
      ensures r.Err? ==> r.error == KeyError
      ensures r.Ok? ==> |r.value| == |list| && forall i :: 0 <= i < |list| ==> View(list[i]) == Ok(r.value[i])
    {
      var views := [];
      var i := 0;
      while i < |list|
        invariant 0 <= i <= |list|
        invariant |views| == i
        invariant forall j :: 0 <= j < i ==> View(list[j]) == Ok(views[j])
      {
        var v := View(list[i]);
        if v.Err? {
          return Err(v.error);
        }
        views := views + [v.value];
        i := i + 1;
      }
      r := Ok(views);
    }

    /**
     * The guard shared by `start`, `restart`, `stop` and `kill`: an untracked id raises; otherwise
     * the action goes to the container record the id's streamer was created with.
     */
    function ActionTarget(id: string): (r: Result<Container>)
      requires Valid()
      reads this, streams.Values
      ensures r.Err? <==> id !in streams
      ensures r.Err? ==> r.error == Raised("unknown container")
      ensures r.Ok? ==> r.value == streams[id].container && r.value.id == id
    {
      if id !in streams then Err(Raised("unknown container")) else Ok(streams[id].container)
    }
  }
}
