/**
 * The standalone terminal app (`cDock/outputs/rich_stdout.py`): the selected row of the container
 * table, kept across refreshes by container id, and the keys that move it, shut the app down or
 * send a container action to the daemon client.
 */
module RichStdout {
  import opened Wrappers
  import opened DockerApi
  import DaemonClient

  type View = DaemonClient.ContainerView

  /** `max(n, 1)`. */
  function AtLeastOne(n: nat): (m: nat)
    ensures m >= 1 && m >= n
  {
    if n > 1 then n else 1
  }

  /** What a key press asks of the rest of the program. */
  datatype Effect =
    | NoEffect
      /** The client's action method was called with this key; what it raises is printed. */
    | Action(containerKey: string, action: DaemonClient.ActionKind)
      /** The screen was stopped and the client disconnected. */
    | Stopped

  /** The six client methods `container_action` allows, by name. */
  const ActionNames: seq<string> := ["start", "stop", "restart", "kill", "pause", "resume"]

  /** `getattr(self.client, action_name)` for an allowed name. */
  function ActionNamed(name: string): (a: Option<DaemonClient.ActionKind>)
    ensures a.Some? <==> name in ActionNames
    ensures a.Some? ==> a.value.Name() == name
  {
    if name == "start" then Some(DaemonClient.Start)
    else if name == "stop" then Some(DaemonClient.Stop)
    else if name == "restart" then Some(DaemonClient.Restart)
    else if name == "kill" then Some(DaemonClient.Kill)
    else if name == "pause" then Some(DaemonClient.Pause)
    else if name == "resume" then Some(DaemonClient.Resume)
    else None
  }

  /** `get_row_key`: nothing when the table is empty, otherwise the selected view's id. */
  function RowKey(views: seq<View>, rowIndex: int): (k: string)
    requires 0 <= rowIndex < AtLeastOne(|views|)
    ensures views == [] ==> k == ""
    ensures views != [] ==> k == views[rowIndex].id
  {
    if views == [] then "" else views[rowIndex].id
  }

  /**
   * `container_action` as written: no call without a key or outside the allowlist, otherwise the
   * allowed method with the selected view's id.
   */
  function ActionRequestAsWritten(views: seq<View>, rowIndex: int, actionName: string): (e: Effect)
    requires 0 <= rowIndex < AtLeastOne(|views|)
    ensures e.Action? <==> RowKey(views, rowIndex) != "" && actionName in ActionNames
    ensures e.Action? ==> e.containerKey == views[rowIndex].id && e.action.Name() == actionName
    ensures !e.Action? ==> e == NoEffect
  {
    var key := RowKey(views, rowIndex);
    var action := ActionNamed(actionName);
    if key == "" || action.None? then NoEffect else Action(key, action.value)
  }

  /**
   * `container_action` as intended: the same guards, but the selected container is named to the
   * client by the key the client files it under, its name.
   */
  function ActionRequest(views: seq<View>, rowIndex: int, actionName: string): (e: Effect)
    requires 0 <= rowIndex < AtLeastOne(|views|)
    ensures e.Action? <==> views != [] && views[rowIndex].name != "" && actionName in ActionNames
    ensures e.Action? ==> e.containerKey == views[rowIndex].name && e.action.Name() == actionName
    ensures !e.Action? ==> e == NoEffect
  {
    var key := if views == [] then "" else views[rowIndex].name;
    var action := ActionNamed(actionName);
    if key == "" || action.None? then NoEffect else Action(key, action.value)
  }

  /** A running container "web" with id "f00" and a `start` method. */
  const Web := Container("web", "f00", "running", "nginx", "2024-01-01T00:00:00", Some("2024-01-01T00:00:00"), None, {"start"})

  /**
   * As written, pressing '1' on the only row sends the id "f00", which the client does not know:
   * the action is refused as an unknown container although the container is there and can start.
   */
  lemma ActionByIdRejected()
    ensures var views := [DaemonClient.ContainerView("web", "f00", "running", "nginx", Web.createdAt, DaemonClient.NoActiveStats)];
      var e := ActionRequestAsWritten(views, 0, "start");
      && e == Action("f00", DaemonClient.Start)
      && DaemonClient.HasAction(DaemonClient.Live(Web), DaemonClient.Start)
      && DaemonClient.ActionGuard(map["web" := DaemonClient.Live(Web)], map[], e.containerKey, e.action) == Fail(Raised("Unknown container!"))
  {
  }

  /**
   * With the name as key, a selected row that describes a container the client holds, which has
   * the method and has no such action already in progress, gets the action started.
   */
  lemma CorrectedActionReachesClient(
    containers: map<string, DaemonClient.Entry>, pending: map<string, DaemonClient.PendingAction>,
    views: seq<View>, rowIndex: int, actionName: string, c: Container)
    requires 0 <= rowIndex < |views| && DaemonClient.Describes(views[rowIndex], c) && c.name != ""
    requires c.name in containers && containers[c.name] == DaemonClient.Live(c)
    requires actionName in ActionNames && actionName in c.attributes
    requires forall a :: DaemonClient.ActionKey(c.name, a) !in pending
    ensures ActionRequest(views, rowIndex, actionName).Action?
    ensures var e := ActionRequest(views, rowIndex, actionName);
      DaemonClient.ActionGuard(containers, pending, e.containerKey, e.action) == Pass
  {
    var e := ActionRequest(views, rowIndex, actionName);
    assert e.containerKey == c.name;
    assert DaemonClient.ActionKey(c.name, e.action) !in pending;
  }

  /**
   * `r` is where `update_stats` puts the selection: the first row whose id is `key`, or the top
   * row when no row has it.
   */
  predicate SelectionKept(key: string, views: seq<View>, r: int) {
    && 0 <= r < AtLeastOne(|views|)
    && ((exists j :: 0 <= j < |views| && views[j].id == key) ==> views[r].id == key && forall j :: 0 <= j < r ==> views[j].id != key)
    && (!(exists j :: 0 <= j < |views| && views[j].id == key) ==> r == 0)
  }

  class App {
    var rowIndex: int
    var changed: bool
    var containerViews: seq<View>
    var isRunning: bool

    /** The selection is a row of the table, or row 0 of an empty one. */
    predicate Valid()
      reads this
    {
      0 <= rowIndex < AtLeastOne(|containerViews|)
    }

    constructor ()
      ensures Valid()
      ensures rowIndex == 0 && changed && containerViews == [] && isRunning
    {
      rowIndex := 0;
      changed := true;
      containerViews := [];
      isRunning := true;
    }

    /** `get_row_key`. */
    function GetRowKey(): (k: string)
      requires Valid()
      reads this
      ensures containerViews == [] ==> k == ""
      ensures containerViews != [] ==> k == containerViews[rowIndex].id
    {
      RowKey(containerViews, rowIndex)
    }

    /**
     * `_update_row_index`: the index (the current one when none is given) wrapped into the table,
     * whose size counts as at least 1; Python's `%` by a positive number is Dafny's.  The screen
     * is marked as changed.
     */
    method UpdateRowIndex(index: Option<int>)
      modifies this`rowIndex, this`changed
      ensures Valid()
      ensures rowIndex == index.GetOr(old(rowIndex)) % AtLeastOne(|containerViews|)
      ensures changed
    {
      var i := if index.None? then rowIndex else index.value;
      rowIndex := i % AtLeastOne(|containerViews|);
      changed := true;
    }

    /**
     * `update_stats`, given the `container_views` entry of the client's answer (`None` when the
     * refresh failed and the entry is missing, which raises KeyError before anything changes).
     * Otherwise the new views replace the old ones and the selection follows the selected id.
     */
    method UpdateStats(views: Option<seq<View>>) returns (r: Outcome)
      requires Valid()
      modifies this`rowIndex, this`containerViews
      ensures Valid()
      ensures views.None? ==> r == Fail(KeyError) && rowIndex == old(rowIndex) && containerViews == old(containerViews)
      ensures views.Some? ==> r == Pass && containerViews == views.value
      ensures views.Some? ==> SelectionKept(old(RowKey(containerViews, rowIndex)), views.value, rowIndex)
    {
      var key := GetRowKey();
      if views.None? {
        return Fail(KeyError);
      }
      containerViews := views.value;
      rowIndex := 0;
      var i := 0;
      while i < |containerViews|
        invariant 0 <= i <= |containerViews|
        invariant rowIndex == 0
        invariant forall j :: 0 <= j < i ==> containerViews[j].id != key
      {
        if containerViews[i].id == key {
          rowIndex := i;
          break;
        }
        i := i + 1;
      }
      r := Pass;
    }

    /** `shutdown`: only the first call stops the screen and the client. */
    method Shutdown() returns (e: Effect)
      modifies this`isRunning
      ensures !isRunning
      ensures e == if old(isRunning) then Stopped else NoEffect
    {
      e := NoEffect;
      if isRunning {
        isRunning := false;
        e := Stopped;
      }
    }

    /**
     * `handle_key_stroke`: 'w' and 's' move the selection up and down, wrapping around; 'q' shuts
     * down; '1' to '6' ask for start, stop, restart, kill, pause and resume on the selected row;
     * any other key does nothing.
     */
    method HandleKeyStroke(key: char) returns (e: Effect)
      requires Valid()
      modifies this`rowIndex, this`changed, this`isRunning
      ensures Valid()
      ensures key == 'w' ==> rowIndex == (old(rowIndex) - 1) % AtLeastOne(|containerViews|) && changed && e == NoEffect
      ensures key == 's' ==> rowIndex == (old(rowIndex) + 1) % AtLeastOne(|containerViews|) && changed && e == NoEffect
      ensures key == 'q' ==> !isRunning && e == (if old(isRunning) then Stopped else NoEffect)
      ensures key in "123456" ==> e == ActionRequest(containerViews, rowIndex, ActionNames[key as int - '1' as int])
      ensures key !in "ws" ==> rowIndex == old(rowIndex) && changed == old(changed)
      ensures key != 'q' ==> isRunning == old(isRunning)
      ensures key !in "wsq123456" ==> e == NoEffect
    {
      e := NoEffect;
      if key == 'w' {
        UpdateRowIndex(Some(rowIndex - 1));
      } else if key == 's' {
        UpdateRowIndex(Some(rowIndex + 1));
      } else if key == 'q' {
        e := Shutdown();
      } else if key == '1' {
        e := ActionRequest(containerViews, rowIndex, "start");
      } else if key == '2' {
        e := ActionRequest(containerViews, rowIndex, "stop");
      } else if key == '3' {
        e := ActionRequest(containerViews, rowIndex, "restart");
      } else if key == '4' {
        e := ActionRequest(containerViews, rowIndex, "kill");
      } else if key == '5' {
        e := ActionRequest(containerViews, rowIndex, "pause");
      } else if key == '6' {
        e := ActionRequest(containerViews, rowIndex, "resume");
      }
    }
  }

  /** Moving up from the top row of a non-empty table selects the last row. */
  lemma UpWrapsToLastRow(n: nat)
    requires n > 0
    ensures (0 - 1) % AtLeastOne(n) == n - 1
  {
  }

  /** Moving down from the last row selects the top row again. */
  lemma DownWrapsToTopRow(n: nat)
    requires n > 0
    ensures (n - 1 + 1) % AtLeastOne(n) == 0
  {
  }
}
