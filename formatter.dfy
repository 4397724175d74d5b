/**
 * The table formatter (`cDock/formatter.py`): the header row, one row of cells per container view,
 * the binary-unit rendering of byte counts, and the status style.
 */
module Formatter {
  import opened Wrappers
  import opened HumanUnits
  import StatStreamer
  import DockerApi

  // ---------------------------------------------------------------- units

  /** The unit table of `_auto_unit`, largest first. */
  const UnitTable: seq<(nat, char)> := [
    (1208925819614629174706176, 'Y'),
    (1180591620717411303424, 'Z'),
    (1152921504606846976, 'E'),
    (1125899906842624, 'P'),
    (1099511627776, 'T'),
    (1073741824, 'G'),
    (1048576, 'M'),
    (1024, 'K')]

  /** Entry `k` of the table is 1024 to the power `8 - k`, with that power's symbol. */
  lemma UnitTableIsPowers()
    ensures |UnitTable| == 8
    ensures forall k :: 0 <= k < 8 ==> UnitTable[k].0 == Pow1024(8 - k) && UnitTable[k].1 == Symbols[7 - k]
  {
    assert Pow1024(1) == 1024;
    assert Pow1024(2) == 1048576;
    assert Pow1024(3) == 1073741824;
    assert Pow1024(4) == 1099511627776;
    assert Pow1024(5) == 1125899906842624;
    assert Pow1024(6) == 1152921504606846976;
    assert Pow1024(7) == 1180591620717411303424;
    assert Pow1024(8) == 1208925819614629174706176;
  }

  /** The loop of `_auto_unit`: the first entry from `i` on that the number is more than one of. */
  function FirstAbove(number: real, i: nat): (k: Option<nat>)
    requires i <= |UnitTable|
    ensures k.Some? ==> i <= k.value < |UnitTable| && number / UnitTable[k.value].0 as real > 1.0
    ensures k.Some? ==> forall j :: i <= j < k.value ==> number / UnitTable[j].0 as real <= 1.0
    ensures k.None? ==> forall j :: i <= j < |UnitTable| ==> number / UnitTable[j].0 as real <= 1.0
    decreases |UnitTable| - i
  {
    if i == |UnitTable| then None
    else if number / UnitTable[i].0 as real > 1.0 then Some(i)
    else FirstAbove(number, i + 1)
  }

  /** `number / unit > 1` against every table entry. */
  lemma AboveEveryUnit(number: real)
    ensures forall k :: 0 <= k < |UnitTable| ==> (number / UnitTable[k].0 as real > 1.0 <==> number > UnitTable[k].0 as real)
  {
    forall k | 0 <= k < |UnitTable|
      ensures number / UnitTable[k].0 as real > 1.0 <==> number > UnitTable[k].0 as real
    {
      OverOne(number, UnitTable[k].0 as real);
    }
  }

  /**
   * `_auto_unit`.  Nothing renders as '-'; a number not above 1024 is shown as it is; otherwise it
   * is shown over the largest power of 1024 strictly below it, with two decimals under 10, one
   * under 100 and none from there on, and never any for 'K'.
   */
  function AutoUnit(number: Option<real>): (r: Rendered)
    ensures r == Dash <==> number.None?
    ensures r.Plain? <==> number.Some? && number.value <= 1024.0
    ensures r.Plain? ==> r.number == number.value
    ensures r.Scaled? ==> number.Some?
    ensures r.Scaled? ==> exists e :: ScaledBy(number.value, e, r)
    ensures r.Scaled? ==> r.precision == if r.suffix == 'K' then 0 else BasePrecision(r.value)
  {
    if number.None? then Dash
    else
      var n := number.value;
      UnitTableIsPowers();
      AboveEveryUnit(n);
      match FirstAbove(n, 0)
      case None => Plain(n)
      case Some(k) =>
        var unit := UnitTable[k].0;
        var suffix := UnitTable[k].1;
        var value := n / unit as real;
        var precision := if suffix == 'K' then 0 else BasePrecision(value);
        var e := 7 - k;
        assert suffix == Symbols[e] && unit == Pow1024(e + 1);
        assert e < 7 ==> n <= Pow1024(e + 2) as real by {
          if e < 7 {
            assert UnitTable[k - 1].0 == Pow1024(e + 2);
          }
        }
        assert ScaledBy(n, e, Scaled(value, precision, suffix));
        Scaled(value, precision, suffix)
  }

  /** Exactly 1024 MiB is 1024 'M', not 1 'G': the comparison is strict. */
  lemma GibibyteStaysInMebibytes()
    ensures AutoUnit(Some(1073741824.0)) == Scaled(1024.0, 0, 'M')
  {
    assert FirstAbove(1073741824.0, 0) == Some(6) by {
      assert FirstAbove(1073741824.0, 5) == Some(6);
    }
  }

  // ---------------------------------------------------------------- header and rows

  /** `header_map`: attribute name to column title. */
  const HeaderMap: map<string, string> := map[
    "name" := "Name", "id" := "Id", "status" := "Status", "image" := "Tag",
    "cpu" := "CPU%", "mem_usage" := "MEM", "mem_limit" := "MAX",
    "rx/s" := "Rx/s", "tx/s" := "Tx/s", "ior/s" := "IOR/s", "iow/s" := "IOW/s",
    "created" := "Created", "started" := "Started", "ports" := "Ports", "command" := "Command"]

  /** `SHA_512_ID_PICK_SIZE`. */
  const IdPickSize := 12

  /** `get_header_row`: the title of every known priority attribute, in priority order. */
  function HeaderRow(priority: seq<string>): (r: seq<string>)
    ensures |r| <= |priority|
    ensures (forall i :: 0 <= i < |priority| ==> priority[i] in HeaderMap) ==>
      |r| == |priority| && forall i :: 0 <= i < |priority| ==> r[i] == HeaderMap[priority[i]]
    ensures forall t :: t in r ==> exists i :: 0 <= i < |priority| && priority[i] in HeaderMap && HeaderMap[priority[i]] == t
  {
    if priority == [] then []
    else
      var rest := HeaderRow(priority[1..]);
      assert forall t :: t in rest ==> exists i :: 0 <= i < |priority| && priority[i] in HeaderMap && HeaderMap[priority[i]] == t by {
        forall t | t in rest
          ensures exists i :: 0 <= i < |priority| && priority[i] in HeaderMap && HeaderMap[priority[i]] == t
        {
          var i :| 0 <= i < |priority[1..]| && priority[1..][i] in HeaderMap && HeaderMap[priority[1..][i]] == t;
          assert priority[i + 1] == priority[1..][i];
        }
      }
      if priority[0] in HeaderMap then [HeaderMap[priority[0]]] + rest else rest
  }

  /** The filter keeps the order of the attribute list: the titles of a concatenation concatenate. */
  lemma {:induction false} HeaderRowAppend(a: seq<string>, b: seq<string>)
    ensures HeaderRow(a + b) == HeaderRow(a) + HeaderRow(b)
  {
    if a == [] {
      assert a + b == b;
    } else {
      assert (a + b)[0] == a[0];
      assert (a + b)[1..] == a[1..] + b;
      HeaderRowAppend(a[1..], b);
    }
  }

  /** An unknown attribute adds no title. */
  lemma UnknownAttributeHasNoTitle(priority: seq<string>, attr: string)
    requires attr !in HeaderMap
    ensures HeaderRow(priority + [attr]) == HeaderRow(priority)
  {
    HeaderRowAppend(priority, [attr]);
    assert [attr][1..] == [];
  }

  /** The fields of a container view that the row builder reads. */
  datatype RowView = RowView(
    name: string, id: string, status: string, image: string,
    cpuStats: Option<StatStreamer.CpuStats>,
    memoryStats: Option<StatStreamer.MemoryStats>,
    netIoStats: Option<StatStreamer.NetIoStats>,
    diskIoStats: Option<StatStreamer.DiskIoStats>,
    publishedPorts: seq<string>,
    command: seq<string>)

  /** One cell: text as it is, a number printed with two decimals, or a unit rendering. */
  datatype Cell = Text(text: string) | Fixed2(number: real) | Human(rendered: Rendered)

  /** `sep.join(parts)`. */
  function Join(parts: seq<string>, sep: string): string {
    if parts == [] then "" else if |parts| == 1 then parts[0] else parts[0] + sep + Join(parts[1..], sep)
  }

  function AsReal(n: Option<int>): Option<real> {
    if n.Some? then Some(n.value as real) else None
  }

  /** Unit rendering of a field of an optional stats record, '-' when the record is missing. */
  function StatCell<S>(stats: Option<S>, field: S -> Option<int>): Cell {
    if stats.Some? then Human(AutoUnit(AsReal(field(stats.value)))) else Text("-")
  }

  /** The `values` dictionary of `get_container_row`; `None` is a key it does not have. */
  function CellOf(view: RowView, attr: string): (c: Option<Cell>)
    ensures c.Some? <==> attr in HeaderMap
    ensures attr == "id" ==> c == Some(Text(DockerApi.Prefix(view.id, IdPickSize))) && |c.value.text| <= IdPickSize && c.value.text <= view.id
    ensures attr == "cpu" ==> c == if view.cpuStats.Some? then Some(Fixed2(view.cpuStats.value.usage)) else Some(Text("-"))
    ensures attr in {"mem_usage", "mem_limit"} && view.memoryStats.None? ==> c == Some(Text("-"))
    ensures attr in {"rx/s", "tx/s"} && view.netIoStats.None? ==> c == Some(Text("-"))
    ensures attr in {"ior/s", "iow/s"} && view.diskIoStats.None? ==> c == Some(Text("-"))
    ensures attr == "command" ==> c == Some(Text(if |view.command| > 0 then view.command[0] else ""))
    ensures attr == "ports" ==> c == Some(Text(Join(view.publishedPorts, ", ")))
  {
    if attr == "name" then Some(Text(view.name))
    else if attr == "id" then Some(Text(DockerApi.Prefix(view.id, IdPickSize)))
    else if attr == "status" then Some(Text(view.status))
    else if attr == "image" then Some(Text(view.image))
    else if attr == "cpu" then Some(if view.cpuStats.Some? then Fixed2(view.cpuStats.value.usage) else Text("-"))
    else if attr == "mem_usage" then Some(StatCell(view.memoryStats, (m: StatStreamer.MemoryStats) => m.usage))
    else if attr == "mem_limit" then Some(StatCell(view.memoryStats, (m: StatStreamer.MemoryStats) => m.limit))
    else if attr == "rx/s" then Some(StatCell(view.netIoStats, (s: StatStreamer.NetIoStats) => s.rx))
    else if attr == "tx/s" then Some(StatCell(view.netIoStats, (s: StatStreamer.NetIoStats) => s.tx))
    else if attr == "ior/s" then Some(StatCell(view.diskIoStats, (s: StatStreamer.DiskIoStats) => s.ior))
    else if attr == "iow/s" then Some(StatCell(view.diskIoStats, (s: StatStreamer.DiskIoStats) => s.iow))
    else if attr == "created" then Some(Text("Created"))
    else if attr == "started" then Some(Text("Started"))
    else if attr == "ports" then Some(Text(Join(view.publishedPorts, ", ")))
    else if attr == "command" then Some(Text(if |view.command| > 0 then view.command[0] else ""))
    else None
  }

  /**
   * `get_container_row`: one cell per priority attribute, in order; an attribute the values
   * dictionary lacks raises KeyError.
   */
  function ContainerRow(view: RowView, priority: seq<string>): (r: Result<seq<Cell>>)
    ensures r.Err? <==> exists i :: 0 <= i < |priority| && priority[i] !in HeaderMap
    ensures r.Err? ==> r.error == KeyError
    ensures r.Ok? ==> |r.value| == |priority| && forall i :: 0 <= i < |priority| ==> CellOf(view, priority[i]) == Some(r.value[i])
  {
    if priority == [] then Ok([])
    else
      match CellOf(view, priority[0])
      case None => Err(KeyError)
      case Some(c) =>
        var rest := ContainerRow(view, priority[1..]);
        assert forall i :: 1 <= i < |priority| ==> priority[i] == priority[1..][i - 1];
        if rest.Err? then
          assert exists i :: 0 <= i < |priority| && priority[i] !in HeaderMap by {
            var j :| 0 <= j < |priority[1..]| && priority[1..][j] !in HeaderMap;
            assert priority[j + 1] !in HeaderMap;
          }
          rest
        else
          var cells := [c] + rest.value;
          assert forall i :: 0 <= i < |priority| ==> CellOf(view, priority[i]) == Some(cells[i]) by {
            forall i | 0 <= i < |priority|
              ensures CellOf(view, priority[i]) == Some(cells[i])
            {
              if i > 0 {
                assert cells[i] == rest.value[i - 1];
              }
            }
          }
          Ok(cells)
  }

  /** When every priority attribute is known, the row lines up with the header, cell by title. */
  lemma RowMatchesHeader(view: RowView, priority: seq<string>)
    requires forall i :: 0 <= i < |priority| ==> priority[i] in HeaderMap
    ensures ContainerRow(view, priority).Ok?
    ensures |ContainerRow(view, priority).value| == |HeaderRow(priority)|
  {
  }

  // ---------------------------------------------------------------- status style

  const KnownStatuses: set<string> := {"created", "restarting", "running", "paused", "exited", "dead"}

  /** `_get_container_status_style`: every known status gets the created style, anything else none. */
  function StatusStyle(status: string, createdStyle: string): (r: string)
    ensures status in KnownStatuses ==> r == createdStyle
    ensures status !in KnownStatuses ==> r == ""
  {
    var styles := map[
      "created" := createdStyle, "restarting" := createdStyle, "running" := createdStyle,
      "paused" := createdStyle, "exited" := createdStyle, "dead" := createdStyle];
    if status in styles then styles[status] else ""
  }
}
