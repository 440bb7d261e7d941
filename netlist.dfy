/**
 * The Yosys-JSON netlist reader (utils/netlist_class.py): the validity
 * check on ports and cells, the split of ports into inputs and outputs,
 * and the conversion of cells into gate records.
 *
 * A netlist module is kept typed: ports carry a direction and a bit list,
 * cells a type string, their parameter and attribute objects, the port
 * directions and the connection bit lists, each in JSON key order.
 */
module Netlist {
  import opened Wrappers
  import opened PyStr
  import opened Dict
  import opened Json

  datatype Port = Port(direction: string, bits: seq<int>)

  datatype CellInfo = CellInfo(
    cellType: string,
    parameters: Object,
    attributes: Object,
    portDirections: Dict<string, string>,
    connections: Dict<string, seq<int>>)

  datatype NetlistModule = NetlistModule(ports: Dict<string, Port>, cells: Dict<string, CellInfo>)

  /** One entry of the `gates` dict: the gate type and the port-to-bit maps of its inputs and output. */
  datatype GateInfo = GateInfo(gateType: string, inputs: Dict<string, int>, output: Dict<string, int>)

  /** What the constructor leaves behind: `inputs`, `outputs` and `gates` exist only for a valid netlist. */
  datatype NetlistObject = NetlistObject(
    name: string,
    nodes: Option<(seq<(string, int)>, seq<(string, int)>, Dict<string, GateInfo>)>)

  // ---------------------------------------------------------------------
  // is_valid_netlist
  // ---------------------------------------------------------------------

  /** How often `x` occurs in `xs`. */
  function Count(xs: seq<string>, x: string): (n: nat)
    ensures n <= |xs|
  {
    if |xs| == 0 then 0 else Count(xs[..|xs| - 1], x) + (if xs[|xs| - 1] == x then 1 else 0)
  }

  /** `cell_type.split('_')[-2]`, which fails when the type has no '_'. */
  function TypeField(cellType: string): Result<string>
  {
    PyIndex(Split(cellType, '_'), -2)
  }

  /** Everything the validity loop over cells demands of one cell. */
  predicate CellOk(c: CellInfo)
  {
    && TypeField(c.cellType).Ok? && TypeField(c.cellType).value in ["NOT", "NOR"]
    && |c.parameters| == 0
    && |c.attributes| == 0
    && |c.portDirections| == |c.connections|
    && (forall k :: 0 <= k < |c.connections| ==> |c.connections[k].1| <= 1)
    && (forall k :: 0 <= k < |c.portDirections| ==> c.portDirections[k].1 in ["input", "output"])
    && Count(Values(c.portDirections), "input") <= 2
    && Count(Values(c.portDirections), "output") <= 1
  }

  /** The set of elements of a bit list. */
  function Elements(bits: seq<int>): (s: set<int>)
    ensures forall b :: b in s <==> b in bits
  {
    if |bits| == 0 then {} else Elements(bits[..|bits| - 1]) + {bits[|bits| - 1]}
  }

  /** Every bit named by the first `m` connection lists. */
  function ConnectionBits(conns: Dict<string, seq<int>>, m: nat): (s: set<int>)
    requires m <= |conns|
    ensures forall k, b :: 0 <= k < m && b in conns[k].1 ==> b in s
    ensures forall b :: b in s ==> exists k :: 0 <= k < m && b in conns[k].1
  {
    if m == 0 then {} else ConnectionBits(conns, m - 1) + Elements(conns[m - 1].1)
  }

  /** The `used_ports` set: every bit of every connection of the first `n` cells. */
  function UsedBits(cells: Dict<string, CellInfo>, n: nat): (s: set<int>)
    requires n <= |cells|
  {
    if n == 0 then {}
    else UsedBits(cells, n - 1) + ConnectionBits(cells[n - 1].1.connections, |cells[n - 1].1.connections|)
  }

  /**
   * The verdict of `is_valid_netlist`, stated declaratively.  A multi-bit
   * port or a bad cell makes it false; otherwise a port without bits makes
   * `port['bits'][0]` raise IndexError; otherwise it holds iff every port
   * bit is used by some cell connection.
   */
  function ValidNetlist(m: NetlistModule): Result<bool>
  {
    if exists k :: 0 <= k < |m.ports| && |m.ports[k].1.bits| > 1 then Ok(false)
    else if exists k :: 0 <= k < |m.cells| && !CellOk(m.cells[k].1) then Ok(false)
    else if exists k :: 0 <= k < |m.ports| && |m.ports[k].1.bits| == 0 then Err(IndexError)
    else Ok(forall k :: 0 <= k < |m.ports| ==> m.ports[k].1.bits[0] in UsedBits(m.cells, |m.cells|))
  }

  /** The per-cell checks, in the order the source makes them, with early returns. */
  method CheckCell(c: CellInfo) returns (ok: bool)
    ensures ok <==> CellOk(c)
  {
    var gateType := TypeField(c.cellType);
    if gateType.Err? || gateType.value !in ["NOT", "NOR"] {
      return false;
    }
    if |c.parameters| > 0 {
      return false;
    }
    if |c.attributes| > 0 {
      return false;
    }
    if |c.portDirections| != |c.connections| {
      return false;
    }
    var single := ConnectionsSingleBit(c.connections);
    if !single {
      return false;
    }
    var dirs := Values(c.portDirections);
    var known, inCount, outCount := CountDirections(dirs);
    if !known {
      return false;
    }
    if inCount > 2 || outCount > 1 {
      return false;
    }
    return true;
  }

  /** The loop over a cell's connections: none has more than one bit. */
  method ConnectionsSingleBit(conns: Dict<string, seq<int>>) returns (ok: bool)
    ensures ok <==> forall k :: 0 <= k < |conns| ==> |conns[k].1| <= 1
  {
    var k := 0;
    while k < |conns|
      invariant 0 <= k <= |conns|
      invariant forall j :: 0 <= j < k ==> |conns[j].1| <= 1
    {
      if |conns[k].1| > 1 {
        return false;
      }
      k := k + 1;
    }
    return true;
  }

  /** The loop over a cell's port directions: each is an input or an output, and they are counted. */
  method CountDirections(dirs: seq<string>) returns (known: bool, inCount: nat, outCount: nat)
    ensures known <==> forall j :: 0 <= j < |dirs| ==> dirs[j] in ["input", "output"]
    ensures known ==> inCount == Count(dirs, "input") && outCount == Count(dirs, "output")
  {
    inCount, outCount := 0, 0;
    var k := 0;
    while k < |dirs|
      invariant 0 <= k <= |dirs|
      invariant forall j :: 0 <= j < k ==> dirs[j] in ["input", "output"]
      invariant inCount == Count(dirs[..k], "input") && outCount == Count(dirs[..k], "output")
    {
      if dirs[k] !in ["input", "output"] {
        return false, inCount, outCount;
      }
      assert dirs[..k + 1][..k] == dirs[..k];
      if dirs[k] == "input" {
        inCount := inCount + 1;
      } else {
        outCount := outCount + 1;
      }
      k := k + 1;
    }
    assert dirs[..k] == dirs;
    known := true;
  }

  /** The first port loop: no port has more than one bit. */
  method PortsSingleBit(ports: Dict<string, Port>) returns (ok: bool)
    ensures ok <==> forall k :: 0 <= k < |ports| ==> |ports[k].1.bits| <= 1
  {
    var i := 0;
    while i < |ports|
      invariant 0 <= i <= |ports|
      invariant forall k :: 0 <= k < i ==> |ports[k].1.bits| <= 1
    {
      if |ports[i].1.bits| > 1 {
        return false;
      }
      i := i + 1;
    }
    return true;
  }

  /** The cell loop: every cell passes `CheckCell`. */
  method CellsOk(cells: Dict<string, CellInfo>) returns (ok: bool)
    ensures ok <==> forall k :: 0 <= k < |cells| ==> CellOk(cells[k].1)
  {
    var c := 0;
    while c < |cells|
      invariant 0 <= c <= |cells|
      invariant forall k :: 0 <= k < c ==> CellOk(cells[k].1)
    {
      var ok := CheckCell(cells[c].1);
      if !ok {
        return false;
      }
      c := c + 1;
    }
    return true;
  }

  /** The `used_ports` set, grown by `update` with every connection of every cell. */
  method CollectUsedPorts(cells: Dict<string, CellInfo>) returns (used: set<int>)
    ensures used == UsedBits(cells, |cells|)
  {
    used := {};
    var c := 0;
    while c < |cells|
      invariant 0 <= c <= |cells|
      invariant used == UsedBits(cells, c)
    {
      var conns := cells[c].1.connections;
      var base := used;
      var k := 0;
      while k < |conns|
        invariant 0 <= k <= |conns|
        invariant used == base + ConnectionBits(conns, k)
      {
        used := used + Elements(conns[k].1);
        k := k + 1;
      }
      c := c + 1;
    }
  }

  /** The last port loop: `port['bits'][0]` for every port, collecting the unused ones. */
  method PortsUsed(ports: Dict<string, Port>, used: set<int>) returns (r: Result<bool>)
    ensures r.Err? <==> exists k :: 0 <= k < |ports| && |ports[k].1.bits| == 0
    ensures r.Err? ==> r.error == IndexError
    ensures r.Ok? ==> (r.value <==> forall k :: 0 <= k < |ports| ==> ports[k].1.bits[0] in used)
  {
    var notUsed: seq<int> := [];
    var i := 0;
    while i < |ports|
      invariant 0 <= i <= |ports|
      invariant forall k :: 0 <= k < i ==> |ports[k].1.bits| > 0
      invariant (|notUsed| == 0) <==> forall k :: 0 <= k < i ==> ports[k].1.bits[0] in used
    {
      if |ports[i].1.bits| == 0 {
        return Err(IndexError);
      }
      if ports[i].1.bits[0] !in used {
        notUsed := notUsed + [ports[i].1.bits[0]];
      }
      i := i + 1;
    }
    return Ok(|notUsed| == 0);
  }

  /** `is_valid_netlist`: the port loop, the cell loop, the `used_ports` set and the final port loop. */
  method IsValidNetlist(m: NetlistModule) returns (r: Result<bool>)
    ensures r == ValidNetlist(m)
  {
    var single := PortsSingleBit(m.ports);
    if !single {
      return Ok(false);
    }
    var cellsOk := CellsOk(m.cells);
    if !cellsOk {
      return Ok(false);
    }
    var used := CollectUsedPorts(m.cells);
    r := PortsUsed(m.ports, used);
  }

  // ---------------------------------------------------------------------
  // __sort_nodes
  // ---------------------------------------------------------------------

  /** The error `__sort_nodes` raises on one port, if any. */
  function PortError(p: Port): Option<PyError>
  {
    if |p.bits| == 0 then Some(IndexError)
    else if p.direction != "input" && p.direction != "output" then Some(ValueError)
    else None
  }

  /** `(name, bits[0])` for each of the first `n` ports with direction `dir`, in port order. */
  function PortNodes(ports: Dict<string, Port>, dir: string, n: nat): seq<(string, int)>
    requires n <= |ports|
    requires forall k :: 0 <= k < n ==> |ports[k].1.bits| > 0
  {
    if n == 0 then []
    else PortNodes(ports, dir, n - 1)
         + (if ports[n - 1].1.direction == dir then [(ports[n - 1].0, ports[n - 1].1.bits[0])] else [])
  }

  /** When every port is an input or an output, each port lands in exactly one of the two lists. */
  lemma {:induction false} PortNodesPartition(ports: Dict<string, Port>, n: nat)
    requires n <= |ports|
    requires forall k :: 0 <= k < n ==> |ports[k].1.bits| > 0
    requires forall k :: 0 <= k < n ==> ports[k].1.direction in ["input", "output"]
    ensures |PortNodes(ports, "input", n)| + |PortNodes(ports, "output", n)| == n
  {
    if n > 0 {
      PortNodesPartition(ports, n - 1);
    }
  }

  /** `__sort_nodes`: inputs and outputs in port order, or the error of the first bad port. */
  method SortNodes(ports: Dict<string, Port>) returns (r: Result<(seq<(string, int)>, seq<(string, int)>)>)
    ensures r.Ok? <==> forall k :: 0 <= k < |ports| ==> PortError(ports[k].1).None?
    ensures r.Ok? ==> r.value == (PortNodes(ports, "input", |ports|), PortNodes(ports, "output", |ports|))
    ensures r.Err? ==> exists k :: 0 <= k < |ports| && PortError(ports[k].1) == Some(r.error)
                                   && forall j :: 0 <= j < k ==> PortError(ports[j].1).None?
  {
    var ins: seq<(string, int)> := [];
    var outs: seq<(string, int)> := [];
    var n := 0;
    while n < |ports|
      invariant 0 <= n <= |ports|
      invariant forall k :: 0 <= k < n ==> PortError(ports[k].1).None?
      invariant ins == PortNodes(ports, "input", n) && outs == PortNodes(ports, "output", n)
    {
      var (name, p) := ports[n];
      if |p.bits| == 0 {
        return Err(IndexError);
      }
      var node := (name, p.bits[0]);
      if p.direction == "input" {
        ins := ins + [node];
      } else if p.direction == "output" {
        outs := outs + [node];
      } else {
        return Err(ValueError);
      }
      n := n + 1;
    }
    return Ok((ins, outs));
  }

  // ---------------------------------------------------------------------
  // __sort_gates
  // ---------------------------------------------------------------------

  /** The gate id: the text after the last '$' of the cell name. */
  function GateId(cellName: string): (id: string)
    ensures '$' !in id
  {
    var parts := Split(cellName, '$');
    parts[|parts| - 1]
  }

  /** The port names whose direction is 'input', among the first `n` directions. */
  function InputPorts(dirs: Dict<string, string>, n: nat): (r: seq<string>)
    requires n <= |dirs|
    ensures forall d :: d in r <==> exists k :: 0 <= k < n && dirs[k] == (d, "input")
  {
    if n == 0 then []
    else InputPorts(dirs, n - 1) + (if dirs[n - 1].1 == "input" then [dirs[n - 1].0] else [])
  }

  /**
   * The gate record of one cell: the second '_'-field of the cell type, and
   * each connection's first bit filed under its port name, as an input when
   * the port's direction is 'input' and as the output otherwise.  (The `+=`
   * in the source always fails on the fresh dict, so each entry is a plain
   * assignment.)
   */
  function GateOf(c: CellInfo): (r: Result<GateInfo>)
    ensures r.Ok? ==> PyIndex(Split(c.cellType, '_'), 1) == Ok(r.value.gateType)
    ensures r.Ok? ==> |r.value.inputs| + |r.value.output| == |c.connections|
    ensures r.Ok? ==> forall k :: 0 <= k < |c.connections| ==> |c.connections[k].1| > 0
  {
    match PyIndex(Split(c.cellType, '_'), 1)
    case Err(e) => Err(e)
    case Ok(t) =>
      match Endpoints(c.connections, InputPorts(c.portDirections, |c.portDirections|), |c.connections|)
      case Err(e) => Err(e)
      case Ok((ins, outs)) => Ok(GateInfo(t, ins, outs))
  }

  /** The first `n` connections split into input and output maps; IndexError on an empty connection. */
  function Endpoints(conns: Dict<string, seq<int>>, inputPorts: seq<string>, n: nat)
    : (r: Result<(Dict<string, int>, Dict<string, int>)>)
    requires n <= |conns|
    ensures r.Ok? <==> forall k :: 0 <= k < n ==> |conns[k].1| > 0
    ensures r.Ok? ==> |r.value.0| + |r.value.1| == n
    ensures r.Ok? ==> forall k :: 0 <= k < |r.value.0| ==> r.value.0[k].0 in inputPorts
    ensures r.Ok? ==> forall k :: 0 <= k < |r.value.1| ==> r.value.1[k].0 !in inputPorts
  {
    if n == 0 then Ok(([], []))
    else
      match Endpoints(conns, inputPorts, n - 1)
      case Err(e) => Err(e)
      case Ok((ins, outs)) =>
        var (k, bits) := conns[n - 1];
        if |bits| == 0 then Err(IndexError)
        else if k in inputPorts then Ok((ins + [(k, bits[0])], outs))
        else Ok((ins, outs + [(k, bits[0])]))
  }

  /** The `gates` dict after the first `n` cells: `gates.update` overwrites an id already present. */
  function SortedGates(cells: Dict<string, CellInfo>, n: nat): Result<Dict<string, GateInfo>>
    requires n <= |cells|
  {
    if n == 0 then Ok([])
    else
      match SortedGates(cells, n - 1)
      case Err(e) => Err(e)
      case Ok(gates) =>
        match GateOf(cells[n - 1].1)
        case Err(e) => Err(e)
        case Ok(g) => Ok(Put(gates, GateId(cells[n - 1].0), g))
  }

  /** A later cell with the same gate id replaces the earlier one: its record is what the dict holds. */
  lemma LaterCellWins(cells: Dict<string, CellInfo>, n: nat)
    requires 0 < n <= |cells|
    requires SortedGates(cells, n).Ok?
    ensures GateOf(cells[n - 1].1).Ok?
    ensures Get(SortedGates(cells, n).value, GateId(cells[n - 1].0)) == Some(GateOf(cells[n - 1].1).value)
  {
    var prev := SortedGates(cells, n - 1).value;
    GetPut(prev, GateId(cells[n - 1].0), GateOf(cells[n - 1].1).value, GateId(cells[n - 1].0));
  }

  /** The gate ids of the first `n` cells, in cell order. */
  function CellIds(cells: Dict<string, CellInfo>, n: nat): seq<string>
    requires n <= |cells|
  {
    if n == 0 then [] else CellIds(cells, n - 1) + [GateId(cells[n - 1].0)]
  }

  /** The `gates` dict has each cell's gate id once, and no other key. */
  lemma {:induction false} SortedGatesKeys(cells: Dict<string, CellInfo>, n: nat)
    requires n <= |cells|
    requires SortedGates(cells, n).Ok?
    ensures Wellformed(SortedGates(cells, n).value)
    ensures forall id :: id in Keys(SortedGates(cells, n).value) <==> id in CellIds(cells, n)
  {
    if n > 0 {
      var prevR := SortedGates(cells, n - 1);
      assert prevR.Ok?;
      SortedGatesKeys(cells, n - 1);
      var prev := prevR.value;
      var id := GateId(cells[n - 1].0);
      var g := GateOf(cells[n - 1].1).value;
      assert SortedGates(cells, n).value == Put(prev, id, g);
      PutWellformed(prev, id, g);
      KeysPut(prev, id, g);
    }
  }

  /** `__sort_gates`: each cell converted in turn and stored under its gate id. */
  method SortGates(cells: Dict<string, CellInfo>) returns (r: Result<Dict<string, GateInfo>>)
    ensures r == SortedGates(cells, |cells|)
  {
    var gates: Dict<string, GateInfo> := [];
    var n := 0;
    while n < |cells|
      invariant 0 <= n <= |cells|
      invariant SortedGates(cells, n) == Ok(gates)
    {
      var g := GateOf(cells[n].1);
      SortedGatesNext(cells, n, gates);
      if g.Err? {
        return Err(g.error);
      }
      gates := Put(gates, GateId(cells[n].0), g.value);
      n := n + 1;
    }
    return Ok(gates);
  }

  lemma SortedGatesNext(cells: Dict<string, CellInfo>, n: nat, gates: Dict<string, GateInfo>)
    requires n < |cells| && SortedGates(cells, n) == Ok(gates)
    ensures GateOf(cells[n].1).Err? ==> SortedGates(cells, |cells|) == Err(GateOf(cells[n].1).error)
    ensures GateOf(cells[n].1).Ok? ==> SortedGates(cells, n + 1) == Ok(Put(gates, GateId(cells[n].0), GateOf(cells[n].1).value))
  {
    if GateOf(cells[n].1).Err? {
      SortedGatesErrorSticks(cells, n + 1);
    }
  }

  /** Once a cell fails, the whole conversion fails with its error. */
  lemma {:induction false} SortedGatesErrorSticks(cells: Dict<string, CellInfo>, n: nat)
    requires 0 < n <= |cells|
    requires SortedGates(cells, n).Err?
    ensures SortedGates(cells, |cells|) == SortedGates(cells, n)
    decreases |cells| - n
  {
    if n < |cells| {
      assert SortedGates(cells, n + 1) == SortedGates(cells, n);
      SortedGatesErrorSticks(cells, n + 1);
    }
  }

  // ---------------------------------------------------------------------
  // Netlist.__init__
  // ---------------------------------------------------------------------

  /**
   * The constructor: the first module name, then the validity check; only
   * a valid netlist gets its sorted inputs, outputs and gates.
   */
  method NewNetlist(modules: Dict<string, NetlistModule>) returns (r: Result<NetlistObject>)
    ensures |modules| == 0 ==> r == Err(IndexError)
    ensures r.Ok? ==> |modules| > 0 && r.value.name == modules[0].0
    ensures r.Ok? ==> (r.value.nodes.Some? <==> ValidNetlist(modules[0].1) == Ok(true))
    ensures r.Ok? && r.value.nodes.Some? ==>
              r.value.nodes.value.0 == PortNodes(modules[0].1.ports, "input", |modules[0].1.ports|)
              && r.value.nodes.value.1 == PortNodes(modules[0].1.ports, "output", |modules[0].1.ports|)
              && Ok(r.value.nodes.value.2) == SortedGates(modules[0].1.cells, |modules[0].1.cells|)
  {
    if |modules| == 0 {
      return Err(IndexError);
    }
    var (name, main) := modules[0];
    var valid := IsValidNetlist(main);
    if valid.Err? {
      return Err(valid.error);
    }
    if !valid.value {
      return Ok(NetlistObject(name, None));
    }
    var nodes := SortNodes(main.ports);
    if nodes.Err? {
      return Err(nodes.error);
    }
    var gates := SortGates(main.cells);
    if gates.Err? {
      return Err(gates.error);
    }
    return Ok(NetlistObject(name, Some((nodes.value.0, nodes.value.1, gates.value))));
  }
}
