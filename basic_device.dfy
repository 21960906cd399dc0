/**
 * `BasicDevice`: a device with defensive, id-sorted copies of its input and
 * output port lists. The constructor copies each list it is given and sorts
 * the copy in place with the stable `Collections.sort`; the getters hand out
 * fresh copies, so neither the caller's lists nor later reads can be disturbed.
 */
module Devices {
  import opened Outcomes
  import opened JavaLang
  import opened Ports

  /** Ports in non-decreasing id order. */
  predicate SortedById(ports: seq<Port>) {
    forall i, j :: 0 <= i < j < |ports| ==> ports[i].id <= ports[j].id
  }

  /** Inserts a port after every port whose id is not larger: one step of a stable sort. */
  function InsertById(sorted: seq<Port>, port: Port): (r: seq<Port>)
    ensures |r| == |sorted| + 1
  {
    if |sorted| == 0 || sorted[|sorted| - 1].id <= port.id then sorted + [port]
    else InsertById(sorted[..|sorted| - 1], port) + [sorted[|sorted| - 1]]
  }

  /** The order `Collections.sort` leaves a port list in: by id, ties in their original order. */
  function SortById(ports: seq<Port>): (r: seq<Port>)
    ensures |r| == |ports|
  {
    if |ports| == 0 then []
    else InsertById(SortById(ports[..|ports| - 1]), ports[|ports| - 1])
  }

  /** Insertion keeps the ports and adds the new one. */
  lemma {:induction false} InsertByIdPermutes(sorted: seq<Port>, port: Port)
    ensures multiset(InsertById(sorted, port)) == multiset(sorted) + multiset{port}
  {
    if |sorted| > 0 && sorted[|sorted| - 1].id > port.id {
      var init := sorted[..|sorted| - 1];
      InsertByIdPermutes(init, port);
      assert sorted == init + [sorted[|sorted| - 1]];
    }
  }

  /** Insertion into a sorted sequence keeps it sorted. */
  lemma {:induction false} InsertByIdSorted(sorted: seq<Port>, port: Port)
    requires SortedById(sorted)
    ensures SortedById(InsertById(sorted, port))
  {
    if |sorted| > 0 && sorted[|sorted| - 1].id > port.id {
      var init := sorted[..|sorted| - 1];
      var last := sorted[|sorted| - 1];
      InsertByIdSorted(init, port);
      InsertByIdBound(init, port, last.id);
    }
  }

  /** Every id in an insertion is bounded by a bound on the parts. */
  lemma {:induction false} InsertByIdBound(sorted: seq<Port>, port: Port, bound: int)
    requires forall i :: 0 <= i < |sorted| ==> sorted[i].id <= bound
    requires port.id <= bound
    ensures forall i :: 0 <= i < |sorted| + 1 ==> InsertById(sorted, port)[i].id <= bound
  {
    if |sorted| > 0 && sorted[|sorted| - 1].id > port.id {
      InsertByIdBound(sorted[..|sorted| - 1], port, bound);
    }
  }

  /** The sorted copy is in id order. */
  lemma {:induction false} SortByIdSorted(ports: seq<Port>)
    ensures SortedById(SortById(ports))
  {
    if |ports| > 0 {
      SortByIdSorted(ports[..|ports| - 1]);
      InsertByIdSorted(SortById(ports[..|ports| - 1]), ports[|ports| - 1]);
    }
  }

  /** The sorted copy holds the same ports, each as often as the original. */
  lemma {:induction false} SortByIdPermutes(ports: seq<Port>)
    ensures multiset(SortById(ports)) == multiset(ports)
  {
    if |ports| > 0 {
      var init := ports[..|ports| - 1];
      SortByIdPermutes(init);
      InsertByIdPermutes(SortById(init), ports[|ports| - 1]);
      assert ports == init + [ports[|ports| - 1]];
    }
  }

  /** A list already in id order is left as it is. */
  lemma {:induction false} SortByIdOfSorted(ports: seq<Port>)
    requires SortedById(ports)
    ensures SortById(ports) == ports
  {
    if |ports| > 0 {
      var init := ports[..|ports| - 1];
      assert SortedById(init);
      SortByIdOfSorted(init);
      assert ports == init + [ports[|ports| - 1]];
    }
  }

  /**
   * Insertion lands right after the last port not larger than the new one: when
   * every port from j on is larger and the one before j is not, the new port goes at j.
   */
  lemma {:induction false} InsertByIdAt(sorted: seq<Port>, port: Port, j: nat)
    requires j <= |sorted| && (j == 0 || sorted[j - 1].id <= port.id)
    requires forall k :: j <= k < |sorted| ==> sorted[k].id > port.id
    ensures InsertById(sorted, port) == sorted[..j] + [port] + sorted[j..]
  {
    if j < |sorted| {
      var init := sorted[..|sorted| - 1];
      InsertByIdAt(init, port, j);
      assert init[..j] == sorted[..j];
      assert init[j..] + [sorted[|sorted| - 1]] == sorted[j..];
    } else {
      assert sorted[..j] == sorted;
    }
  }

  /** The ports with id `id`, in their order in the list. */
  function WithId(ports: seq<Port>, id: int): (r: seq<Port>)
    ensures |r| <= |ports|
    ensures forall k :: 0 <= k < |r| ==> r[k].id == id
  {
    if |ports| == 0 then []
    else WithId(ports[..|ports| - 1], id) + (if ports[|ports| - 1].id == id then [ports[|ports| - 1]] else [])
  }

  /** Insertion keeps the ports of each id in order, with the new port after those already there. */
  lemma {:induction false} InsertByIdWithId(sorted: seq<Port>, port: Port, id: int)
    ensures WithId(InsertById(sorted, port), id) == WithId(sorted, id) + (if port.id == id then [port] else [])
  {
    if |sorted| == 0 || sorted[|sorted| - 1].id <= port.id {
      assert (sorted + [port])[..|sorted|] == sorted;
    } else {
      var init := sorted[..|sorted| - 1];
      var last := sorted[|sorted| - 1];
      var inserted := InsertById(init, port);
      InsertByIdWithId(init, port, id);
      assert (inserted + [last])[..|inserted + [last]| - 1] == inserted;
    }
  }

  /** The sort is stable: the ports of each id keep their original order. */
  lemma {:induction false} SortByIdStable(ports: seq<Port>, id: int)
    ensures WithId(SortById(ports), id) == WithId(ports, id)
  {
    if |ports| > 0 {
      var init := ports[..|ports| - 1];
      SortByIdStable(init, id);
      InsertByIdWithId(SortById(init), ports[|ports| - 1], id);
    }
  }

  /**
   * One pass of the sort: the port at index i is moved left past every larger id
   * before it, so the first i + 1 ports become the insertion of that port.
   */
  method InsertPortAt(ports: array<Port>, i: nat)
    requires i < ports.Length
    modifies ports
    ensures ports[..i + 1] == InsertById(old(ports[..i]), old(ports[i]))
    ensures ports[i + 1..] == old(ports[i + 1..])
  {
    var port := ports[i];
    ghost var sorted := ports[..i];
    var j := i;
    while j > 0 && ports[j - 1].id > port.id
      invariant 0 <= j <= i
      invariant forall k :: 0 <= k < j ==> ports[k] == sorted[k]
      invariant forall k :: j < k <= i ==> ports[k] == sorted[k - 1]
      invariant forall k :: j <= k < i ==> sorted[k].id > port.id
      invariant forall k :: i < k < ports.Length ==> ports[k] == old(ports[k])
    {
      ports[j] := ports[j - 1];
      j := j - 1;
    }
    ports[j] := port;
    assert ports[..i + 1] == InsertById(sorted, port) by {
      InsertByIdAt(sorted, port, j);
      assert ports[..i + 1] == sorted[..j] + [port] + sorted[j..];
    }
  }

  /** `Collections.sort(ports)` on a port list: a stable insertion sort by id. */
  method SortPortsById(ports: array<Port>)
    modifies ports
    ensures ports[..] == SortById(old(ports[..]))
  {
    ghost var original := ports[..];
    var i := 0;
    while i < ports.Length
      invariant 0 <= i <= ports.Length
      invariant ports[..i] == SortById(original[..i])
      invariant ports[i..] == original[i..]
    {
      InsertPortAt(ports, i);
      assert original[..i + 1][..i] == original[..i];
      i := i + 1;
    }
    assert original[..ports.Length] == original;
  }

  /** `new ArrayList<Port>(ports)`: a fresh list with the same ports in the same order. */
  method CopyPorts(ports: array<Port>) returns (copy: array<Port>)
    ensures fresh(copy)
    ensures copy[..] == ports[..]
  {
    copy := new Port[ports.Length];
    var i := 0;
    while i < ports.Length
      invariant 0 <= i <= ports.Length
      invariant copy[..i] == ports[..i]
    {
      copy[i] := ports[i];
      i := i + 1;
    }
  }

  /** A constructed `BasicDevice`. */
  class BasicDevice {
    const id: string
    const alias: Int32
    const name: Option<string>
    const pluginId: Int32
    /** The device's own sorted copies, never handed out. */
    const inputPorts: array<Port>
    const outputPorts: array<Port>

    /** Each stored list is the device's own and is in id order. */
    ghost predicate Valid()
      reads inputPorts, outputPorts
    {
      inputPorts != outputPorts && SortedById(inputPorts[..]) && SortedById(outputPorts[..])
    }

    /**
     * The constructor once the null checks have passed: the scalar fields are kept
     * as given, each port list is copied and the copy sorted, and the caller's
     * lists (which may be one and the same list) are left untouched.
     */
    constructor(id: string, alias: Int32, name: Option<string>, pluginId: Int32,
                inputs: array<Port>, outputs: array<Port>)
      ensures this.id == id && this.alias == alias && this.name == name && this.pluginId == pluginId
      ensures fresh(inputPorts) && fresh(outputPorts)
      ensures inputPorts[..] == SortById(inputs[..])
      ensures outputPorts[..] == SortById(outputs[..])
      ensures multiset(inputPorts[..]) == multiset(inputs[..])
      ensures multiset(outputPorts[..]) == multiset(outputs[..])
      ensures inputs[..] == old(inputs[..]) && outputs[..] == old(outputs[..])
      ensures Valid()
    {
      this.id := id;
      this.alias := alias;
      this.name := name;
      this.pluginId := pluginId;
      var inputCopy := CopyPorts(inputs);
      var outputCopy := CopyPorts(outputs);
      SortPortsById(inputCopy);
      SortPortsById(outputCopy);
      SortByIdSorted(inputs[..]);
      SortByIdSorted(outputs[..]);
      SortByIdPermutes(inputs[..]);
      SortByIdPermutes(outputs[..]);
      this.inputPorts := inputCopy;
      this.outputPorts := outputCopy;
    }

    /** `getInputPorts()`: a fresh copy of the sorted input ports. */
    method GetInputPorts() returns (ports: array<Port>)
      ensures fresh(ports)
      ensures ports[..] == inputPorts[..]
    {
      ports := CopyPorts(inputPorts);
    }

    /** `getOutputPorts()`: a fresh copy of the sorted output ports. */
    method GetOutputPorts() returns (ports: array<Port>)
      ensures fresh(ports)
      ensures ports[..] == outputPorts[..]
    {
      ports := CopyPorts(outputPorts);
    }
  }

  /**
   * The public constructor with its null checks: a null id throws first, then a
   * null port list throws from the list copy.
   */
  method NewBasicDevice(id: Option<string>, alias: Int32, name: Option<string>, pluginId: Int32,
                        inputs: array?<Port>, outputs: array?<Port>) returns (r: Outcome<BasicDevice>)
    ensures r.Threw? <==> id.None? || inputs == null || outputs == null
    ensures r.Threw? ==> r.exception == NullPointerException
    ensures r.Returned? ==> fresh(r.value) && fresh(r.value.inputPorts) && fresh(r.value.outputPorts)
    ensures r.Returned? ==>
      && r.value.id == id.value && r.value.alias == alias
      && r.value.name == name && r.value.pluginId == pluginId
    ensures r.Returned? ==>
      && r.value.Valid()
      && r.value.inputPorts[..] == SortById(inputs[..])
      && r.value.outputPorts[..] == SortById(outputs[..])
  {
    if id.None? {
      return Threw(NullPointerException);
    }
    if inputs == null || outputs == null {
      return Threw(NullPointerException);
    }
    var device := new BasicDevice(id.value, alias, name, pluginId, inputs, outputs);
    return Returned(device);
  }

  /**
   * What the getters' copies guarantee: a caller that overwrites the list it was
   * given reads the device's ports unchanged the next time.
   */
  method ReadAfterOverwrite(device: BasicDevice, intruder: Port) returns (before: seq<Port>, after: seq<Port>)
    requires device.Valid()
    ensures before == after == device.inputPorts[..]
    ensures SortedById(after)
  {
    var first := device.GetInputPorts();
    before := first[..];
    if first.Length > 0 {
      first[0] := intruder;
    }
    var second := device.GetInputPorts();
    after := second[..];
  }
}
