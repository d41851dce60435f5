/** The ports the configuration gives the workers, and the pool that leases
    them. */
module Ports {
  import opened Wrappers
  import opened Widths

  datatype PortRange = PortRange(first: nat, last: nat)

  predicate Is16Bit(range: PortRange) {
    range.first <= U16_MAX && range.last <= U16_MAX
  }

  /** The ports of one worker. */
  datatype MemberPorts = MemberPorts(http: nat, stream: Option<nat>)

  /** The pairs of a range: every second port that has its neighbour in the
      range, in order. */
  function Pairs(range: PortRange): seq<(nat, nat)>
    decreases range.last + 1 - range.first
  {
    if range.first > range.last then []
    else (if range.first + 1 <= range.last then [(range.first, range.first + 1)] else [])
         + Pairs(range.(first := range.first + 2))
  }

  function Size(range: PortRange): nat {
    if range.first > range.last then 0 else range.last - range.first + 1
  }

  /** A range holds half as many pairs as ports, rounded down, and pair `i`
      starts `2 * i` ports into it. */
  lemma {:induction false} PairsFillTheRange(range: PortRange)
    ensures |Pairs(range)| == Size(range) / 2
    ensures forall i :: 0 <= i < |Pairs(range)| ==>
      && Pairs(range)[i] == (range.first + 2 * i, range.first + 2 * i + 1)
      && range.first <= Pairs(range)[i].0 && Pairs(range)[i].1 <= range.last
    decreases range.last + 1 - range.first
  {
    if range.last <= range.first {
    } else {
      var rest := range.(first := range.first + 2);
      PairsFillTheRange(rest);
      assert forall i :: 0 < i < |Pairs(range)| ==> Pairs(range)[i] == Pairs(rest)[i - 1];
    }
  }

  // ----- The configuration -----

  datatype WorkerPorts = WorkerPorts(bindPort: nat, candidateBindPort: nat, range: Option<PortRange>)

  /** The ports are 16-bit numbers. */
  predicate Fits(worker: WorkerPorts) {
    worker.bindPort <= U16_MAX && worker.candidateBindPort <= U16_MAX
        && (worker.range.Some? ==> Is16Bit(worker.range.value))
  }

  /** What the configuration is not refused for. */
  predicate Accepted(worker: WorkerPorts) {
    && worker.bindPort != 0 && worker.candidateBindPort != 0
    && worker.bindPort != worker.candidateBindPort
    && (worker.range.Some? ==> worker.range.value.first != 0 && |Pairs(worker.range.value)| >= 2)
  }

  function Paired(pairs: seq<(nat, nat)>): (ports: seq<MemberPorts>)
    ensures |ports| == |pairs|
    ensures forall i :: 0 <= i < |pairs| ==> ports[i] == MemberPorts(pairs[i].0, Some(pairs[i].1))
  {
    seq(|pairs|, i requires 0 <= i < |pairs| => MemberPorts(pairs[i].0, Some(pairs[i].1)))
  }

  function ConfiguredPorts(worker: WorkerPorts): seq<MemberPorts> {
    match worker.range
    case Some(range) => Paired(Pairs(range))
    case None => [MemberPorts(worker.bindPort, None), MemberPorts(worker.candidateBindPort, None)]
  }

  predicate Listens(ports: MemberPorts, port: nat) {
    port == ports.http || ports.stream == Some(port)
  }

  /** Two leases of an accepted configuration share no port, none is port 0,
      all are 16-bit ports, and there are leases for a serving worker and its
      replacement. */
  lemma LeasesShareNoPort(worker: WorkerPorts, i: nat, j: nat, port: nat)
    requires Accepted(worker) && Fits(worker)
    requires i < |ConfiguredPorts(worker)| && j < |ConfiguredPorts(worker)|
    requires Listens(ConfiguredPorts(worker)[i], port) && Listens(ConfiguredPorts(worker)[j], port)
    ensures i == j && 0 < port <= U16_MAX && |ConfiguredPorts(worker)| >= 2
  {
    if worker.range.Some? {
      PairsFillTheRange(worker.range.value);
    }
  }

  // ----- The pool -----

  /** No lease below `index` is free. */
  predicate NoneFree(held: seq<bool>, index: nat)
    requires index <= |held|
  {
    forall i :: 0 <= i < index ==> held[i]
  }

  class PortPool {
    var held: array<bool>

    constructor (size: nat)
      ensures fresh(held) && held.Length == size && held[..] == seq(size, _ => false)
    {
      held := new bool[size](_ => false);
    }

    /** Takes the first lease that nothing holds. */
    method Lease() returns (lease: Option<nat>)
      modifies held
      ensures lease.None? ==> NoneFree(old(held[..]), held.Length) && held[..] == old(held[..])
      ensures lease.Some? ==>
        && lease.value < held.Length && !old(held[lease.value]) && NoneFree(old(held[..]), lease.value)
        && held[..] == old(held[..])[lease.value := true]
    {
      var i := 0;
      while i < held.Length
        invariant 0 <= i <= held.Length && held[..] == old(held[..]) && NoneFree(held[..], i)
      {
        if !held[i] {
          held[i] := true;
          return Some(i);
        }
        i := i + 1;
      }
      return None;
    }

    /** The last holder let go. */
    method Release(lease: nat)
      requires lease < held.Length
      modifies held
      ensures held[..] == old(held[..])[lease := false]
    {
      held[lease] := false;
    }
  }
}
