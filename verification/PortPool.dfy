/**
 * The pool of port pairs (proxy/internal/session/port_pool.go).
 *
 * The class scans for a free port as the program does; LowestFree says which port
 * that scan finds, and the lemmas say what the pool promises to its callers.
 */
module PortPools {
  import opened Wrappers

  datatype PortError = NoPortsAvailable | PortNotInUse | PortOutOfRange

  /** The lowest port of first..last that is not used, if there is one. */
  function LowestFree(first: int, last: int, used: set<int>): (r: Option<int>)
    ensures r.Some? ==> first <= r.value <= last && r.value !in used
    ensures r.Some? ==> forall p :: first <= p < r.value ==> p in used
    ensures r.None? ==> forall p :: first <= p <= last ==> p in used
    decreases last - first + 1
  {
    if last < first then None
    else if first !in used then Some(first)
    else LowestFree(first + 1, last, used)
  }

  function Range(first: int, last: int): (r: set<int>)
    ensures forall p :: p in r <==> first <= p <= last
    decreases last - first + 1
  {
    if last < first then {} else {first} + Range(first + 1, last)
  }

  lemma {:induction false} RangeSize(first: int, last: int)
    ensures |Range(first, last)| == if first <= last then last - first + 1 else 0
    decreases last - first + 1
  {
    if first <= last {
      RangeSize(first + 1, last);
    }
  }

  /** The scan comes back empty exactly when the pool counts no port as available. */
  lemma ExhaustedIffNoneAvailable(first: int, last: int, used: set<int>)
    requires used <= Range(first, last)
    ensures LowestFree(first, last, used).None? <==> (last - first + 1) - |used| <= 0
  {
    RangeSize(first, last);
    SubsetSize(used, Range(first, last));
    if LowestFree(first, last, used).None? {
      assert used == Range(first, last);
    }
  }

  lemma {:induction false} SubsetSize<T>(a: set<T>, b: set<T>)
    requires a <= b
    ensures |a| <= |b|
    ensures |a| == |b| ==> a == b
  {
    if a != {} {
      var x :| x in a;
      SubsetSize(a - {x}, b - {x});
    }
  }

  /** A port given back is the next one handed out, unless a lower one is free. */
  lemma ReleasedPortIsReused(first: int, last: int, used: set<int>, port: int)
    requires port in used && first <= port <= last
    ensures LowestFree(first, last, used - {port}) ==
            match LowestFree(first, last, used)
            case Some(free) => if free < port then Some(free) else Some(port)
            case None => Some(port)
  {
    var r := LowestFree(first, last, used - {port});
    var before := LowestFree(first, last, used);
    assert r.Some?;
    assert r.value <= port by {
      assert port !in used - {port};
    }
    assert before.Some? ==> r.value <= before.value by {
      assert before.Some? ==> before.value !in used - {port};
    }
  }

  class PortPool {
    const startPort: int
    const endPort: int
    const internalOffset: int
    var inUse: map<int, bool>

    ghost predicate Valid()
      reads this
    {
      inUse.Keys <= Range(startPort, endPort) && forall p | p in inUse :: inUse[p]
    }

    constructor (startPort: int, endPort: int, internalOffset: int)
      ensures Valid() && inUse == map[]
      ensures this.startPort == startPort && this.endPort == endPort && this.internalOffset == internalOffset
    {
      this.startPort, this.endPort, this.internalOffset := startPort, endPort, internalOffset;
      inUse := map[];
    }

    /** Whether the pool's map holds true for the port; an absent key reads as false. */
    predicate Taken(port: int)
      reads this
    {
      port in inUse && inUse[port]
    }

    method Allocate() returns (r: Result<(int, int), PortError>)
      requires Valid()
      modifies this
      ensures Valid()
      ensures match LowestFree(startPort, endPort, old(inUse.Keys))
              case Some(port) => r == Ok((port, port + internalOffset)) && inUse == old(inUse)[port := true]
              case None => r == Err(NoPortsAvailable) && inUse == old(inUse)
    {
      var port := startPort;
      while port <= endPort
        invariant startPort <= port
        invariant LowestFree(startPort, endPort, inUse.Keys) == LowestFree(port, endPort, inUse.Keys)
        invariant inUse == old(inUse)
        decreases endPort - port + 1
      {
        if !Taken(port) {
          inUse := inUse[port := true];
          return Ok((port, port + internalOffset));
        }
        port := port + 1;
      }
      return Err(NoPortsAvailable);
    }

    method Release(externalPort: int) returns (r: Result<(), PortError>)
      requires Valid()
      modifies this
      ensures Valid()
      ensures r.Ok? <==> externalPort in old(inUse)
      ensures r.Ok? ==> inUse == old(inUse) - {externalPort} && |inUse| == |old(inUse)| - 1
      ensures r.Err? ==> inUse == old(inUse)
      ensures r == Err(PortOutOfRange) <==> externalPort !in Range(startPort, endPort)
    {
      if externalPort < startPort || externalPort > endPort {
        return Err(PortOutOfRange);
      }
      if !Taken(externalPort) {
        return Err(PortNotInUse);
      }
      assert (inUse - {externalPort}).Keys == inUse.Keys - {externalPort};
      inUse := inUse - {externalPort};
      return Ok(());
    }

    method Available() returns (n: int)
      requires Valid()
      ensures n > 0 <==> LowestFree(startPort, endPort, inUse.Keys).Some?
      ensures n == (endPort - startPort + 1) - |inUse|
    {
      ExhaustedIffNoneAvailable(startPort, endPort, inUse.Keys);
      n := (endPort - startPort + 1) - |inUse|;
    }
  }
}
