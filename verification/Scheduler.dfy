/** The recheck timers of services/scheduler/main.py. */
module Scheduler {

  /** `schedule`: the earliest deadline wins. */
  function ScheduledAt(z: map<string, int>, orderId: string, due: int): map<string, int> {
    z[orderId := if orderId in z && z[orderId] < due then z[orderId] else due]
  }

  /** The list `due` returns: every key that is due, once, by due time. Ties are left open. */
  ghost predicate IsDueList(z: map<string, int>, now: int, ready: seq<string>) {
    && (forall k :: k in ready <==> k in z && z[k] <= now)
    && (forall i, j :: 0 <= i < j < |ready| ==> ready[i] != ready[j] && z[ready[i]] <= z[ready[j]])
  }

  function Without(z: map<string, int>, ready: seq<string>): map<string, int> {
    map k | k in z && k !in ready :: z[k]
  }

  class InMemoryScheduler {
    var z: map<string, int>

    constructor ()
      ensures z == map[]
    {
      z := map[];
    }

    method Schedule(orderId: string, due: int)
      modifies this
      ensures z == ScheduledAt(old(z), orderId, due)
      ensures orderId in z && z[orderId] <= due
      ensures orderId in old(z) ==> z[orderId] <= old(z)[orderId]
    {
      if orderId in z {
        z := z[orderId := if z[orderId] < due then z[orderId] else due];
      } else {
        z := z[orderId := due];
      }
    }

    /** The earliest key of a set of keys. */
    method Earliest(keys: set<string>) returns (best: string)
      requires keys != {} && keys <= z.Keys
      ensures best in keys && forall k :: k in keys ==> z[best] <= z[k]
    {
      best :| best in keys;
      var rest := keys - {best};
      while rest != {}
        invariant rest <= keys && best in keys
        invariant forall k :: k in keys - rest ==> z[best] <= z[k]
        decreases rest
      {
        var k :| k in rest;
        rest := rest - {k};
        if z[k] < z[best] {
          best := k;
        }
      }
    }

    method Due(now: int) returns (ready: seq<string>)
      modifies this
      ensures IsDueList(old(z), now, ready)
      ensures z == Without(old(z), ready)
    {
      ready := [];
      var rest := set k | k in z && z[k] <= now;
      while rest != {}
        invariant z == old(z)
        invariant rest <= z.Keys && forall k :: k in z && z[k] <= now <==> k in ready || k in rest
        invariant forall k :: k in ready ==> k !in rest && k in z
        invariant forall i, j :: 0 <= i < j < |ready| ==> ready[i] != ready[j] && z[ready[i]] <= z[ready[j]]
        invariant forall i, k :: 0 <= i < |ready| && k in rest ==> z[ready[i]] <= z[k]
        decreases rest
      {
        var k := Earliest(rest);
        ready := ready + [k];
        rest := rest - {k};
      }
      z := map k | k in z && k !in ready :: z[k];
    }
  }
}
