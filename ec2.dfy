/**
 * What the compute API's `describe_instances` answer contributes to the estimation core:
 * reservations holding instances, the region an instance runs in, and the "skip the
 * instances whose metrics lookup failed" filter that every collection loop applies.
 */
module Ec2 {
  import opened Wrappers

  /** The three fields of a described instance that the core reads. */
  datatype Instance = Instance(instanceId: string, instanceType: string, availabilityZone: string)

  /** One reservation of a `describe_instances` answer: its `Instances` list. */
  type Reservation = seq<Instance>

  /** The outcome of `describe_instances`: the reservations, or the text of the exception it raised. */
  datatype Described = Described(reservations: seq<Reservation>) | DescribeFailed(error: string)

  /** The instances of all reservations, in the order the nested loops visit them. */
  function Flatten(reservations: seq<Reservation>): (instances: seq<Instance>)
    ensures |reservations| == 0 ==> instances == []
  {
    if |reservations| == 0 then []
    else Flatten(reservations[..|reservations| - 1]) + reservations[|reservations| - 1]
  }

  /** Visiting reservation `i` after the first `i` appends exactly its instances. */
  lemma FlattenStep(reservations: seq<Reservation>, i: nat)
    requires i < |reservations|
    ensures Flatten(reservations[..i + 1]) == Flatten(reservations[..i]) + reservations[i]
  {
    assert reservations[..i + 1][..i] == reservations[..i];
  }

  /** Every instance of every reservation appears in the flattened list, and nothing else. */
  lemma {:induction false} FlattenMembers(reservations: seq<Reservation>, x: Instance)
    ensures x in Flatten(reservations) <==> exists r :: r in reservations && x in r
  {
    if |reservations| > 0 {
      var init := reservations[..|reservations| - 1];
      var last := reservations[|reservations| - 1];
      FlattenMembers(init, x);
      assert reservations == init + [last];
      if x in last {
        assert last in reservations;
      }
      if exists r :: r in reservations && x in r {
        var r :| r in reservations && x in r;
        if r != last {
          assert r in init;
        }
      }
    }
  }

  /**
   * The region of an availability zone: the zone with its last character dropped,
   * as Python's `zone[:-1]`, which is the empty string for an empty zone.
   */
  function RegionOf(zone: string): (region: string)
    ensures |zone| == 0 ==> region == ""
    ensures |zone| > 0 ==> region + [zone[|zone| - 1]] == zone
  {
    if |zone| == 0 then "" else zone[..|zone| - 1]
  }

  /**
   * The instances whose metrics lookup produced a value (`if metrics:` in the source,
   * where a lookup that failed returned `None`), each paired with that value, in visiting order.
   */
  function Observed<M>(instances: seq<Instance>, lookup: string -> Option<M>): (obs: seq<(Instance, M)>)
    ensures |obs| <= |instances|
  {
    if |instances| == 0 then []
    else
      var last := instances[|instances| - 1];
      var prefix := Observed(instances[..|instances| - 1], lookup);
      match lookup(last.instanceId)
      case None => prefix
      case Some(m) => prefix + [(last, m)]
  }

  /** Observing a concatenation observes each part in turn: the filter keeps order and treats each instance alone. */
  lemma {:induction false} ObservedAppend<M>(a: seq<Instance>, b: seq<Instance>, lookup: string -> Option<M>)
    ensures Observed(a + b, lookup) == Observed(a, lookup) + Observed(b, lookup)
    decreases |b|
  {
    if |b| == 0 {
      assert a + b == a;
    } else {
      var b' := b[..|b| - 1];
      assert (a + b)[..|a + b| - 1] == a + b';
      assert (a + b)[|a + b| - 1] == b[|b| - 1];
      ObservedAppend(a, b', lookup);
    }
  }

  /** One instance contributes one entry when its lookup succeeded and none when it failed. */
  lemma ObservedOne<M>(x: Instance, lookup: string -> Option<M>)
    ensures lookup(x.instanceId).None? ==> Observed([x], lookup) == []
    ensures lookup(x.instanceId).Some? ==> Observed([x], lookup) == [(x, lookup(x.instanceId).value)]
  {
    assert [x][..0] == [];
  }

  /** An entry is observed exactly when its instance was visited and its lookup gave that value. */
  lemma {:induction false} ObservedMembers<M>(instances: seq<Instance>, lookup: string -> Option<M>, x: Instance, m: M)
    ensures (x, m) in Observed(instances, lookup) <==> x in instances && lookup(x.instanceId) == Some(m)
  {
    if |instances| > 0 {
      var init := instances[..|instances| - 1];
      ObservedMembers(init, lookup, x, m);
      assert instances == init + [instances[|instances| - 1]];
    }
  }
}
