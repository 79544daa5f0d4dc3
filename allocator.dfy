/**
 * The workload allocator (src/workload_allocator.py): gather an energy figure for every running
 * instance whose metrics lookup succeeds, then allocate to the candidate with the smallest
 * figure, the earliest one on ties; and the scale-out threshold test.
 */
module Allocator {
  import opened Wrappers
  import opened Ec2

  /** An entry of `instance_metrics`: an instance id and its energy figure. */
  datatype Candidate = Candidate(instanceId: string, energyConsumption: real)

  /**
   * `get_instance_energy_metrics` seen from the allocator: an instance's energy figure, or
   * `None` when the metrics call raised.
   */
  type EnergyLookup = string -> Option<real>

  /** The dictionary `allocate_workload` returns. */
  datatype Allocation =
    | Success(allocatedInstance: string, energyConsumption: real)
    | Error(message: string)

  /** The message of the error result when no instance qualifies. */
  const NoSuitableInstances: string := "No suitable instances found for workload allocation"

  // ---------------------------------------------------------------------------------------
  // Candidate list
  // ---------------------------------------------------------------------------------------

  /** The candidate list built from the visited instances, in visiting order. */
  function Candidates(instances: seq<Instance>, lookup: EnergyLookup): (candidates: seq<Candidate>)
    ensures |candidates| == |Observed(instances, lookup)|
  {
    var obs := Observed(instances, lookup);
    seq(|obs|, k requires 0 <= k < |obs| => Candidate(obs[k].0.instanceId, obs[k].1))
  }

  /** A candidate is listed exactly when some visited instance has that id and its lookup gave that figure. */
  lemma CandidatesMembers(instances: seq<Instance>, lookup: EnergyLookup, c: Candidate)
    ensures c in Candidates(instances, lookup) <==>
              exists x :: x in instances && x.instanceId == c.instanceId && lookup(x.instanceId) == Some(c.energyConsumption)
  {
    var obs := Observed(instances, lookup);
    var cs := Candidates(instances, lookup);
    if c in cs {
      var k :| 0 <= k < |cs| && cs[k] == c;
      ObservedMembers(instances, lookup, obs[k].0, obs[k].1);
    }
    if exists x :: x in instances && x.instanceId == c.instanceId && lookup(x.instanceId) == Some(c.energyConsumption) {
      var x :| x in instances && x.instanceId == c.instanceId && lookup(x.instanceId) == Some(c.energyConsumption);
      ObservedMembers(instances, lookup, x, c.energyConsumption);
      var k :| 0 <= k < |obs| && obs[k] == (x, c.energyConsumption);
      assert cs[k] == c;
    }
  }

  /** One more visited instance adds one candidate when its lookup succeeded and none otherwise. */
  lemma CandidatesStep(instances: seq<Instance>, x: Instance, lookup: EnergyLookup)
    ensures lookup(x.instanceId).None? ==> Candidates(instances + [x], lookup) == Candidates(instances, lookup)
    ensures lookup(x.instanceId).Some? ==>
              Candidates(instances + [x], lookup) ==
              Candidates(instances, lookup) + [Candidate(x.instanceId, lookup(x.instanceId).value)]
  {
    ObservedAppend(instances, [x], lookup);
    ObservedOne(x, lookup);
  }

  /** The inner loop of `allocate_workload`'s gathering phase: the instances of one reservation. */
  method GatherReservation(visited: seq<Instance>, reservation: Reservation, lookup: EnergyLookup, candidatesIn: seq<Candidate>)
    returns (instanceMetrics: seq<Candidate>)
    requires candidatesIn == Candidates(visited, lookup)
    ensures instanceMetrics == Candidates(visited + reservation, lookup)
  {
    instanceMetrics := candidatesIn;
    var i := 0;
    assert visited + reservation[..0] == visited;
    while i < |reservation|
      invariant 0 <= i <= |reservation|
      invariant instanceMetrics == Candidates(visited + reservation[..i], lookup)
    {
      var instance := reservation[i];
      var metrics := lookup(instance.instanceId);
      CandidatesStep(visited + reservation[..i], instance, lookup);
      assert visited + reservation[..i + 1] == visited + reservation[..i] + [instance];
      if metrics.Some? {
        instanceMetrics := instanceMetrics + [Candidate(instance.instanceId, metrics.value)];
      }
      i := i + 1;
    }
    assert reservation[..i] == reservation;
  }

  /** The gathering loops of `allocate_workload`: every instance of every reservation whose lookup succeeds. */
  method GatherCandidates(reservations: seq<Reservation>, lookup: EnergyLookup) returns (instanceMetrics: seq<Candidate>)
    ensures instanceMetrics == Candidates(Flatten(reservations), lookup)
  {
    instanceMetrics := [];
    var r := 0;
    while r < |reservations|
      invariant 0 <= r <= |reservations|
      invariant instanceMetrics == Candidates(Flatten(reservations[..r]), lookup)
    {
      instanceMetrics := GatherReservation(Flatten(reservations[..r]), reservations[r], lookup, instanceMetrics);
      FlattenStep(reservations, r);
      r := r + 1;
    }
    assert reservations[..r] == reservations;
  }

  // ---------------------------------------------------------------------------------------
  // Selection
  // ---------------------------------------------------------------------------------------

  /** Index `k` holds a minimum figure and every earlier candidate's figure is strictly larger. */
  predicate IsFirstMinimum(candidates: seq<Candidate>, k: int)
  {
    && 0 <= k < |candidates|
    && (forall j :: 0 <= j < |candidates| ==> candidates[k].energyConsumption <= candidates[j].energyConsumption)
    && (forall j :: 0 <= j < k ==> candidates[k].energyConsumption < candidates[j].energyConsumption)
  }

  /**
   * The index `min(candidates, key=energy)` picks: scanning left to right, the running best is
   * replaced only by a strictly smaller figure, so the first of equal minima wins.
   */
  function FirstMinIndex(candidates: seq<Candidate>): (k: nat)
    requires |candidates| > 0
    ensures IsFirstMinimum(candidates, k)
  {
    if |candidates| == 1 then 0
    else
      var best := FirstMinIndex(candidates[..|candidates| - 1]);
      if candidates[|candidates| - 1].energyConsumption < candidates[best].energyConsumption
      then |candidates| - 1
      else best
  }

  /** A first minimum is strictly below every candidate before it. */
  lemma FirstMinimumBefore(candidates: seq<Candidate>, k: int, i: int)
    requires IsFirstMinimum(candidates, k) && 0 <= i < k
    ensures candidates[k].energyConsumption < candidates[i].energyConsumption
  {
  }

  /** There is only one first minimum, so the tie rule fixes the choice. */
  lemma FirstMinimumUnique(candidates: seq<Candidate>, k1: int, k2: int)
    requires IsFirstMinimum(candidates, k1) && IsFirstMinimum(candidates, k2)
    ensures k1 == k2
  {
    if k1 < k2 {
      FirstMinimumBefore(candidates, k2, k1);
      assert false;
    } else if k2 < k1 {
      FirstMinimumBefore(candidates, k1, k2);
      assert false;
    }
  }

  /**
   * The decision of `allocate_workload`: the first minimum-energy candidate with its own figure,
   * or the error result when there is no candidate.
   */
  function Select(candidates: seq<Candidate>): (result: Allocation)
    ensures result.Error? <==> |candidates| == 0
    ensures result.Error? ==> result.message == NoSuitableInstances
    ensures result.Success? ==>
              exists k :: && IsFirstMinimum(candidates, k)
                          && result.allocatedInstance == candidates[k].instanceId
                          && result.energyConsumption == candidates[k].energyConsumption
  {
    if |candidates| == 0 then Error(NoSuitableInstances)
    else
      var best := candidates[FirstMinIndex(candidates)];
      Success(best.instanceId, best.energyConsumption)
  }

  /** The allocated figure is no larger than any candidate's figure. */
  lemma SelectIsMinimal(candidates: seq<Candidate>, c: Candidate)
    requires c in candidates
    ensures Select(candidates).Success?
    ensures Select(candidates).energyConsumption <= c.energyConsumption
  {
  }

  /** The tie example: of ten, five and five, the first five wins. */
  lemma SelectExample()
    ensures Select([Candidate("a", 10.0), Candidate("b", 5.0), Candidate("c", 5.0)]) == Success("b", 5.0)
  {
    var cs := [Candidate("a", 10.0), Candidate("b", 5.0), Candidate("c", 5.0)];
    assert IsFirstMinimum(cs, 1);
    FirstMinimumUnique(cs, 1, FirstMinIndex(cs));
  }

  /**
   * `allocate_workload`: gather the candidates, then select; when `describe_instances` raised,
   * the error result carries that exception's text. The workload dictionary is accepted and
   * never consulted, so the decision is the same for every workload.
   */
  method AllocateWorkload<W>(workload: W, described: Described, lookup: EnergyLookup) returns (result: Allocation)
    ensures described.DescribeFailed? ==> result == Error(described.error)
    ensures described.Described? ==> result == Select(Candidates(Flatten(described.reservations), lookup))
  {
    if described.DescribeFailed? {
      return Error(described.error);
    }
    var instanceMetrics := GatherCandidates(described.reservations, lookup);
    if |instanceMetrics| > 0 {
      var best := instanceMetrics[FirstMinIndex(instanceMetrics)];
      result := Success(best.instanceId, best.energyConsumption);
    } else {
      result := Error(NoSuitableInstances);
    }
  }

  /**
   * The allocation is a visited instance whose lookup succeeded with the reported figure, and no
   * instance whose lookup succeeded has a smaller figure; with no such instance the result is the error.
   */
  lemma AllocationFacts(instances: seq<Instance>, lookup: EnergyLookup)
    ensures var result := Select(Candidates(instances, lookup));
            && (result.Error? <==> forall x :: x in instances ==> lookup(x.instanceId).None?)
            && (result.Success? ==>
                  (exists x :: x in instances && x.instanceId == result.allocatedInstance
                               && lookup(x.instanceId) == Some(result.energyConsumption))
                  && forall x :: x in instances && lookup(x.instanceId).Some? ==>
                       result.energyConsumption <= lookup(x.instanceId).value)
  {
    var cs := Candidates(instances, lookup);
    var result := Select(cs);
    forall x | x in instances && lookup(x.instanceId).Some?
      ensures Candidate(x.instanceId, lookup(x.instanceId).value) in cs
    {
      CandidatesMembers(instances, lookup, Candidate(x.instanceId, lookup(x.instanceId).value));
    }
    if result.Success? {
      var k :| IsFirstMinimum(cs, k) && result.allocatedInstance == cs[k].instanceId
               && result.energyConsumption == cs[k].energyConsumption;
      CandidatesMembers(instances, lookup, cs[k]);
    }
  }

  // ---------------------------------------------------------------------------------------
  // Scaling
  // ---------------------------------------------------------------------------------------

  /** Whether `scale_resources` takes its scale-out branch; nothing else happens either way. */
  function ScaleOutTriggered(metrics: map<string, real>, config: map<string, real>): (triggered: bool)
    ensures "energy_threshold" in config ==>
              (triggered <==> GetOr(metrics, "energy_consumption", 0.0) > config["energy_threshold"])
    ensures "energy_threshold" !in config ==> (triggered <==> GetOr(metrics, "energy_consumption", 0.0) > 80.0)
    ensures "energy_consumption" !in metrics && "energy_threshold" !in config ==> !triggered
  {
    GetOr(metrics, "energy_consumption", 0.0) > GetOr(config, "energy_threshold", 80.0)
  }

  /** A larger reported consumption keeps the scale-out branch taken. */
  lemma ScaleOutMonotone(e1: real, e2: real, config: map<string, real>)
    requires e1 <= e2
    requires ScaleOutTriggered(map["energy_consumption" := e1], config)
    ensures ScaleOutTriggered(map["energy_consumption" := e2], config)
  {
  }
}
