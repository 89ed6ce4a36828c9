/**
 * Impulses applied to a collection of bodies, as values: applying an impulse
 * to body `id` is `AddImpulseAtPosition` on that body and nothing else, and
 * the total linear momentum of the collection changes by exactly the impulse.
 * Both collision resolvers are specified in these terms.
 */
module Impulses {
  import opened Vec
  import opened Body

  /** One `AddImpulseAtPosition(impulse, at)` call on body `bodyId`. */
  datatype Impulse = Impulse(bodyId: int, impulse: Vec3, at: Vec3)

  predicate Targets(states: seq<State>, imps: seq<Impulse>)
  {
    forall k :: 0 <= k < |imps| ==> 0 <= imps[k].bodyId < |states|
  }

  function ApplyImpulse(states: seq<State>, imp: Impulse): (r: seq<State>)
    requires 0 <= imp.bodyId < |states|
    ensures |r| == |states|
  {
    states[imp.bodyId := ImpulseAddedAt(states[imp.bodyId], imp.impulse, imp.at)]
  }

  /** The impulses applied one after the other, first to last. */
  function ApplyImpulses(states: seq<State>, imps: seq<Impulse>): (r: seq<State>)
    requires Targets(states, imps)
    ensures |r| == |states|
    decreases |imps|
  {
    if imps == [] then states
    else ApplyImpulses(ApplyImpulse(states, imps[0]), imps[1..])
  }

  /** Vector sum of the impulses. */
  function ImpulseSum(imps: seq<Impulse>): Vec3
    decreases |imps|
  {
    if imps == [] then Zero else Add(imps[0].impulse, ImpulseSum(imps[1..]))
  }

  /** Sum of the linear momenta of all bodies. */
  function TotalMomentum(states: seq<State>): Vec3
    decreases |states|
  {
    if states == [] then Zero
    else Add(TotalMomentum(states[..|states| - 1]), states[|states| - 1].linearMomentum)
  }

  /** Replacing one body's state changes the total by the change of its momentum. */
  lemma {:induction false} TotalMomentumUpdate(states: seq<State>, j: int, s: State)
    requires 0 <= j < |states|
    ensures TotalMomentum(states[j := s])
         == Add(TotalMomentum(states), Sub(s.linearMomentum, states[j].linearMomentum))
    decreases |states|
  {
    var n := |states|;
    var updated := states[j := s];
    assert updated[..n - 1] == if j == n - 1 then states[..n - 1] else states[..n - 1][j := s];
    if j < n - 1 {
      TotalMomentumUpdate(states[..n - 1], j, s);
    }
  }

  /**
   * An impulse changes the total linear momentum by exactly the impulse, and
   * changes nothing of any body but the momenta of its target.
   */
  lemma ApplyImpulseEffect(states: seq<State>, imp: Impulse)
    requires 0 <= imp.bodyId < |states|
    ensures TotalMomentum(ApplyImpulse(states, imp)) == Add(TotalMomentum(states), imp.impulse)
    ensures forall k :: 0 <= k < |states| && k != imp.bodyId ==> ApplyImpulse(states, imp)[k] == states[k]
  {
    var s := ImpulseAddedAt(states[imp.bodyId], imp.impulse, imp.at);
    TotalMomentumUpdate(states, imp.bodyId, s);
  }

  /** A run of impulses changes the total linear momentum by their sum. */
  lemma {:induction false} ApplyImpulsesMomentum(states: seq<State>, imps: seq<Impulse>)
    requires Targets(states, imps)
    ensures TotalMomentum(ApplyImpulses(states, imps)) == Add(TotalMomentum(states), ImpulseSum(imps))
    decreases |imps|
  {
    if imps != [] {
      var next := ApplyImpulse(states, imps[0]);
      ApplyImpulseEffect(states, imps[0]);
      ApplyImpulsesMomentum(next, imps[1..]);
    }
  }

  /** Applying two runs is applying their concatenation. */
  lemma {:induction false} ApplyImpulsesAppend(states: seq<State>, a: seq<Impulse>, b: seq<Impulse>)
    requires Targets(states, a) && Targets(states, b)
    ensures Targets(states, a + b)
    ensures ApplyImpulses(states, a + b) == ApplyImpulses(ApplyImpulses(states, a), b)
    decreases |a|
  {
    if a == [] {
      assert a + b == b;
    } else {
      assert (a + b)[0] == a[0] && (a + b)[1..] == a[1..] + b;
      ApplyImpulsesAppend(ApplyImpulse(states, a[0]), a[1..], b);
    }
  }

  /** The sum of a concatenation is the sum of the sums. */
  lemma {:induction false} ImpulseSumAppend(a: seq<Impulse>, b: seq<Impulse>)
    ensures ImpulseSum(a + b) == Add(ImpulseSum(a), ImpulseSum(b))
    decreases |a|
  {
    if a == [] {
      assert a + b == b;
    } else {
      assert (a + b)[0] == a[0] && (a + b)[1..] == a[1..] + b;
      ImpulseSumAppend(a[1..], b);
      var x, y, z := a[0].impulse, ImpulseSum(a[1..]), ImpulseSum(b);
      assert Add(x, Add(y, z)) == Add(Add(x, y), z);
    }
  }

  /** A body that no impulse targets keeps its state. */
  lemma {:induction false} UntargetedUnchanged(states: seq<State>, imps: seq<Impulse>, j: int)
    requires Targets(states, imps) && 0 <= j < |states|
    requires forall k :: 0 <= k < |imps| ==> imps[k].bodyId != j
    ensures ApplyImpulses(states, imps)[j] == states[j]
    decreases |imps|
  {
    if imps != [] {
      ApplyImpulseEffect(states, imps[0]);
      UntargetedUnchanged(ApplyImpulse(states, imps[0]), imps[1..], j);
    }
  }

  /**
   * Impulses touch only momenta: every other field of every body, position,
   * orientation, velocity, spin and the accumulators, is as it was.
   */
  lemma {:induction false} OnlyMomentaChange(states: seq<State>, imps: seq<Impulse>, j: int)
    requires Targets(states, imps) && 0 <= j < |states|
    ensures var r := ApplyImpulses(states, imps)[j];
      r == states[j].(linearMomentum := r.linearMomentum, angularMomentum := r.angularMomentum)
    decreases |imps|
  {
    if imps != [] {
      OnlyMomentaChange(ApplyImpulse(states, imps[0]), imps[1..], j);
    }
  }

  /** The states of a sequence of bodies. */
  function States(bodies: seq<RigidBody>): (r: seq<State>)
    reads bodies
    ensures |r| == |bodies|
    ensures forall j :: 0 <= j < |bodies| ==> r[j] == bodies[j].Snapshot()
  {
    seq(|bodies|, j reads bodies requires 0 <= j < |bodies| => bodies[j].Snapshot())
  }

  /** The matrices last handed to the bodies' transform nodes. */
  ghost function Transforms(bodies: seq<RigidBody>): (r: seq<seq<real>>)
    reads bodies
    ensures |r| == |bodies|
    ensures forall j :: 0 <= j < |bodies| ==> r[j] == bodies[j].transform
  {
    seq(|bodies|, j reads bodies requires 0 <= j < |bodies| => bodies[j].transform)
  }

}
