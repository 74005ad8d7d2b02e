/**
 The objects of a seed cluster, the calls that change them, and programs that are a list of such calls and stop at
 the first error. A call may be rejected, may succeed, or may take effect and still report an error.
 */
module ApiServer {

  datatype Kind =
    | Secret
    | ManagedResource
    | ServiceAccount
    | Role
    | RoleBinding
    | Deployment
    | VerticalPodAutoscaler
    | ConfigMap
    | NetworkPolicy
    | Ingress
    | IngressV1beta1
    | MutatingWebhookConfiguration
    | OtherKind(name: string)

  datatype Key = Key(kind: Kind, namespace: string, name: string)

  type Objects = map<Key, string>

  datatype Outcome = Done | Rejected | Lost

  /** How one call turns out: its outcome, the content it writes, and what a foreign step makes of the cluster. */
  datatype Fate = Fate(outcome: Outcome, content: string, foreign: Objects)

  datatype Step =
    | Put(key: Key)     // create or patch the object
    | Remove(key: Key)  // delete the object, absent or not
    | Compute           // a call that may fail and changes no object
    | Fail              // an error that does not depend on the cluster
    | Foreign(spared: set<Key>) // code outside this model: any change to objects that are not spared

  datatype Result = Result(objects: Objects, calls: nat, ok: bool)

  function Applied(step: Step, objects: Objects, fate: Fate): Objects {
    match step
    case Put(key) => objects[key := fate.content]
    case Remove(key) => objects - {key}
    case Compute => objects
    case Fail => objects
    case Foreign(spared) =>
      (map k | k in fate.foreign && k !in spared :: fate.foreign[k]) +
      (map k | k in objects && k in spared :: objects[k])
  }

  function RunStep(step: Step, objects: Objects, fate: Fate): (Objects, bool) {
    (if fate.outcome.Rejected? then objects else Applied(step, objects, fate), fate.outcome.Done? && !step.Fail?)
  }

  /** The steps in order, up to the first error. */
  function Run(steps: seq<Step>, objects: Objects, script: nat -> Fate, calls: nat): Result {
    if steps == [] then Result(objects, calls, true)
    else
      var (next, ok) := RunStep(steps[0], objects, script(calls));
      if ok then Run(steps[1..], next, script, calls + 1) else Result(next, calls + 1, false)
  }

  /** A cluster: its objects, and how its future calls will turn out. */
  class Cluster {
    var objects: Objects
    var calls: nat
    const script: nat -> Fate

    constructor (objects: Objects, script: nat -> Fate)
      ensures this.objects == objects && this.calls == 0 && this.script == script
    {
      this.objects, this.calls, this.script := objects, 0, script;
    }

    /** The state after a call that returned `ok`. */
    function After(ok: bool): Result
      reads this
    {
      Result(objects, calls, ok)
    }

    method Call(step: Step) returns (ok: bool)
      modifies this
      ensures After(ok) == Run([step], old(objects), script, old(calls))
    {
      var fate := script(calls);
      if !fate.outcome.Rejected? {
        objects := Applied(step, objects, fate);
      }
      calls := calls + 1;
      ok := fate.outcome.Done? && !step.Fail?;
      assert [step][1..] == [];
    }

    /** Calls in a row, up to the first error. */
    method CallAll(steps: seq<Step>) returns (ok: bool)
      modifies this
      ensures After(ok) == Run(steps, old(objects), script, old(calls))
    {
      var i := 0;
      while i < |steps|
        invariant 0 <= i <= |steps|
        invariant Run(steps, old(objects), script, old(calls)) == Run(steps[i..], objects, script, calls)
      {
        assert steps[i..] == [steps[i]] + steps[i + 1..];
        RunAppend([steps[i]], steps[i + 1..], objects, script, calls);
        ok := Call(steps[i]);
        if !ok {
          return;
        }
        i := i + 1;
      }
      ok := true;
    }

    /** `kutil.DeleteObjects` */
    method DeleteObjects(keys: seq<Key>) returns (ok: bool)
      modifies this
      ensures After(ok) == Run(Removes(keys), old(objects), script, old(calls))
    {
      ok := CallAll(Removes(keys));
    }
  }

  function Removes(keys: seq<Key>): seq<Step> {
    if keys == [] then [] else [Remove(keys[0])] + Removes(keys[1..])
  }

  lemma {:induction false} RunAppend(a: seq<Step>, b: seq<Step>, objects: Objects, script: nat -> Fate, calls: nat)
    ensures
      var r := Run(a, objects, script, calls);
      Run(a + b, objects, script, calls) == if r.ok then Run(b, r.objects, script, r.calls) else r
  {
    if a == [] {
      assert a + b == b;
    } else {
      var (next, ok) := RunStep(a[0], objects, script(calls));
      if ok {
        RunAppend(a[1..], b, next, script, calls + 1);
      }
      assert (a + b)[0] == a[0] && (a + b)[1..] == a[1..] + b;
    }
  }

  /** Call `n` is one of these steps' calls, and it is done. */
  predicate Goes(steps: seq<Step>, script: nat -> Fate, calls: nat, n: nat) {
    calls <= n < calls + |steps| && script(n).outcome == Done && steps[n - calls] != Fail
  }

  /** A run goes through exactly when every call is done; otherwise it ends with the first that is not. */
  lemma {:induction false} RunStops(steps: seq<Step>, objects: Objects, script: nat -> Fate, calls: nat)
    ensures
      var r := Run(steps, objects, script, calls);
      && calls <= r.calls <= calls + |steps|
      && (r.ok <==> forall n: nat :: calls <= n < calls + |steps| ==> Goes(steps, script, calls, n))
      && (r.ok ==> r.calls == calls + |steps|)
      && (!r.ok ==> calls < r.calls && !Goes(steps, script, calls, r.calls - 1))
  {
    if steps != [] {
      var (next, ok) := RunStep(steps[0], objects, script(calls));
      assert ok <==> Goes(steps, script, calls, calls);
      if ok {
        var (rest, from) := (steps[1..], calls + 1);
        RunStops(rest, next, script, from);
        if n: nat :| from <= n < from + |rest| && !Goes(rest, script, from, n) {
          assert !Goes(steps, script, calls, n);
        } else {
          assert forall n: nat :: Goes(rest, script, from, n) ==> Goes(steps, script, calls, n);
        }
      }
    }
  }

  /** A call that is rejected changes nothing; one that is lost takes effect although it reports an error. */
  lemma OneCall(step: Step, objects: Objects, script: nat -> Fate, calls: nat)
    ensures
      var (r, fate) := (Run([step], objects, script, calls).objects, script(calls));
      if fate.outcome == Rejected || step == Compute || step == Fail then r == objects
      else if step.Put? then r == objects[step.key := fate.content]
      else if step.Remove? then r == objects - {step.key}
      else forall k :: k in r <==> if k in step.spared then k in objects else k in fate.foreign
  {
    assert [step][1..] == [];
  }

  // What a list of steps leaves behind

  /** The step neither writes nor deletes the key. */
  predicate Spares(step: Step, key: Key) {
    match step
    case Put(k) => k != key
    case Remove(k) => k != key
    case Compute => true
    case Fail => true
    case Foreign(spared) => key in spared
  }

  /** Same presence and same content. */
  ghost predicate SameAt(a: Objects, b: Objects, key: Key) {
    (key in a <==> key in b) && (key in a ==> a[key] == b[key])
  }

  /** A key that every step spares is as it was, wherever an error stopped the run. */
  lemma {:induction false} RunSpares(steps: seq<Step>, objects: Objects, script: nat -> Fate, calls: nat, key: Key)
    requires forall step :: step in steps ==> Spares(step, key)
    ensures SameAt(Run(steps, objects, script, calls).objects, objects, key)
  {
    if steps != [] {
      assert steps[0] in steps;
      var (next, ok) := RunStep(steps[0], objects, script(calls));
      assert SameAt(next, objects, key);
      if ok {
        RunSpares(steps[1..], next, script, calls + 1, key);
      }
    }
  }

  /** The keys that a list of steps puts or removes. */
  function PutKeys(steps: seq<Step>): set<Key> {
    set step | step in steps && step.Put? :: step.key
  }

  function RemoveKeys(steps: seq<Step>): set<Key> {
    set step | step in steps && step.Remove? :: step.key
  }

  ghost predicate OnlyPuts(steps: seq<Step>) {
    forall step :: step in steps ==> step.Put? || step.Compute?
  }

  ghost predicate OnlyRemoves(steps: seq<Step>) {
    forall step :: step in steps ==> step.Remove?
  }

  lemma {:induction false} RemovesKeys(keys: seq<Key>)
    ensures OnlyRemoves(Removes(keys))
    ensures forall step :: step in Removes(keys) <==> step.Remove? && step.key in keys
    ensures RemoveKeys(Removes(keys)) == set k | k in keys
  {
    if keys != [] {
      RemovesKeys(keys[1..]);
      assert forall k :: k in keys <==> k == keys[0] || k in keys[1..];
      assert forall step :: step in Removes(keys) <==> step == Remove(keys[0]) || step in Removes(keys[1..]);
    }
    assert forall k :: k in keys ==> Remove(k) in Removes(keys);
  }

  /** Deleting without error leaves exactly the other objects. */
  lemma {:induction false} RemovesAll(steps: seq<Step>, objects: Objects, script: nat -> Fate, calls: nat)
    requires OnlyRemoves(steps) && Run(steps, objects, script, calls).ok
    ensures Run(steps, objects, script, calls).objects == objects - RemoveKeys(steps)
  {
    if steps != [] {
      assert steps[0] in steps;
      var next := objects - {steps[0].key};
      RemovesAll(steps[1..], next, script, calls + 1);
      assert forall step :: step in steps <==> step == steps[0] || step in steps[1..];
      assert RemoveKeys(steps) == {steps[0].key} + RemoveKeys(steps[1..]);
    }
  }

  lemma {:induction false} PutsGrow(steps: seq<Step>, objects: Objects, script: nat -> Fate, calls: nat)
    requires OnlyPuts(steps)
    ensures objects.Keys <= Run(steps, objects, script, calls).objects.Keys
    ensures Run(steps, objects, script, calls).ok ==> PutKeys(steps) <= Run(steps, objects, script, calls).objects.Keys
  {
    if steps != [] {
      assert steps[0] in steps;
      var (next, ok) := RunStep(steps[0], objects, script(calls));
      if ok {
        PutsGrow(steps[1..], next, script, calls + 1);
        assert forall step :: step in steps <==> step == steps[0] || step in steps[1..];
      }
    }
  }

  /** Puts touch no other key, delete nothing, and without error leave every key there. */
  lemma {:induction false} PutsEffect(steps: seq<Step>, objects: Objects, script: nat -> Fate, calls: nat)
    requires OnlyPuts(steps)
    ensures
      var r := Run(steps, objects, script, calls);
      && objects.Keys <= r.objects.Keys && (r.ok ==> PutKeys(steps) <= r.objects.Keys)
      && forall key :: key !in PutKeys(steps) ==> SameAt(r.objects, objects, key)
  {
    PutsGrow(steps, objects, script, calls);
    forall key | key !in PutKeys(steps) ensures SameAt(Run(steps, objects, script, calls).objects, objects, key) {
      RunSpares(steps, objects, script, calls, key);
    }
  }

  /** Deletes touch no other key, and without error leave exactly the other objects. */
  lemma {:induction false} RemovesEffect(steps: seq<Step>, objects: Objects, script: nat -> Fate, calls: nat)
    requires OnlyRemoves(steps)
    ensures
      var r := Run(steps, objects, script, calls);
      && (r.ok ==> r.objects == objects - RemoveKeys(steps))
      && forall key :: key !in RemoveKeys(steps) ==> SameAt(r.objects, objects, key)
  {
    if Run(steps, objects, script, calls).ok {
      RemovesAll(steps, objects, script, calls);
    }
    forall key | key !in RemoveKeys(steps) ensures SameAt(Run(steps, objects, script, calls).objects, objects, key) {
      RunSpares(steps, objects, script, calls, key);
    }
  }

  /**
   A destroy that succeeds undoes a deploy that an error stopped anywhere, or nowhere: none of the destroyed keys
   is left and every other object is as it was before the deploy.
   */
  lemma DestroyUndoes(deploy: seq<Step>, destroy: seq<Step>, objects: Objects, script: nat -> Fate, calls: nat)
    requires OnlyPuts(deploy) && OnlyRemoves(destroy) && PutKeys(deploy) <= RemoveKeys(destroy)
    ensures
      var deployed := Run(deploy, objects, script, calls);
      var destroyed := Run(destroy, deployed.objects, script, deployed.calls);
      destroyed.ok ==> destroyed.objects == objects - RemoveKeys(destroy)
  {
    var deployed := Run(deploy, objects, script, calls);
    PutsEffect(deploy, objects, script, calls);
    RemovesEffect(destroy, deployed.objects, script, deployed.calls);
    assert forall key :: key !in RemoveKeys(destroy) ==> SameAt(deployed.objects, objects, key);
  }
}
