/**
 One iteration of the monitor's main loop: the gauge updates of the enabled
 families, in a fixed order, followed by a sleep of the configured length.
 The updates themselves are opaque; a family stands for its update.
 */
module Dispatch {
  import opened Config

  /** The order in which the loop tests the families. */
  const FamilyOrder: seq<Family> :=
    [Cpu, Memory, Disk, Network, Processes, ContextSwitches, Fragmentation, Policies]

  /** The position of `f` in `FamilyOrder`. */
  function Rank(f: Family): nat
  {
    match f
    case Cpu => 0
    case Memory => 1
    case Disk => 2
    case Network => 3
    case Processes => 4
    case ContextSwitches => 5
    case Fragmentation => 6
    case Policies => 7
  }

  /** Every element comes strictly later in `FamilyOrder` than the one before
      it; in particular no family occurs twice. */
  predicate InFamilyOrder(s: seq<Family>)
  {
    forall i, j :: 0 <= i < j < |s| ==> Rank(s[i]) < Rank(s[j])
  }

  /** The update of `f` when its flag is on, nothing otherwise. */
  function UpdateIf(c: Config, f: Family): seq<Family>
  {
    if Enabled(c, f) then [f] else []
  }

  /** The enabled families of `fams`, in the order of `fams`. */
  function EnabledAmong(c: Config, fams: seq<Family>): (r: seq<Family>)
    ensures forall f :: f in r <==> f in fams && Enabled(c, f)
  {
    if |fams| == 0 then [] else UpdateIf(c, fams[0]) + EnabledAmong(c, fams[1..])
  }

  /** Selecting the enabled families keeps the fixed order. */
  lemma {:induction false} EnabledAmongKeepsOrder(c: Config, fams: seq<Family>)
    requires InFamilyOrder(fams)
    ensures InFamilyOrder(EnabledAmong(c, fams))
    decreases |fams|
  {
    if |fams| > 0 {
      var tail := fams[1..];
      assert InFamilyOrder(tail) by {
        forall i, j | 0 <= i < j < |tail| ensures Rank(tail[i]) < Rank(tail[j]) {
          assert tail[i] == fams[i + 1] && tail[j] == fams[j + 1];
        }
      }
      EnabledAmongKeepsOrder(c, tail);
      var rest := EnabledAmong(c, tail);
      forall f | f in rest ensures Rank(fams[0]) < Rank(f) {
        var k :| 0 <= k < |tail| && tail[k] == f;
        assert fams[k + 1] == f;
      }
      if Enabled(c, fams[0]) {
        PrependKeepsOrder(fams[0], rest);
      }
    }
  }

  /** A family ranked before every element of an ordered sequence can be
      put in front of it. */
  lemma PrependKeepsOrder(f: Family, s: seq<Family>)
    requires InFamilyOrder(s)
    requires forall g :: g in s ==> Rank(f) < Rank(g)
    ensures InFamilyOrder([f] + s)
  {
    var r := [f] + s;
    forall i, j | 0 <= i < j < |r| ensures Rank(r[i]) < Rank(r[j]) {
      assert r[j] == s[j - 1];
      if i > 0 {
        assert r[i] == s[i - 1];
      }
    }
  }

  /** Testing one more family at the end appends its update, if any. */
  lemma {:induction false} EnabledAmongSnoc(c: Config, fams: seq<Family>, f: Family)
    ensures EnabledAmong(c, fams + [f]) == EnabledAmong(c, fams) + UpdateIf(c, f)
    decreases |fams|
  {
    if |fams| == 0 {
      assert EnabledAmong(c, [f][1..]) == [];
    } else {
      assert (fams + [f])[1..] == fams[1..] + [f];
      EnabledAmongSnoc(c, fams[1..], f);
    }
  }

  /** Every family occurs in `FamilyOrder`, which is strictly ordered. */
  lemma FamilyOrderIsComplete()
    ensures forall f :: f in FamilyOrder
    ensures InFamilyOrder(FamilyOrder)
  {
    forall f ensures f in FamilyOrder {
      assert FamilyOrder[Rank(f)] == f;
    }
  }

  /** The updates one iteration performs: the enabled families, in the
      order the loop tests them. Each enabled family's update runs exactly
      once and a disabled family's update never runs. */
  function Dispatch(c: Config): (updates: seq<Family>)
    ensures forall f :: f in updates <==> Enabled(c, f)
    ensures InFamilyOrder(updates)
    ensures forall i, j :: 0 <= i < j < |updates| ==> updates[i] != updates[j]
  {
    FamilyOrderIsComplete();
    EnabledAmongKeepsOrder(c, FamilyOrder);
    EnabledAmong(c, FamilyOrder)
  }

  /** The flags with which the updates `updates` would have been chosen. */
  function FlagsOf(sleepTime: int, updates: seq<Family>): Config
  {
    Config(sleepTime, Cpu in updates, Memory in updates, Disk in updates, Network in updates,
           Processes in updates, ContextSwitches in updates, Fragmentation in updates,
           Policies in updates)
  }

  /** The dispatched updates record the flags exactly: reading them back
      gives the configuration again. */
  lemma FlagsOfDispatch(c: Config)
    ensures FlagsOf(c.sleepTime, Dispatch(c)) == c
  {
    var d := FlagsOf(c.sleepTime, Dispatch(c));
    assert forall f :: Enabled(d, f) == (f in Dispatch(c));
    ConfigExtensionality(d, c);
  }

  /** Two configurations with the same sleep time dispatch the same updates
      only when they have the same flags. */
  lemma DispatchInjective(c: Config, d: Config)
    requires c.sleepTime == d.sleepTime
    requires Dispatch(c) == Dispatch(d)
    ensures c == d
  {
    FlagsOfDispatch(c);
    FlagsOfDispatch(d);
  }

  /** One observable step of the loop. */
  datatype Step = Update(family: Family) | Sleep(seconds: int)

  /** The steps of one iteration: the dispatched updates, then the sleep. */
  function IterationSteps(c: Config): (steps: seq<Step>)
    ensures |steps| == |Dispatch(c)| + 1
    ensures forall i :: 0 <= i < |Dispatch(c)| ==> steps[i] == Update(Dispatch(c)[i])
    ensures steps[|steps| - 1] == Sleep(c.sleepTime)
    ensures forall f :: Update(f) in steps <==> Enabled(c, f)
  {
    var updates := Dispatch(c);
    UpdatesMentionExactly(updates);
    AsUpdates(updates) + [Sleep(c.sleepTime)]
  }

  /** `AsUpdates` mentions exactly the families it is given. */
  lemma UpdatesMentionExactly(fams: seq<Family>)
    ensures forall f :: Update(f) in AsUpdates(fams) <==> f in fams
  {
    var steps := AsUpdates(fams);
    forall f ensures Update(f) in steps <==> f in fams {
      if Update(f) in steps {
        var i :| 0 <= i < |steps| && steps[i] == Update(f);
        assert fams[i] == f;
      }
      if f in fams {
        var i :| 0 <= i < |fams| && fams[i] == f;
        assert steps[i] == Update(f);
      }
    }
  }

  /** The update steps for `fams`, in order. */
  function AsUpdates(fams: seq<Family>): (steps: seq<Step>)
    ensures |steps| == |fams|
    ensures forall i :: 0 <= i < |fams| ==> steps[i] == Update(fams[i])
  {
    seq(|fams|, i requires 0 <= i < |fams| => Update(fams[i]))
  }

  /** One pass of the loop body: each family's flag is tested in turn and
      its update runs when the flag is on; then the loop sleeps. */
  method Iteration(c: Config) returns (steps: seq<Step>)
    ensures steps == IterationSteps(c)
  {
    var updates: seq<Family> := [];
    for i := 0 to |FamilyOrder|
      invariant updates == EnabledAmong(c, FamilyOrder[..i])
    {
      var f := FamilyOrder[i];
      if Enabled(c, f) {
        updates := updates + [f];
      }
      assert FamilyOrder[..i + 1] == FamilyOrder[..i] + [f];
      EnabledAmongSnoc(c, FamilyOrder[..i], f);
    }
    assert FamilyOrder[..|FamilyOrder|] == FamilyOrder;
    steps := AsUpdates(updates) + [Sleep(c.sleepTime)];
  }

  /** The first `rounds` iterations of the endless loop. The configuration
      is never written inside the loop, so every iteration performs the same
      steps. */
  method RunLoop(c: Config, rounds: nat) returns (trace: seq<seq<Step>>)
    ensures |trace| == rounds
    ensures forall k :: 0 <= k < rounds ==> trace[k] == IterationSteps(c)
    ensures forall k, f :: 0 <= k < rounds ==> (Update(f) in trace[k] <==> Enabled(c, f))
  {
    trace := [];
    var k := 0;
    while k < rounds
      invariant k <= rounds
      invariant |trace| == k
      invariant forall j :: 0 <= j < k ==> trace[j] == IterationSteps(c)
      invariant forall j, f :: 0 <= j < k ==> (Update(f) in trace[j] <==> Enabled(c, f))
    {
      var steps := Iteration(c);
      trace := trace + [steps];
      k := k + 1;
    }
  }
}
