/**
 * Properties of sequences of configuration operations: what repeated edits of the sequential-call
 * list produce, that those edits are inert while sequential call is off, and that the routing
 * select list always leaves the chosen mode as the reported routing type.
 */
module RoutingProperties {
  import opened Wrappers
  import opened Configurations

  /** `k` copies of one operation. */
  function Repeat(op: Operation, k: nat): (ops: seq<Operation>)
    ensures |ops| == k && forall i :: 0 <= i < k ==> ops[i] == op
  {
    if k == 0 then [] else [op] + Repeat(op, k - 1)
  }

  function Min(a: int, b: int): int { if a <= b then a else b }

  function Max(a: int, b: int): int { if a <= b then b else a }

  /**
   * Adding numbers `k` times in sequential-call mode extends a pool prefix up to the whole pool
   * and then stops; nothing but the number list changes.
   */
  lemma {:induction false} RepeatedAdd(d: ConfigurationData, k: nat)
    requires d.isSequentialCallEnabled && d.NumbersFromPool()
    ensures var r := ApplyAll(Repeat(AddSequentialCallNumber, k), d);
      r.sequentialCallNumbers == DemoSeqCallNumbers[..Min(|d.sequentialCallNumbers| + k, |DemoSeqCallNumbers|)] &&
      r.(sequentialCallNumbers := d.sequentialCallNumbers) == d
    decreases k
  {
    if k > 0 {
      var ops := Repeat(AddSequentialCallNumber, k);
      assert ops[1..] == Repeat(AddSequentialCallNumber, k - 1);
      var next := d.AddSequentialCallNumber();
      var n := |d.sequentialCallNumbers|;
      if n < |DemoSeqCallNumbers| {
        assert next.sequentialCallNumbers == DemoSeqCallNumbers[..n + 1];
      }
      RepeatedAdd(next, k - 1);
    }
  }

  /** Pressing "add number" five times on an empty list in sequential-call mode gives the three pool numbers. */
  lemma AddFiveTimesFromEmpty(d: ConfigurationData)
    requires d.isSequentialCallEnabled && d.sequentialCallNumbers == []
    ensures ApplyAll(Repeat(AddSequentialCallNumber, 5), d).sequentialCallNumbers == DemoSeqCallNumbers
    ensures |ApplyAll(Repeat(AddSequentialCallNumber, 5), d).sequentialCallNumbers| == 3
  {
    RepeatedAdd(d, 5);
  }

  /** Removing numbers `k` times in sequential-call mode drops up to `k` numbers from the end and no more. */
  lemma {:induction false} RepeatedRemove(d: ConfigurationData, k: nat)
    requires d.isSequentialCallEnabled
    ensures var r := ApplyAll(Repeat(RemoveSequentialCallNumber, k), d);
      r.sequentialCallNumbers == d.sequentialCallNumbers[..Max(|d.sequentialCallNumbers| - k, 0)] &&
      r.(sequentialCallNumbers := d.sequentialCallNumbers) == d
    decreases k
  {
    if k > 0 {
      var ops := Repeat(RemoveSequentialCallNumber, k);
      assert ops[1..] == Repeat(RemoveSequentialCallNumber, k - 1);
      var next := d.RemoveSequentialCallNumber();
      assert ApplyAll(ops, d) == ApplyAll(ops[1..], next);
      RepeatedRemove(next, k - 1);
      assert next.(sequentialCallNumbers := d.sequentialCallNumbers) == d;
    }
  }

  /** The "add number" and "remove number" operations. */
  predicate IsNumberEdit(op: Operation)
  {
    op == AddSequentialCallNumber || op == RemoveSequentialCallNumber
  }

  /** While sequential call is off, any run of number edits leaves the configuration as it was. */
  lemma {:induction false} NumberEditsNeedSequentialMode(ops: seq<Operation>, d: ConfigurationData)
    requires !d.isSequentialCallEnabled
    requires forall i :: 0 <= i < |ops| ==> IsNumberEdit(ops[i])
    ensures ApplyAll(ops, d) == d
  {
    if ops != [] {
      assert IsNumberEdit(ops[0]);
      NumberEditsNeedSequentialMode(ops[1..], d);
    }
  }

  /**
   * Choosing a value in the routing select list (a change, so not the value currently shown) from a
   * configuration with at most one mode on leaves exactly that mode as the routing type, or none
   * for any value that is not a mode name.
   */
  lemma SelectSetsRoutingType(value: string, d: ConfigurationData)
    requires d.ModesExclusive() && d.CallRoutingType() != Some(value)
    ensures var r := Apply(SelectOperation(value), d);
      r.ModesExclusive() &&
      r.CallRoutingType() ==
        (if value in {PhoneTreeName, CallForwardingName, SequentialCallName, SipName} then Some(value) else None)
  {
  }

  /** The two independent flags are plain switches: toggling twice restores the configuration. */
  lemma ToggleTwiceRestores(d: ConfigurationData)
    ensures d.ToggleManagersAllowedToGetCall().ToggleManagersAllowedToGetCall() == d
    ensures d.ToggleCallRecordingEnabled().ToggleCallRecordingEnabled() == d
  {
  }

  /** Whatever the user does from the initial screen, at most one mode is on and the numbers come from the pool. */
  lemma ReachableConfigurationsAreConsistent(ops: seq<Operation>)
    ensures ApplyAll(ops, DefaultConfiguration).ModesExclusive()
    ensures ApplyAll(ops, DefaultConfiguration).NumbersFromPool()
  {
  }
}
