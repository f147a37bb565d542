/** The camera-switch item: each click moves the camera-id preference to the
    next of its entry values, wrapping around after the last one. */
module CameraSwitch {

  import opened Preferences

  /** The index a click selects: one past the index of the current value,
      modulo the number of entry values. A current value that is not among
      the entry values has index -1 and so leads to index 0. Java's `%`
      truncates, but its left operand here is never negative, so it agrees
      with Dafny's `%`. */
  function NextCameraIndex(p: ListPref): (i: nat)
    requires |p.entryValues| > 0
    ensures i < |p.entryValues|
    ensures p.value !in p.entryValues ==> i == 0
    ensures p.value in p.entryValues && IndexOf(p.entryValues, p.value) == |p.entryValues| - 1 ==> i == 0
    ensures p.value in p.entryValues && IndexOf(p.entryValues, p.value) < |p.entryValues| - 1 ==>
              i == IndexOf(p.entryValues, p.value) + 1
  {
    var n, next := |p.entryValues|, IndexOf(p.entryValues, p.value) + 1;
    if next < n then ModBelow(next, n); next % n
    else ModSelf(n); next % n
  }

  /** The camera-id preference after one click. */
  function SwitchCamera(p: ListPref): (q: ListPref)
    requires |p.entryValues| > 0
    ensures q.key == p.key && q.entryValues == p.entryValues
    ensures q.value in q.entryValues
  {
    SetValueIndex(p, NextCameraIndex(p))
  }

  /** The camera-id preference after `k` clicks. */
  function Switched(p: ListPref, k: nat): (q: ListPref)
    requires |p.entryValues| > 0
    ensures q.key == p.key && q.entryValues == p.entryValues
    ensures k > 0 ==> q.value in q.entryValues
    decreases k
  {
    if k == 0 then p else SwitchCamera(Switched(p, k - 1))
  }

  lemma ModBelow(x: nat, n: nat)
    requires x < n
    ensures x % n == x
  {
  }

  lemma ModSelf(n: nat)
    requires n > 0
    ensures n % n == 0
  {
  }

  /** Index `i` moved on by `k` places round a cycle of `n` indices, for
      `k` up to `n`. */
  function Rotate(i: nat, k: nat, n: nat): nat {
    if i + k < n then i + k else i + k - n
  }

  lemma RotateStep(i: nat, k: nat, n: nat)
    requires i < n && 0 < k <= n
    ensures Rotate(Rotate(i, k - 1, n), 1, n) == Rotate(i, k, n)
  {
  }

  /** One click moves a current value found at position `i` one place on,
      from the last position back to the first. */
  lemma SwitchCameraStep(p: ListPref, i: nat)
    requires i < |p.entryValues| && IndexOf(p.entryValues, p.value) == i
    ensures SwitchCamera(p).value == p.entryValues[Rotate(i, 1, |p.entryValues|)]
  {
  }

  /** With distinct entry values and the current value at position `i`, the
      `k`-th click (up to one full cycle) selects the value `k` places further
      on, counting round from the last value to the first. */
  lemma {:induction false} SwitchedAdvances(p: ListPref, i: nat, k: nat)
    requires Distinct(p.entryValues) && i < |p.entryValues| && p.value == p.entryValues[i]
    requires k <= |p.entryValues|
    ensures Switched(p, k).value == p.entryValues[Rotate(i, k, |p.entryValues|)]
  {
    if k > 0 {
      var values, prev, j := p.entryValues, Switched(p, k - 1), Rotate(i, k - 1, |p.entryValues|);
      SwitchedAdvances(p, i, k - 1);
      IndexOfDistinct(values, j);
      SwitchCameraStep(prev, j);
      RotateStep(i, k, |values|);
      var next := SwitchCamera(prev).value;
      assert next == values[Rotate(i, k, |values|)];
      assert Switched(p, k).value == next;
    }
  }

  /** After as many clicks as there are cameras the original camera is
      selected again: the switch visits every camera once per cycle. */
  lemma SwitchFullCycle(p: ListPref)
    requires |p.entryValues| > 0 && Distinct(p.entryValues) && p.value in p.entryValues
    ensures Switched(p, |p.entryValues|).value == p.value
  {
    SwitchedAdvances(p, IndexOf(p.entryValues, p.value), |p.entryValues|);
  }
}
