/** List preferences and the preference group that holds them.

    A list preference has a key, the legal values it may take (its entry
    values) and its current value. The group finds a preference by its key,
    so it is a map from key to preference in which every preference is filed
    under its own key. */
module Preferences {

  datatype ListPref = ListPref(key: string, entryValues: seq<string>, value: string)

  type Group = map<string, ListPref>

  /** Every preference of the group is filed under its own key. */
  predicate WellKeyed(g: Group) {
    forall k :: k in g ==> g[k].key == k
  }

  /** No value occurs twice: each one is absent from the rest of the list. */
  predicate Distinct(values: seq<string>) {
    |values| == 0 || (values[0] !in values[1..] && Distinct(values[1..]))
  }

  /** The index the preference's findIndexOfValue reports for `v`: the first
      position holding `v`, or -1 when `v` is not a legal value. */
  function IndexOf(values: seq<string>, v: string): (i: int)
    ensures -1 <= i < |values|
    ensures i == -1 <==> v !in values
    ensures 0 <= i ==> values[i] == v && forall j :: 0 <= j < i ==> values[j] != v
  {
    if |values| == 0 then -1
    else if values[0] == v then 0
    else
      var r := IndexOf(values[1..], v);
      if r == -1 then -1 else r + 1
  }

  /** When the values are distinct, the index of the value at `i` is `i`. */
  lemma {:induction false} IndexOfDistinct(values: seq<string>, i: nat)
    requires Distinct(values) && i < |values|
    ensures IndexOf(values, values[i]) == i
  {
    if i > 0 {
      IndexOfDistinct(values[1..], i - 1);
      assert values[1..][i - 1] == values[i];
    }
  }

  /** setValueIndex: make the entry value at `i` the current value. */
  function SetValueIndex(p: ListPref, i: nat): ListPref
    requires i < |p.entryValues|
  {
    p.(value := p.entryValues[i])
  }
}
