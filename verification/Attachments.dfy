/** How `handle_execute` splits what a run changed into what a response carries and what it only names. */
module Attachments {
  import opened Changes

  function Readables(names: seq<string>, readable: set<string>): nat {
    if names == [] then 0
    else Readables(names[..|names| - 1], readable) + if names[|names| - 1] in readable then 1 else 0
  }

  /** Named only: unreadable, or behind as many readable ones as a response carries. */
  predicate Omits(changed: seq<string>, readable: set<string>, max: nat, i: nat)
    requires i < |changed|
  {
    changed[i] !in readable || Readables(changed[..i], readable) >= max
  }

  /** Of the first `n`, those that are omitted, or those that are not. */
  function Picked(changed: seq<string>, readable: set<string>, max: nat, n: nat, omitted: bool): seq<string>
    requires n <= |changed|
  {
    if n == 0 then []
    else
      Picked(changed, readable, max, n - 1, omitted)
      + if Omits(changed, readable, max, n - 1) == omitted then [changed[n - 1]] else []
  }

  lemma {:induction false} PickedAre(changed: seq<string>, readable: set<string>, max: nat, n: nat, omitted: bool,
                                     name: string)
    requires n <= |changed|
    ensures name in Picked(changed, readable, max, n, omitted) <==>
      exists i :: 0 <= i < n && changed[i] == name && Omits(changed, readable, max, i) == omitted
  {
    if n > 0 {
      PickedAre(changed, readable, max, n - 1, omitted, name);
    }
  }

  lemma {:induction false} PickedIsAscending(changed: seq<string>, readable: set<string>, max: nat, n: nat,
                                             omitted: bool)
    requires n <= |changed| && Ascending(changed)
    ensures Ascending(Picked(changed, readable, max, n, omitted))
  {
    if n > 0 {
      PickedIsAscending(changed, readable, max, n - 1, omitted);
      var before := Picked(changed, readable, max, n - 1, omitted);
      forall j | 0 <= j < |before| ensures Less(before[j], changed[n - 1]) {
        PickedAre(changed, readable, max, n - 1, omitted, before[j]);
        assert before[j] in before;
      }
    }
  }

  /** Every changed file is in exactly one of the two lists, and both keep the order. */
  lemma AttachedOrOmitted(changed: seq<string>, readable: set<string>, max: nat)
    requires Ascending(changed)
    ensures var attached, omitted :=
        Picked(changed, readable, max, |changed|, false), Picked(changed, readable, max, |changed|, true);
      && Ascending(attached) && Ascending(omitted)
      && (forall name :: name in changed <==> name in attached || name in omitted)
      && (forall name :: !(name in attached && name in omitted))
      && forall i :: 0 <= i < |changed| ==> (changed[i] in omitted <==> Omits(changed, readable, max, i))
  {
    PickedIsAscending(changed, readable, max, |changed|, false);
    PickedIsAscending(changed, readable, max, |changed|, true);
    forall name: string, omitted: bool ensures name in Picked(changed, readable, max, |changed|, omitted) <==>
      exists i :: 0 <= i < |changed| && changed[i] == name && Omits(changed, readable, max, i) == omitted
    {
      PickedAre(changed, readable, max, |changed|, omitted, name);
    }
    forall i, j | 0 <= i < |changed| && 0 <= j < |changed| && changed[i] == changed[j] ensures i == j {
      LessIsTotal(changed[i], changed[j]);
    }
  }

  lemma ReadablesOneMore(changed: seq<string>, readable: set<string>, n: nat)
    requires n < |changed|
    ensures Readables(changed[..n + 1], readable) ==
      Readables(changed[..n], readable) + if changed[n] in readable then 1 else 0
  {
    assert changed[..n + 1][..n] == changed[..n];
  }

  /** The loop, where opening a file is what shows whether it can be read. */
  method AttachOrOmit(changed: seq<string>, readable: set<string>, max: nat)
    returns (attached: seq<string>, omitted: seq<string>)
    ensures attached == Picked(changed, readable, max, |changed|, false)
    ensures omitted == Picked(changed, readable, max, |changed|, true)
    ensures (forall name <- attached :: name in readable) && |attached| <= max
    ensures (exists name <- omitted :: name in readable) ==> |attached| == max
    ensures |attached| + |omitted| == |changed|
    ensures |attached| == if Readables(changed, readable) < max then Readables(changed, readable) else max
  {
    attached, omitted := [], [];
    var n := 0;
    while n < |changed|
      invariant 0 <= n <= |changed|
      invariant attached == Picked(changed, readable, max, n, false)
      invariant omitted == Picked(changed, readable, max, n, true)
      invariant (forall name <- attached :: name in readable) && |attached| <= max && |attached| + |omitted| == n
      invariant (exists name <- omitted :: name in readable) ==> |attached| == max
      invariant var count := Readables(changed[..n], readable); |attached| == if count < max then count else max
    {
      ReadablesOneMore(changed, readable, n);
      if |attached| >= max {
        omitted := omitted + [changed[n]];
      } else if changed[n] in readable {
        attached := attached + [changed[n]];
      } else {
        omitted := omitted + [changed[n]];
      }
      n := n + 1;
    }
    assert changed[..n] == changed;
  }
}
