/**
  `normalize_sub_path`, with the component machine of `posixpath.normpath` written out, against the
  plain reading of a path as a walk down and up a directory tree.
 */
module Paths {
  import opened Common

  type Component = string

  const DOT: Component := "."
  const DOTDOT: Component := ".."

  datatype Normalised = Accepted(path: string) | NulByte | AboveRoot

  // ----- str.split("/") and "/".join -----

  function Split(s: string): (parts: seq<Component>)
    ensures |parts| >= 1
    ensures forall i :: 0 <= i < |parts| ==> '/' !in parts[i]
  {
    if s == "" then [""]
    else
      var rest := Split(s[1..]);
      if s[0] == '/' then [""] + rest else [[s[0]] + rest[0]] + rest[1..]
  }

  function Join(parts: seq<Component>): string {
    if parts == [] then "" else if |parts| == 1 then parts[0] else parts[0] + "/" + Join(parts[1..])
  }

  lemma {:induction false} JoinOfSplit(s: string)
    ensures Join(Split(s)) == s
  {
    if s != "" {
      JoinOfSplit(s[1..]);
    }
  }

  lemma {:induction false} SplitOfJoin(parts: seq<Component>)
    requires parts != [] && forall i :: 0 <= i < |parts| ==> '/' !in parts[i]
    ensures Split(Join(parts)) == parts
  {
    if |parts| == 1 {
      SplitWhole(parts[0]);
    } else {
      SplitOfJoin(parts[1..]);
      SplitAtSlash(parts[0], Join(parts[1..]));
      assert Join(parts) == parts[0] + "/" + Join(parts[1..]);
    }
  }

  lemma {:induction false} SplitWhole(c: Component)
    requires '/' !in c
    ensures Split(c) == [c]
  {
    if c != "" {
      SplitWhole(c[1..]);
      assert [c[0]] + c[1..] == c;
    }
  }

  lemma {:induction false} SplitAtSlash(c: Component, rest: string)
    requires '/' !in c
    ensures Split(c + "/" + rest) == [c] + Split(rest)
  {
    var s := c + "/" + rest;
    if c == "" {
      assert s[1..] == rest;
    } else {
      assert s[1..] == c[1..] + "/" + rest;
      SplitAtSlash(c[1..], rest);
      assert [c[0]] + c[1..] == c;
    }
  }

  // ----- the code -----

  /** `str.lstrip("/")` */
  function WithoutLeadingSlashes(s: string): string {
    if s != "" && s[0] == '/' then WithoutLeadingSlashes(s[1..]) else s
  }

  /** What `posixpath.splitroot` calls the root: POSIX gives exactly two slashes a meaning of their own. */
  function Root(s: string): string {
    if s == "" || s[0] != '/' then ""
    else if |s| >= 2 && s[1] == '/' && !(|s| >= 3 && s[2] == '/') then "//"
    else "/"
  }

  function Last(comps: seq<Component>): Component
    requires comps != []
  {
    comps[|comps| - 1]
  }

  /** One turn of the loop in `normpath`. */
  function Step(rooted: bool, comps: seq<Component>, c: Component): seq<Component> {
    if c == "" || c == DOT then comps
    else if c != DOTDOT || (!rooted && comps == []) || (comps != [] && Last(comps) == DOTDOT) then comps + [c]
    else if comps != [] then comps[..|comps| - 1]
    else comps
  }

  function Steps(rooted: bool, comps: seq<Component>, parts: seq<Component>): seq<Component>
    decreases |parts|
  {
    if parts == [] then comps else Steps(rooted, Step(rooted, comps, parts[0]), parts[1..])
  }

  function NormPath(s: string): string {
    var root := Root(s);
    var path := root + Join(Steps(root != "", [], Split(s[|root|..])));
    if path == "" then DOT else path
  }

  predicate RejectedText(text: string) {
    text == "" || text == DOT || text == DOTDOT || "../" <= text
  }

  function NormalizeSubPath(filename: string): Normalised {
    if '\0' in filename then NulByte
    else
      var normalized := NormPath(WithoutLeadingSlashes(filename));
      if RejectedText(normalized) then AboveRoot else Accepted(normalized)
  }

  // ----- the walk -----

  /** A name that stands for an entry of the directory it is looked up in. */
  predicate Proper(c: Component) {
    c != "" && c != DOT && c != DOTDOT && '/' !in c && '\0' !in c
  }

  predicate ProperPath(comps: seq<Component>) {
    comps != [] && forall i :: 0 <= i < |comps| ==> Proper(comps[i])
  }

  /** How many levels a component leads down. */
  function Descent(c: Component): int {
    if c == "" || c == DOT then 0 else if c == DOTDOT then -1 else 1
  }

  function Depth(parts: seq<Component>): int {
    if parts == [] then 0 else Descent(parts[0]) + Depth(parts[1..])
  }

  /** Started `d` levels below the root, the walk never steps above the root. */
  ghost predicate StaysBelow(d: int, parts: seq<Component>) {
    forall k :: 0 <= k <= |parts| ==> d + Depth(parts[..k]) >= 0
  }

  /** Where the walk leads, as the names from the root; there is no place above the root. */
  function Walk(at: seq<Component>, parts: seq<Component>): Option<seq<Component>>
    decreases |parts|
  {
    if parts == [] then Some(at)
    else if Descent(parts[0]) == 0 then Walk(at, parts[1..])
    else if parts[0] != DOTDOT then Walk(at + [parts[0]], parts[1..])
    else if at == [] then None
    else Walk(at[..|at| - 1], parts[1..])
  }

  lemma {:induction false} StaysBelowStep(d: int, parts: seq<Component>)
    requires parts != []
    ensures StaysBelow(d, parts) <==> d >= 0 && StaysBelow(d + Descent(parts[0]), parts[1..])
  {
    if d >= 0 && StaysBelow(d + Descent(parts[0]), parts[1..]) {
      forall k | 0 <= k <= |parts| ensures d + Depth(parts[..k]) >= 0 {
        if k > 0 {
          assert parts[..k][1..] == parts[1..][..k - 1];
        }
      }
    }
    if StaysBelow(d, parts) {
      assert parts[..0] == [];
      forall k | 0 <= k <= |parts[1..]| ensures d + Descent(parts[0]) + Depth(parts[1..][..k]) >= 0 {
        assert parts[..k + 1][1..] == parts[1..][..k];
        assert d + Depth(parts[..k + 1]) >= 0;
      }
    }
  }

  /** A walk has a destination exactly when its depth never goes negative, which is the depth it ends at. */
  lemma {:induction false} WalkDepth(at: seq<Component>, parts: seq<Component>)
    ensures Walk(at, parts).Some? <==> StaysBelow(|at|, parts)
    ensures Walk(at, parts).Some? ==> |Walk(at, parts).value| == |at| + Depth(parts)
    decreases |parts|
  {
    if parts != [] {
      StaysBelowStep(|at|, parts);
      if Descent(parts[0]) == 0 {
        WalkDepth(at, parts[1..]);
      } else if parts[0] != DOTDOT {
        WalkDepth(at + [parts[0]], parts[1..]);
      } else if at != [] {
        WalkDepth(at[..|at| - 1], parts[1..]);
      } else {
        assert parts[1..][..0] == [];
        assert !(-1 + Depth(parts[1..][..0]) >= 0);
      }
    }
  }

  lemma {:induction false} WalkIsProper(at: seq<Component>, parts: seq<Component>)
    requires forall i :: 0 <= i < |parts| ==> '/' !in parts[i] && '\0' !in parts[i]
    requires forall i :: 0 <= i < |at| ==> Proper(at[i])
    ensures Walk(at, parts).Some? ==> forall i :: 0 <= i < |Walk(at, parts).value| ==> Proper(Walk(at, parts).value[i])
    decreases |parts|
  {
    if parts != [] {
      if Descent(parts[0]) == 0 {
        WalkIsProper(at, parts[1..]);
      } else if parts[0] != DOTDOT {
        WalkIsProper(at + [parts[0]], parts[1..]);
      } else if at != [] {
        WalkIsProper(at[..|at| - 1], parts[1..]);
      }
    }
  }

  /** The stack machine follows the walk; one that climbs above the root leaves ".." at the bottom for good. */
  lemma {:induction false} MachineFollowsWalk(at: seq<Component>, parts: seq<Component>)
    requires DOTDOT !in at
    ensures Walk(at, parts).Some? ==> Steps(false, at, parts) == Walk(at, parts).value
    ensures Walk(at, parts).None? ==> Steps(false, at, parts) != [] && Steps(false, at, parts)[0] == DOTDOT
    decreases |parts|
  {
    if parts != [] {
      if Descent(parts[0]) == 0 {
        MachineFollowsWalk(at, parts[1..]);
      } else if parts[0] != DOTDOT {
        MachineFollowsWalk(at + [parts[0]], parts[1..]);
      } else if at != [] {
        MachineFollowsWalk(at[..|at| - 1], parts[1..]);
      } else {
        assert Step(false, at, parts[0]) == [DOTDOT];
        StuckAbove([DOTDOT], parts[1..]);
      }
    }
  }

  lemma {:induction false} StuckAbove(comps: seq<Component>, parts: seq<Component>)
    requires comps != [] && comps[0] == DOTDOT
    ensures Steps(false, comps, parts) != [] && Steps(false, comps, parts)[0] == DOTDOT
    decreases |parts|
  {
    if parts != [] {
      StuckAbove(Step(false, comps, parts[0]), parts[1..]);
    }
  }

  lemma {:induction false} LeadingSlashesDoNotMatter(s: string)
    ensures Walk([], Split(WithoutLeadingSlashes(s))) == Walk([], Split(s))
    ensures Root(WithoutLeadingSlashes(s)) == ""
    ensures '\0' in WithoutLeadingSlashes(s) ==> '\0' in s
  {
    if s != "" && s[0] == '/' {
      LeadingSlashesDoNotMatter(s[1..]);
      assert Split(s)[1..] == Split(s[1..]);
    }
  }

  lemma {:induction false} SplitKeepsNulOut(s: string)
    requires '\0' !in s
    ensures forall i :: 0 <= i < |Split(s)| ==> '\0' !in Split(s)[i]
  {
    if s != "" {
      SplitKeepsNulOut(s[1..]);
    }
  }

  lemma StartsAbove(text: string)
    ensures Split(text)[0] == DOTDOT <==> text == DOTDOT || "../" <= text
  {
    var parts := Split(text);
    JoinOfSplit(text);
    if |parts| == 1 {
      assert text == parts[0];
      assert '/' !in text;
    } else {
      var rest := Join(parts[1..]);
      assert text == parts[0] + "/" + rest;
      if parts[0] != DOTDOT {
        SplitWhole(DOTDOT);
        ClimbingPrefix(text);
      }
    }
  }

  lemma ClimbingPrefix(text: string)
    ensures "../" <= text ==> Split(text)[0] == DOTDOT
  {
    if "../" <= text {
      SplitAtSlash(DOTDOT, text[3..]);
      assert text == DOTDOT + "/" + text[3..];
    }
  }

  /** What the test on the joined text amounts to on the components. */
  lemma RejectsByText(comps: seq<Component>)
    requires comps != [] && forall i :: 0 <= i < |comps| ==> comps[i] != "" && comps[i] != DOT && '/' !in comps[i]
    ensures RejectedText(Join(comps)) <==> comps[0] == DOTDOT
  {
    SplitOfJoin(comps);
    StartsAbove(Join(comps));
    SplitWhole(DOT);
    SplitWhole("");
  }

  lemma {:induction false} MachineKeepsNames(comps: seq<Component>, parts: seq<Component>)
    requires forall i :: 0 <= i < |comps| ==> comps[i] != "" && comps[i] != DOT && '/' !in comps[i]
    requires forall i :: 0 <= i < |parts| ==> '/' !in parts[i]
    ensures forall i :: 0 <= i < |Steps(false, comps, parts)| ==>
      var c := Steps(false, comps, parts)[i]; c != "" && c != DOT && '/' !in c
    decreases |parts|
  {
    if parts != [] {
      MachineKeepsNames(Step(false, comps, parts[0]), parts[1..]);
    }
  }

  // ----- the results -----

  /** The code computes the walk: same destination, and a refusal when there is none below the root. */
  lemma NormalizeIsWalk(s: string)
    requires '\0' !in s
    ensures var w := Walk([], Split(s));
      NormalizeSubPath(s) == if w.Some? && w.value != [] then Accepted(Join(w.value)) else AboveRoot
  {
    LeadingSlashesDoNotMatter(s);
    var rest := WithoutLeadingSlashes(s);
    assert rest[0..] == rest;
    var comps := Steps(false, [], Split(rest));
    MachineFollowsWalk([], Split(rest));
    MachineKeepsNames([], Split(rest));
    if comps != [] {
      RejectsByText(comps);
      assert Join(comps) != "";
    }
    var w := Walk([], Split(s));
    if w.Some? {
      SplitKeepsNulOut(s);
      WalkIsProper([], Split(s));
    }
  }

  /**
    A path is accepted exactly when it holds no NUL and, read as a walk, it never steps above the
    root and ends below it.
   */
  lemma NormalizeAccepts(s: string)
    ensures NormalizeSubPath(s).Accepted? <==>
      '\0' !in s && StaysBelow(0, Split(s)) && Depth(Split(s)) > 0
    ensures NormalizeSubPath(s).NulByte? <==> '\0' in s
  {
    if '\0' !in s {
      NormalizeIsWalk(s);
      WalkDepth([], Split(s));
    }
  }

  /** An accepted path splits into proper names, and into just the ones the walk passes through. */
  lemma NormalizedIsProper(s: string)
    requires NormalizeSubPath(s).Accepted?
    ensures ProperPath(Split(NormalizeSubPath(s).path))
    ensures forall c <- Split(NormalizeSubPath(s).path) ::
      c != "" && c != "." && c != ".." && '/' !in c && '\0' !in c
    ensures Walk([], Split(s)) == Some(Split(NormalizeSubPath(s).path))
  {
    NormalizeIsWalk(s);
    SplitKeepsNulOut(s);
    WalkIsProper([], Split(s));
    SplitOfJoin(Walk([], Split(s)).value);
  }

  /** A path of proper names is its own normal form; so normalising again changes nothing. */
  lemma ProperPathIsNormal(comps: seq<Component>)
    requires ProperPath(comps)
    ensures NormalizeSubPath(Join(comps)) == Accepted(Join(comps))
  {
    SplitOfJoin(comps);
    WalkDown([], comps);
    assert [] + comps == comps;
    JoinKeepsNulOut(comps);
    NormalizeIsWalk(Join(comps));
  }

  lemma NormalizeIsIdempotent(s: string)
    requires NormalizeSubPath(s).Accepted?
    ensures NormalizeSubPath(NormalizeSubPath(s).path) == NormalizeSubPath(s)
  {
    NormalizedIsProper(s);
    JoinOfSplit(NormalizeSubPath(s).path);
    ProperPathIsNormal(Split(NormalizeSubPath(s).path));
  }

  /** Two accepted paths get the same name exactly when they lead to the same place. */
  lemma NormalFormNamesThePlace(s: string, t: string)
    requires NormalizeSubPath(s).Accepted? && NormalizeSubPath(t).Accepted?
    ensures NormalizeSubPath(s) == NormalizeSubPath(t) <==> Walk([], Split(s)) == Walk([], Split(t))
  {
    NormalizedIsProper(s);
    NormalizedIsProper(t);
    JoinOfSplit(NormalizeSubPath(s).path);
    JoinOfSplit(NormalizeSubPath(t).path);
  }

  lemma {:induction false} WalkDown(at: seq<Component>, comps: seq<Component>)
    requires forall i :: 0 <= i < |comps| ==> Proper(comps[i])
    ensures Walk(at, comps) == Some(at + comps)
    decreases |comps|
  {
    if comps == [] {
      assert at + comps == at;
    } else {
      WalkDown(at + [comps[0]], comps[1..]);
      assert at + [comps[0]] + comps[1..] == at + comps;
    }
  }

  lemma {:induction false} JoinKeepsNulOut(comps: seq<Component>)
    requires forall i :: 0 <= i < |comps| ==> '\0' !in comps[i]
    ensures '\0' !in Join(comps)
  {
    if |comps| > 1 {
      JoinKeepsNulOut(comps[1..]);
    }
  }
}
