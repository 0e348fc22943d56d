/**
 Mount lists of environment start files, and the rewrite that redirects the result mount of a
 job to its own directory.
 */
module Mounts {
  import opened Wrappers

  datatype Mount = TextMount(text: string) | MapMount(target: Option<string>) | OtherMount

  /** Position after the last colon, or nothing. */
  function AfterColon(s: string): (r: Option<nat>)
    ensures r.None? <==> ':' !in s
    ensures r.Some? ==> 0 < r.value <= |s| && s[r.value - 1] == ':' && ':' !in s[r.value..]
  {
    if s == "" then None
    else
      match AfterColon(s[1..])
      case Some(n) => assert s[1..][n..] == s[n + 1..]; Some(n + 1)
      case None => if s[0] == ':' then Some(1) else None
  }

  /** The target of a mount: a text ends with it, behind its last colon. */
  function MountTarget(m: Mount): Option<string> {
    match m
    case TextMount(text) => (match AfterColon(text) case Some(n) => Some(text[n..]) case None => None)
    case MapMount(target) => target
    case OtherMount => None
  }

  function Others(mounts: seq<Mount>, target: string): (r: seq<Mount>)
    ensures forall m :: m in r <==> m in mounts && MountTarget(m) != Some(target)
  {
    if mounts == [] then []
    else (if MountTarget(mounts[0]) == Some(target) then [] else [mounts[0]]) + Others(mounts[1..], target)
  }

  function Rewritten(mounts: seq<Mount>, source: string, target: string): seq<Mount> {
    Others(mounts, target) + [TextMount(source + ":" + target)]
  }

  /** The list comprehension and the append of the source, as a loop. */
  method Rewrite(mounts: seq<Mount>, source: string, target: string) returns (r: seq<Mount>)
    ensures r == Rewritten(mounts, source, target)
  {
    r := [];
    for n := 0 to |mounts|
      invariant r == Others(mounts[..n], target)
    {
      assert mounts[..n + 1] == mounts[..n] + [mounts[n]];
      OthersOfAppend(mounts[..n], mounts[n], target);
      if MountTarget(mounts[n]) != Some(target) {
        r := r + [mounts[n]];
      }
    }
    assert mounts[..|mounts|] == mounts;
    r := r + [TextMount(source + ":" + target)];
  }

  lemma {:induction false} AfterColonIsLast(s: string, n: nat)
    requires 0 < n <= |s| && s[n - 1] == ':' && ':' !in s[n..]
    ensures AfterColon(s) == Some(n)
  {
    if n == 1 {
      assert s[1..] == s[n..];
    } else {
      assert s[1..][n - 1..] == s[n..];
      AfterColonIsLast(s[1..], n - 1);
    }
  }

  lemma MountedBehind(source: string, target: string)
    ensures MountTarget(TextMount(source + ":" + target)) == Some(target) <==> ':' !in target
  {
    var text := source + ":" + target;
    if ':' !in target {
      assert text[|source| + 1..] == target;
      AfterColonIsLast(text, |source| + 1);
    } else {
      assert ':' in text[|source| + 1..] by { assert text[|source| + 1..] == target; }
    }
  }

  /**
   The rewritten list mounts the target exactly once, from the job's own source, iff the target
   contains no colon; the other mounts stay, in order.
   */
  lemma OneResultMount(mounts: seq<Mount>, source: string, target: string)
    ensures var r := Rewritten(mounts, source, target);
            && (':' !in target <==>
                  exists i :: 0 <= i < |r| && MountTarget(r[i]) == Some(target)
                              && (forall j :: 0 <= j < |r| && MountTarget(r[j]) == Some(target) ==> j == i))
            && (forall m :: m in r && MountTarget(m) == Some(target) ==> m == TextMount(source + ":" + target))
            && Others(r, target) == Others(mounts, target) + (if ':' in target then [TextMount(source + ":" + target)] else [])
  {
    var kept := Others(mounts, target);
    var r := Rewritten(mounts, source, target);
    MountedBehind(source, target);
    OthersOfAppend(kept, TextMount(source + ":" + target), target);
    OthersOfOthers(kept, target);
    assert forall j :: 0 <= j < |kept| ==> kept[j] in kept && r[j] == kept[j];
    if ':' !in target {
      assert MountTarget(r[|kept|]) == Some(target);
    }
  }

  lemma {:induction false} OthersOfAppend(s: seq<Mount>, m: Mount, target: string)
    ensures Others(s + [m], target) == Others(s, target) + (if MountTarget(m) == Some(target) then [] else [m])
  {
    if s == [] {
      assert s + [m] == [m];
    } else {
      assert (s + [m])[1..] == s[1..] + [m];
      OthersOfAppend(s[1..], m, target);
    }
  }

  lemma {:induction false} OthersOfOthers(s: seq<Mount>, target: string)
    requires forall m :: m in s ==> MountTarget(m) != Some(target)
    ensures Others(s, target) == s
  {
    if s != [] {
      OthersOfOthers(s[1..], target);
      assert s == [s[0]] + s[1..];
    }
  }
}
