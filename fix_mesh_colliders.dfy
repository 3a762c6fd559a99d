/** The editor command that turns off the fast-midphase cooking flag on
    every mesh collider in the scene, marks each collider it changed as
    dirty, and counts them. A collider is modelled by its cooking-options
    flag word. */
module MeshColliders {

  type Flags = bv32

  /** `MeshColliderCookingOptions.UseFastMidphase`, as the engine defines it. */
  const UseFastMidphase: Flags := 16

  predicate HasFastMidphase(f: Flags)
  {
    f & UseFastMidphase != 0
  }

  lemma MaskFacts(f: Flags)
    ensures (f & !UseFastMidphase) & UseFastMidphase == 0
    ensures (f & !UseFastMidphase) & !UseFastMidphase == f & !UseFastMidphase
    ensures f & UseFastMidphase == 0 ==> f & !UseFastMidphase == f
  {
  }

  /** `f & ~UseFastMidphase`: the flag is off, every other bit is as it was,
      and a word without the flag is left exactly as it was. */
  function Cleared(f: Flags): (r: Flags)
    ensures !HasFastMidphase(r)
    ensures r & !UseFastMidphase == f & !UseFastMidphase
    ensures !HasFastMidphase(f) ==> r == f
  {
    MaskFacts(f);
    f & !UseFastMidphase
  }

  /** Every collider after the pass. */
  function ClearAll(s: seq<Flags>): (r: seq<Flags>)
    ensures |r| == |s|
    ensures forall i :: 0 <= i < |s| ==> r[i] == Cleared(s[i])
  {
    seq(|s|, i requires 0 <= i < |s| => Cleared(s[i]))
  }

  /** How many colliders have the flag. */
  function CountSet(s: seq<Flags>): (c: nat)
    ensures c <= |s|
    decreases |s|
  {
    if s == [] then 0 else CountSet(s[..|s| - 1]) + if HasFastMidphase(s[|s| - 1]) then 1 else 0
  }

  /** The indices `SetDirty` is called on, in order. */
  function Marked(s: seq<Flags>): (r: seq<nat>)
    ensures |r| <= |s|
    decreases |s|
  {
    if s == [] then [] else Marked(s[..|s| - 1]) + if HasFastMidphase(s[|s| - 1]) then [|s| - 1] else []
  }

  /** Exactly the colliders that had the flag are marked dirty, each once and
      in order, and there are as many of them as the count says. */
  lemma {:induction false} MarkedExactlyTheFlagged(s: seq<Flags>)
    ensures |Marked(s)| == CountSet(s)
    ensures forall k :: 0 <= k < |Marked(s)| ==> Marked(s)[k] < |s| && HasFastMidphase(s[Marked(s)[k]])
    ensures forall k, j :: 0 <= k < j < |Marked(s)| ==> Marked(s)[k] < Marked(s)[j]
    ensures forall i :: 0 <= i < |s| && HasFastMidphase(s[i]) ==> i in Marked(s)
    decreases |s|
  {
    if s != [] {
      var p := s[..|s| - 1];
      MarkedExactlyTheFlagged(p);
      assert forall i :: 0 <= i < |p| ==> p[i] == s[i];
    }
  }

  /** Running the pass again finds nothing to do. */
  lemma {:induction false} SecondPassChangesNothing(s: seq<Flags>)
    ensures ClearAll(ClearAll(s)) == ClearAll(s)
    ensures CountSet(ClearAll(s)) == 0
    ensures Marked(ClearAll(s)) == []
    decreases |s|
  {
    if s != [] {
      var p := s[..|s| - 1];
      SecondPassChangesNothing(p);
      assert ClearAll(s)[..|s| - 1] == ClearAll(p);
    }
  }

  /** The menu command over the colliders the scene search returned. */
  method FixColliders(colliders: array<Flags>) returns (count: nat, dirty: seq<nat>)
    modifies colliders
    ensures colliders[..] == ClearAll(old(colliders[..]))
    ensures count == CountSet(old(colliders[..]))
    ensures dirty == Marked(old(colliders[..]))
  {
    count, dirty := 0, [];
    var i := 0;
    while i < colliders.Length
      invariant 0 <= i <= colliders.Length
      invariant forall k :: 0 <= k < i ==> colliders[k] == Cleared(old(colliders[k]))
      invariant forall k :: i <= k < colliders.Length ==> colliders[k] == old(colliders[k])
      invariant count == CountSet(old(colliders[..])[..i])
      invariant dirty == Marked(old(colliders[..])[..i])
    {
      ghost var before := old(colliders[..]);
      assert before[..i + 1][..i] == before[..i];
      if colliders[i] & UseFastMidphase != 0 {
        colliders[i] := colliders[i] & !UseFastMidphase;
        dirty := dirty + [i];
        count := count + 1;
      }
      i := i + 1;
    }
    assert old(colliders[..])[..i] == old(colliders[..]);
  }
}
