/**
 * Engine-level vocabulary shared by the gameplay components: the float tolerances,
 * INDEX_NONE, the int32 range, nullable references and FMath helpers.
 */
module Common {

  /** KINDA_SMALL_NUMBER (1.e-4f). */
  const KindaSmallNumber: real := 0.0001

  /** UE_SMALL_NUMBER (1.e-8f), the default tolerance of FMath::IsNearlyZero. */
  const SmallNumber: real := 0.00000001

  /** INDEX_NONE, the "no slot / not found" index. */
  const IndexNone: int := -1

  const MinInt32: int := -0x8000_0000
  const MaxInt32: int := 0x7fff_ffff

  /** A value that fits in a C++ int32. */
  type Int32 = x: int | MinInt32 <= x <= MaxInt32

  /** A nullable engine reference (actor, component, asset) or an optional value. */
  datatype Option<T> = None | Some(value: T)

  /** Identity of an engine object (actor, component, asset). */
  type ObjectId = nat

  function Max(a: real, b: real): (r: real)
    ensures r >= a && r >= b && (r == a || r == b)
  {
    if a >= b then a else b
  }

  function Min(a: real, b: real): (r: real)
    ensures r <= a && r <= b && (r == a || r == b)
  {
    if a <= b then a else b
  }

  /** FMath::Clamp(X, Min, Max): X < Min ? Min : (X < Max ? X : Max). */
  function Clamp(x: real, lo: real, hi: real): (r: real)
    ensures lo <= hi ==> lo <= r <= hi
    ensures lo <= x <= hi ==> r == x
    ensures x < lo ==> r == lo
    ensures lo <= hi && hi <= x ==> r == hi
  {
    if x < lo then lo else if x < hi then x else hi
  }

  /** FMath::Clamp on int32 arguments. */
  function ClampInt(x: int, lo: int, hi: int): (r: int)
    ensures lo <= hi ==> lo <= r <= hi
    ensures lo <= x <= hi ==> r == x
  {
    if x < lo then lo else if x < hi then x else hi
  }

  /** FMath::IsNearlyZero(Value) with its default tolerance. */
  predicate IsNearlyZero(x: real)
  {
    -SmallNumber <= x <= SmallNumber
  }

  /** TWeakObjectPtr::IsValid: set, and the object still alive. */
  predicate IsValidRef(p: Option<ObjectId>, live: set<ObjectId>)
  {
    p.Some? && p.value in live
  }

  /** TWeakObjectPtr::Get: the object while it is alive, null afterwards. */
  function GetRef(p: Option<ObjectId>, live: set<ObjectId>): (r: Option<ObjectId>)
    ensures r.Some? <==> IsValidRef(p, live)
    ensures r.Some? ==> r == p
  {
    if IsValidRef(p, live) then p else None
  }

  /** The non-null entries of a list, in order. */
  function NonNull(xs: seq<Option<ObjectId>>): (r: seq<ObjectId>)
    ensures |r| <= |xs|
    ensures r == [] <==> forall i | 0 <= i < |xs| :: xs[i].None?
    decreases |xs|
  {
    if xs == [] then []
    else
      var last := xs[|xs| - 1];
      NonNull(xs[..|xs| - 1]) + (if last.Some? then [last.value] else [])
  }

  /** NonNull keeps exactly the non-null entries: each of them, and nothing else. */
  lemma {:induction false} NonNullMembers(xs: seq<Option<ObjectId>>)
    ensures forall x | x in NonNull(xs) :: Some(x) in xs
    ensures forall i | 0 <= i < |xs| && xs[i].Some? :: xs[i].value in NonNull(xs)
    decreases |xs|
  {
    if xs != [] {
      var init := xs[..|xs| - 1];
      NonNullMembers(init);
      assert forall i | 0 <= i < |init| :: init[i] == xs[i];
      assert forall y | y in init :: y in xs;
    }
  }

  /** Extending a prefix by one entry extends its non-null entries by that entry, if non-null. */
  lemma NonNullSnoc(xs: seq<Option<ObjectId>>, i: int)
    requires 0 <= i < |xs|
    ensures NonNull(xs[..i + 1]) == NonNull(xs[..i]) + (if xs[i].Some? then [xs[i].value] else [])
  {
    assert xs[..i + 1][..i] == xs[..i];
  }
}
