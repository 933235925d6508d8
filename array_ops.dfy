/**
 * The document store's array update operators, as the seminar routes use them on id lists:
 * `$addToSet` appends a value that is not yet present, `$addToSet` with `$each` does so for
 * every value of a list in order, `$pull` removes every occurrence of a value and `$push`
 * appends unconditionally. On a field that is absent, `$addToSet` and `$push` create the
 * array and `$pull` leaves the field absent.
 */
module ArrayOps {
  import opened Common

  /** `$addToSet` on an array. */
  function AddToSet(xs: seq<Id>, x: Id): (r: seq<Id>)
    ensures forall y :: y in r <==> y in xs || y == x
    ensures xs <= r && |r| <= |xs| + 1
    ensures multiset(r)[x] == if x in xs then multiset(xs)[x] else 1
    ensures forall y :: y != x ==> multiset(r)[y] == multiset(xs)[y]
  {
    if x in xs then xs else xs + [x]
  }

  /** `$pull` of one value from an array: every occurrence goes, the rest keep their order. */
  function Pull(xs: seq<Id>, x: Id): (r: seq<Id>)
    ensures forall y :: y in r <==> y in xs && y != x
    ensures multiset(r) == multiset(xs)[x := 0]
    ensures x !in xs ==> r == xs
    ensures x in xs ==> |r| < |xs|
  {
    if xs == [] then []
    else
      assert xs == [xs[0]] + xs[1..];
      if xs[0] == x then Pull(xs[1..], x)
      else [xs[0]] + Pull(xs[1..], x)
  }

  /** `$addToSet` with `$each`: the values of `ys` are added one after another. */
  function AddEachToSet(xs: seq<Id>, ys: seq<Id>): (r: seq<Id>)
    ensures forall y :: y in r <==> y in xs || y in ys
    ensures xs <= r
    ensures forall y :: y in xs ==> multiset(r)[y] == multiset(xs)[y]
    ensures forall y :: y !in xs && y in ys ==> multiset(r)[y] == 1
    decreases |ys|
  {
    if ys == [] then xs
    else AddEachToSet(AddToSet(xs, ys[0]), ys[1..])
  }

  /** An array field after `$addToSet`; an absent field becomes a one-element array. */
  function AddToSetField(f: Option<seq<Id>>, x: Id): (r: seq<Id>)
    ensures x in r
    ensures forall y :: y != x ==> (y in r <==> f.Some? && y in f.value)
    ensures f.GetOr([]) <= r
    ensures multiset(r)[x] == if x in f.GetOr([]) then multiset(f.GetOr([]))[x] else 1
    ensures forall y :: y != x ==> multiset(r)[y] == multiset(f.GetOr([]))[y]
  {
    AddToSet(f.GetOr([]), x)
  }

  /** An array field after `$addToSet` with `$each`; an absent field is created. */
  function AddEachToSetField(f: Option<seq<Id>>, ys: seq<Id>): (r: seq<Id>)
    ensures forall y :: y in r <==> y in ys || (f.Some? && y in f.value)
    ensures f.GetOr([]) <= r
    ensures forall y :: y in f.GetOr([]) ==> multiset(r)[y] == multiset(f.GetOr([]))[y]
    ensures forall y :: y !in f.GetOr([]) && y in ys ==> multiset(r)[y] == 1
  {
    AddEachToSet(f.GetOr([]), ys)
  }

  /** An array field after `$pull`; an absent field stays absent. */
  function PullField(f: Option<seq<Id>>, x: Id): (r: Option<seq<Id>>)
    ensures r.Some? <==> f.Some?
    ensures r.Some? ==> (forall y :: y in r.value <==> y in f.value && y != x)
  {
    match f
    case None => None
    case Some(xs) => Some(Pull(xs, x))
  }

  /** An array field after `$push`; an absent field becomes a one-element array. */
  function PushField(f: Option<seq<Id>>, x: Id): (r: seq<Id>)
    ensures |r| == |f.GetOr([])| + 1 && r[|r| - 1] == x
    ensures multiset(r) == multiset(f.GetOr([])) + multiset{x}
  {
    f.GetOr([]) + [x]
  }

  /** Adding values that are all present already changes nothing. */
  lemma {:induction false} AddEachToSetAbsorbed(xs: seq<Id>, ys: seq<Id>)
    requires forall y :: y in ys ==> y in xs
    ensures AddEachToSet(xs, ys) == xs
    decreases |ys|
  {
    if ys != [] {
      assert ys[0] in xs;
      AddEachToSetAbsorbed(xs, ys[1..]);
    }
  }

  /** `$addToSet $each` is idempotent: applying the same list twice is applying it once. */
  lemma AddEachToSetIdempotent(xs: seq<Id>, ys: seq<Id>)
    ensures AddEachToSet(AddEachToSet(xs, ys), ys) == AddEachToSet(xs, ys)
  {
    AddEachToSetAbsorbed(AddEachToSet(xs, ys), ys);
  }
}
