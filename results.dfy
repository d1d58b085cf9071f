/** Values that stand for the source's exceptions, and the "keep the steps that
    succeeded" shape shared by its appending loops. An exception raised by a
    collaborator is a `Fail` (or `Raised`) carrying the text of `str(e)`. */
module Results {

  datatype Option<+T> = None | Some(value: T)

  datatype Result<+T> = Ok(value: T) | Fail(msg: string)

  /** A step that returns nothing but may raise. */
  datatype Outcome = Pass | Raised(msg: string)

  /** The present values of `xs`, in order. A loop that appends an item to a
      list only when the step for that item succeeds computes this. */
  function Somes<T>(xs: seq<Option<T>>): seq<T>
  {
    if xs == [] then []
    else
      var k := |xs| - 1;
      Somes(xs[..k]) + (if xs[k].Some? then [xs[k].value] else [])
  }

  /** The positions of the present values of `xs`, in order. */
  function SomeIndices<T>(xs: seq<Option<T>>): seq<nat>
  {
    if xs == [] then []
    else
      var k := |xs| - 1;
      SomeIndices(xs[..k]) + (if xs[k].Some? then [k] else [])
  }

  /** How many steps failed. */
  function NoneCount<T>(xs: seq<Option<T>>): nat
  {
    if xs == [] then 0
    else
      var k := |xs| - 1;
      NoneCount(xs[..k]) + (if xs[k].None? then 1 else 0)
  }

  /** The number kept plus the number dropped is the number of steps. */
  lemma {:induction false} SomesLength<T>(xs: seq<Option<T>>)
    ensures |Somes(xs)| == |SomeIndices(xs)| == |xs| - NoneCount(xs)
    ensures NoneCount(xs) <= |xs|
  {
    if xs != [] {
      SomesLength(xs[..|xs| - 1]);
    }
  }

  /** Position `SomeIndices(xs)[j]` holds the `j`-th kept value. */
  lemma {:induction false} SomeIndicesSound<T>(xs: seq<Option<T>>)
    ensures |Somes(xs)| == |SomeIndices(xs)|
    ensures forall j :: 0 <= j < |SomeIndices(xs)| ==>
              SomeIndices(xs)[j] < |xs| && xs[SomeIndices(xs)[j]] == Some(Somes(xs)[j])
  {
    SomesLength(xs);
    if xs != [] {
      var k := |xs| - 1;
      var init := xs[..k];
      SomeIndicesSound(init);
      var n := |SomeIndices(init)|;
      forall j | 0 <= j < |SomeIndices(xs)|
        ensures SomeIndices(xs)[j] < |xs| && xs[SomeIndices(xs)[j]] == Some(Somes(xs)[j])
      {
        if j < n {
          assert SomeIndices(xs)[j] == SomeIndices(init)[j];
          assert Somes(xs)[j] == Somes(init)[j];
          assert init[SomeIndices(init)[j]] == xs[SomeIndices(init)[j]];
        } else {
          assert SomeIndices(xs)[j] == k;
        }
      }
    }
  }

  /** The kept positions are in range and strictly increasing. */
  lemma {:induction false} SomeIndicesIncreasing<T>(xs: seq<Option<T>>)
    ensures forall i :: 0 <= i < |SomeIndices(xs)| ==> SomeIndices(xs)[i] < |xs|
    ensures forall j, j' :: 0 <= j < j' < |SomeIndices(xs)| ==> SomeIndices(xs)[j] < SomeIndices(xs)[j']
  {
    if xs != [] {
      var k := |xs| - 1;
      SomeIndicesIncreasing(xs[..k]);
    }
  }

  /** Every present position is kept. */
  lemma {:induction false} SomeIndicesComplete<T>(xs: seq<Option<T>>)
    ensures forall i :: 0 <= i < |xs| && xs[i].Some? ==> i in SomeIndices(xs)
  {
    if xs != [] {
      var k := |xs| - 1;
      var init := xs[..k];
      SomeIndicesComplete(init);
      assert forall i :: 0 <= i < k ==> init[i] == xs[i];
    }
  }

  /** `Somes` keeps exactly the present values, each once, in their original
      order, and drops exactly the absent ones. */
  lemma SomesCharacterised<T>(xs: seq<Option<T>>)
    ensures |Somes(xs)| == |SomeIndices(xs)| == |xs| - NoneCount(xs)
    ensures NoneCount(xs) <= |xs|
    ensures forall j :: 0 <= j < |SomeIndices(xs)| ==>
              SomeIndices(xs)[j] < |xs| && xs[SomeIndices(xs)[j]] == Some(Somes(xs)[j])
    ensures forall j, j' :: 0 <= j < j' < |SomeIndices(xs)| ==> SomeIndices(xs)[j] < SomeIndices(xs)[j']
    ensures forall i :: 0 <= i < |xs| && xs[i].Some? ==> i in SomeIndices(xs)
  {
    SomesLength(xs);
    SomeIndicesSound(xs);
    SomeIndicesIncreasing(xs);
    SomeIndicesComplete(xs);
  }

  /** When every step succeeds, none failed. */
  lemma {:induction false} NoneCountZero<T>(xs: seq<Option<T>>)
    requires forall i :: 0 <= i < |xs| ==> xs[i].Some?
    ensures NoneCount(xs) == 0
  {
    if xs != [] {
      var k := |xs| - 1;
      assert forall i :: 0 <= i < k ==> xs[..k][i] == xs[i];
      NoneCountZero(xs[..k]);
    }
  }

  /** When every step fails, all of them count as failed. */
  lemma {:induction false} NoneCountAll<T>(xs: seq<Option<T>>)
    requires forall i :: 0 <= i < |xs| ==> xs[i].None?
    ensures NoneCount(xs) == |xs|
  {
    if xs != [] {
      var k := |xs| - 1;
      assert forall i :: 0 <= i < k ==> xs[..k][i] == xs[i];
      NoneCountAll(xs[..k]);
    }
  }

  /** With every step failed, nothing is kept. */
  lemma {:induction false} SomesAllAbsent<T>(xs: seq<Option<T>>)
    requires NoneCount(xs) == |xs|
    ensures Somes(xs) == []
  {
    SomesCharacterised(xs);
  }
}
