/** The set-toggle on id lists that both cuisine filters use for their draft
    selection: remove the id when present, append it when absent. */
module IdToggle {
  import opened Sequences

  /** No id occurs twice. */
  predicate Distinct<T(==,!new)>(ids: seq<T>)
  {
    forall i, j :: 0 <= i < j < |ids| ==> ids[i] != ids[j]
  }

  /** `ids.filter(x => x !== id)`: every occurrence of `id` goes, every other
      id stays as often as it was there, in the same order. */
  function Without<T(==,!new)>(ids: seq<T>, id: T): (r: seq<T>)
    ensures forall x :: x in r <==> x in ids && x != id
    ensures IsSubsequence(r, ids)
    ensures forall x :: multiset(r)[x] == if x == id then 0 else multiset(ids)[x]
    ensures |r| <= |ids|
  {
    if ids == [] then []
    else
      var rest := Without(ids[1..], id);
      assert ids == [ids[0]] + ids[1..];
      if ids[0] == id then rest
      else
        assert ([ids[0]] + rest)[1..] == rest;
        [ids[0]] + rest
  }

  /** `prev.includes(id) ? prev.filter(x => x !== id) : [...prev, id]`. */
  function Toggled<T(==,!new)>(ids: seq<T>, id: T): seq<T>
  {
    if id in ids then Without(ids, id) else ids + [id]
  }

  /** Toggling flips the membership of the toggled id and of no other id. */
  lemma ToggleFlipsOne<T(!new)>(ids: seq<T>, id: T, other: T)
    ensures id in Toggled(ids, id) <==> id !in ids
    ensures other != id ==> (other in Toggled(ids, id) <==> other in ids)
  {
  }

  /** Toggling an absent id appends it at the end, and toggling it again
      restores the original list. */
  lemma {:induction false} ToggleTwiceRestores<T(!new)>(ids: seq<T>, id: T)
    requires id !in ids
    ensures Toggled(ids, id) == ids + [id]
    ensures Toggled(Toggled(ids, id), id) == ids
  {
    WithoutAppended(ids, id);
  }

  lemma {:induction false} WithoutAppended<T(!new)>(ids: seq<T>, id: T)
    requires id !in ids
    ensures Without(ids + [id], id) == ids
  {
    if ids == [] {
      assert Without([id], id) == Without([], id);
    } else {
      assert (ids + [id])[0] == ids[0] != id;
      assert (ids + [id])[1..] == ids[1..] + [id];
      WithoutAppended(ids[1..], id);
      assert ids == [ids[0]] + ids[1..];
    }
  }

  lemma {:induction false} WithoutKeepsDistinct<T(!new)>(ids: seq<T>, id: T)
    requires Distinct(ids)
    ensures Distinct(Without(ids, id))
  {
    if ids != [] {
      WithoutKeepsDistinct(ids[1..], id);
      if ids[0] != id {
        var rest := Without(ids[1..], id);
        assert ids[0] !in rest by {
          assert ids[0] !in ids[1..];
        }
        forall i, j | 0 <= i < j < |[ids[0]] + rest|
          ensures ([ids[0]] + rest)[i] != ([ids[0]] + rest)[j]
        {
          if i == 0 {
            assert ([ids[0]] + rest)[j] == rest[j - 1];
          } else {
            assert ([ids[0]] + rest)[i] == rest[i - 1];
            assert ([ids[0]] + rest)[j] == rest[j - 1];
          }
        }
      }
    }
  }

  /** Toggling keeps the draft free of duplicates. */
  lemma {:induction false} ToggleKeepsDistinct<T(!new)>(ids: seq<T>, id: T)
    requires Distinct(ids)
    ensures Distinct(Toggled(ids, id))
  {
    if id in ids {
      WithoutKeepsDistinct(ids, id);
    } else {
      var r := ids + [id];
      forall i, j | 0 <= i < j < |r| ensures r[i] != r[j] {
        if j == |ids| {
          assert r[i] == ids[i];
        }
      }
    }
  }
}
