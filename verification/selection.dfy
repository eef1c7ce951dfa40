/**
 * The list of selected parcels kept by add-a-lot mode (`selectedParcels`),
 * and the toggle a click on a parcel shape applies to it.
 */
module Selection {

  /** One selected parcel: the feature's id and its display address. */
  datatype Parcel = Parcel(id: nat, address: string)

  /** No two entries of the selection carry the same id. */
  ghost predicate UniqueIds(sel: seq<Parcel>)
  {
    forall i, j :: 0 <= i < j < |sel| ==> sel[i].id != sel[j].id
  }

  /** Whether some entry carries `id` (the truthiness of `_.findWhere(sel, {id: id})`). */
  function HasId(sel: seq<Parcel>, id: nat): (b: bool)
    ensures b <==> exists i :: 0 <= i < |sel| && sel[i].id == id
  {
    if sel == [] then false
    else if sel[0].id == id then (assert sel[0].id == id; true)
    else
      var rest := HasId(sel[1..], id);
      assert rest ==> exists i :: 0 <= i < |sel| && sel[i].id == id by {
        if rest {
          var i :| 0 <= i < |sel[1..]| && sel[1..][i].id == id;
          assert sel[i + 1].id == id;
        }
      }
      rest
  }

  /** The entries whose id is not `id`, in their original order (`_.reject`). */
  function Without(sel: seq<Parcel>, id: nat): (r: seq<Parcel>)
    ensures |r| <= |sel|
    ensures forall q :: q in r <==> q in sel && q.id != id
  {
    if sel == [] then []
    else if sel[0].id == id then Without(sel[1..], id)
    else [sel[0]] + Without(sel[1..], id)
  }

  /** The selection after a click on parcel `p`: remove it if its id is selected, else append it. */
  function Toggle(sel: seq<Parcel>, p: Parcel): seq<Parcel>
  {
    if HasId(sel, p.id) then Without(sel, p.id) else sel + [p]
  }

  /** Rejecting an id that no entry carries changes nothing. */
  lemma {:induction false} WithoutAbsent(sel: seq<Parcel>, id: nat)
    requires !HasId(sel, id)
    ensures Without(sel, id) == sel
  {
    if sel != [] {
      assert sel[0].id != id;
      WithoutAbsent(sel[1..], id);
      assert sel == [sel[0]] + sel[1..];
    }
  }

  /** Rejecting the id of the single entry at `k` removes that entry and keeps the rest in order. */
  lemma {:induction false} WithoutAt(sel: seq<Parcel>, k: nat)
    requires UniqueIds(sel) && k < |sel|
    ensures Without(sel, sel[k].id) == sel[..k] + sel[k + 1..]
  {
    var id := sel[k].id;
    var tail := sel[1..];
    assert UniqueIds(tail) by {
      forall i, j | 0 <= i < j < |tail| ensures tail[i].id != tail[j].id {
        assert tail[i] == sel[i + 1] && tail[j] == sel[j + 1];
      }
    }
    if k == 0 {
      assert !HasId(tail, id) by {
        forall i | 0 <= i < |tail| ensures tail[i].id != id {
          assert tail[i] == sel[i + 1];
        }
      }
      WithoutAbsent(tail, id);
    } else {
      assert sel[0].id != id;
      assert tail[k - 1] == sel[k];
      WithoutAt(tail, k - 1);
      assert sel[..k] + sel[k + 1..] == [sel[0]] + (tail[..k - 1] + tail[k..]);
    }
  }

  /** Rejecting the id of an entry appended to a selection that lacked it gives the selection back. */
  lemma {:induction false} WithoutAppended(sel: seq<Parcel>, p: Parcel)
    requires !HasId(sel, p.id)
    ensures Without(sel + [p], p.id) == sel
  {
    if sel == [] {
      assert [] + [p] == [p];
    } else {
      assert sel[0].id != p.id;
      assert (sel + [p])[1..] == sel[1..] + [p];
      WithoutAppended(sel[1..], p);
      assert sel == [sel[0]] + sel[1..];
    }
  }

  /** Rejecting an id keeps the ids of the remaining entries distinct. */
  lemma {:induction false} WithoutUnique(sel: seq<Parcel>, id: nat)
    requires UniqueIds(sel)
    ensures UniqueIds(Without(sel, id))
  {
    if sel != [] {
      var tail := sel[1..];
      assert UniqueIds(tail) by {
        forall i, j | 0 <= i < j < |tail| ensures tail[i].id != tail[j].id {
          assert tail[i] == sel[i + 1] && tail[j] == sel[j + 1];
        }
      }
      WithoutUnique(tail, id);
      if sel[0].id != id {
        var w := Without(tail, id);
        var r := [sel[0]] + w;
        forall i, j | 0 <= i < j < |r| ensures r[i].id != r[j].id {
          if i == 0 {
            assert r[j] == w[j - 1] && r[j] in tail;
            var m :| 0 <= m < |tail| && tail[m] == r[j];
            assert sel[m + 1] == r[j];
          } else {
            assert r[i] == w[i - 1] && r[j] == w[j - 1];
          }
        }
      }
    }
  }

  /** A click flips whether the clicked id is selected. */
  lemma ToggleFlips(sel: seq<Parcel>, p: Parcel)
    ensures HasId(Toggle(sel, p), p.id) <==> !HasId(sel, p.id)
  {
    var t := Toggle(sel, p);
    if !HasId(sel, p.id) {
      assert t[|sel|] == p;
    }
  }

  /** A click keeps the selection free of duplicate ids. */
  lemma ToggleKeepsUnique(sel: seq<Parcel>, p: Parcel)
    requires UniqueIds(sel)
    ensures UniqueIds(Toggle(sel, p))
  {
    if HasId(sel, p.id) {
      WithoutUnique(sel, p.id);
    }
  }

  /** A click on a selected parcel removes its one entry and keeps the others in their order. */
  lemma ToggleRemovesAt(sel: seq<Parcel>, p: Parcel, k: nat)
    requires UniqueIds(sel) && k < |sel| && sel[k].id == p.id
    ensures Toggle(sel, p) == sel[..k] + sel[k + 1..]
  {
    WithoutAt(sel, k);
  }

  /** Two clicks on a parcel that was not selected give the original selection back. */
  lemma ToggleTwiceAbsent(sel: seq<Parcel>, p: Parcel)
    requires !HasId(sel, p.id)
    ensures Toggle(Toggle(sel, p), p) == sel
  {
    assert HasId(sel + [p], p.id) by { assert (sel + [p])[|sel|] == p; }
    WithoutAppended(sel, p);
  }

  /**
   * Two clicks on a parcel that was selected do not give the original selection back:
   * its entry moves to the end and carries the address of the second click.
   */
  lemma ToggleTwicePresent(sel: seq<Parcel>, p: Parcel, k: nat)
    requires UniqueIds(sel) && k < |sel| && sel[k].id == p.id
    ensures Toggle(Toggle(sel, p), p) == sel[..k] + sel[k + 1..] + [p]
  {
    ToggleRemovesAt(sel, p, k);
    ToggleFlips(sel, p);
  }

  /** What a click does to a selection without duplicate ids, in one statement. */
  lemma ToggleFacts(sel: seq<Parcel>, p: Parcel)
    requires UniqueIds(sel)
    ensures UniqueIds(Toggle(sel, p))
    ensures HasId(Toggle(sel, p), p.id) <==> !HasId(sel, p.id)
    ensures !HasId(sel, p.id) ==> Toggle(sel, p) == sel + [p]
    ensures forall k :: 0 <= k < |sel| && sel[k].id == p.id ==> Toggle(sel, p) == sel[..k] + sel[k + 1..]
  {
    ToggleKeepsUnique(sel, p);
    ToggleFlips(sel, p);
    forall k | 0 <= k < |sel| && sel[k].id == p.id
      ensures Toggle(sel, p) == sel[..k] + sel[k + 1..]
    {
      ToggleRemovesAt(sel, p, k);
    }
  }

  /** What a click leaves in the selection, entry by entry. */
  lemma ToggleMembers(sel: seq<Parcel>, p: Parcel, x: Parcel)
    ensures x in Toggle(sel, p) <==> (x in sel && x.id != p.id) || (x == p && !HasId(sel, p.id))
  {
  }

  /** Clicks on two different parcels commute, up to the order of the entries. */
  lemma ToggleCommutes(sel: seq<Parcel>, p: Parcel, q: Parcel)
    requires p.id != q.id
    ensures forall x :: x in Toggle(Toggle(sel, p), q) <==> x in Toggle(Toggle(sel, q), p)
  {
    var tp, tq := Toggle(sel, p), Toggle(sel, q);
    assert HasId(tp, q.id) == HasId(sel, q.id) by {
      if HasId(sel, q.id) {
        var i :| 0 <= i < |sel| && sel[i].id == q.id;
        ToggleMembers(sel, p, sel[i]);
        var j :| 0 <= j < |tp| && tp[j] == sel[i];
      }
      if HasId(tp, q.id) {
        var j :| 0 <= j < |tp| && tp[j].id == q.id;
        ToggleMembers(sel, p, tp[j]);
      }
    }
    assert HasId(tq, p.id) == HasId(sel, p.id) by {
      if HasId(sel, p.id) {
        var i :| 0 <= i < |sel| && sel[i].id == p.id;
        ToggleMembers(sel, q, sel[i]);
        var j :| 0 <= j < |tq| && tq[j] == sel[i];
      }
      if HasId(tq, p.id) {
        var j :| 0 <= j < |tq| && tq[j].id == p.id;
        ToggleMembers(sel, q, tq[j]);
      }
    }
    forall x ensures x in Toggle(tp, q) <==> x in Toggle(tq, p) {
      ToggleMembers(sel, p, x);
      ToggleMembers(sel, q, x);
      ToggleMembers(tp, q, x);
      ToggleMembers(tq, p, x);
    }
  }
}
