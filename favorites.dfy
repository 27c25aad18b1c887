/** The favourites list of the home screen: movie ids that the heart button toggles in and out. */
module Favorites {

  /** `favs` with every occurrence of `id` dropped (`favs.filter(x => x !== id)`). */
  function Remove(favs: seq<int>, id: int): (r: seq<int>)
    ensures id !in r
    ensures multiset(r) == multiset(favs)[id := 0]
    ensures |r| == |favs| - multiset(favs)[id]
    ensures forall x :: x != id ==> (x in r <==> x in favs)
    decreases |favs|
  {
    if favs == [] then []
    else
      assert favs == [favs[0]] + favs[1..];
      if favs[0] == id then Remove(favs[1..], id)
      else [favs[0]] + Remove(favs[1..], id)
  }

  /** Removing from a concatenation removes from each part and keeps the parts in order. */
  lemma {:induction false} RemoveDistributes(a: seq<int>, b: seq<int>, id: int)
    ensures Remove(a + b, id) == Remove(a, id) + Remove(b, id)
    decreases |a|
  {
    if a == [] {
      assert a + b == b;
    } else {
      assert (a + b)[0] == a[0];
      assert (a + b)[1..] == a[1..] + b;
      RemoveDistributes(a[1..], b, id);
    }
  }

  /** Removing an id that does not occur changes nothing. */
  lemma {:induction false} RemoveAbsent(favs: seq<int>, id: int)
    requires id !in favs
    ensures Remove(favs, id) == favs
    decreases |favs|
  {
    if favs != [] {
      assert favs[0] != id && id !in favs[1..];
      RemoveAbsent(favs[1..], id);
      assert favs == [favs[0]] + favs[1..];
    }
  }

  /**
   * Every kept id stays where it was relative to the others: whatever precedes an
   * occurrence of `x != id` still precedes it afterwards, and whatever follows still follows.
   */
  lemma RemoveKeepsOrder(before: seq<int>, x: int, after: seq<int>, id: int)
    requires x != id
    ensures Remove(before + [x] + after, id) == Remove(before, id) + [x] + Remove(after, id)
  {
    var front := before + [x];
    RemoveDistributes(front, after, id);
    RemoveDistributes(before, [x], id);
    assert [x][1..] == [];
    assert Remove([x], id) == [x];
  }

  /** No id occurs twice. */
  predicate NoDuplicates(s: seq<int>) {
    forall i, j :: 0 <= i < j < |s| ==> s[i] != s[j]
  }

  /** Removing ids from a list without duplicates leaves a list without duplicates. */
  lemma {:induction false} RemoveKeepsNoDuplicates(favs: seq<int>, id: int)
    requires NoDuplicates(favs)
    ensures NoDuplicates(Remove(favs, id))
    decreases |favs|
  {
    if favs != [] {
      var tail := favs[1..];
      assert NoDuplicates(tail) by {
        forall i, j | 0 <= i < j < |tail| ensures tail[i] != tail[j] {
          assert tail[i] == favs[i + 1] && tail[j] == favs[j + 1];
        }
      }
      RemoveKeepsNoDuplicates(tail, id);
      if favs[0] != id {
        var rest := Remove(tail, id);
        assert favs[0] !in tail by {
          forall j | 0 <= j < |tail| ensures tail[j] != favs[0] {
            assert tail[j] == favs[j + 1];
          }
        }
        assert favs[0] !in rest;
        var r := [favs[0]] + rest;
        forall i, j | 0 <= i < j < |r| ensures r[i] != r[j] {
          if i == 0 {
            assert r[j] == rest[j - 1];
          } else {
            assert r[i] == rest[i - 1] && r[j] == rest[j - 1];
          }
        }
      }
    }
  }

  /**
   * The favourites after pressing the heart of movie `id`: an id already present is
   * removed (every occurrence of it), an absent one is appended at the end.
   */
  function Toggle(favs: seq<int>, id: int): (r: seq<int>)
    ensures id in r <==> id !in favs
    ensures forall x :: x != id ==> (x in r <==> x in favs)
    ensures id !in favs ==> |r| == |favs| + 1 && r[..|favs|] == favs && r[|favs|] == id
    ensures id in favs ==> |r| < |favs| && multiset(r) == multiset(favs)[id := 0]
    ensures id in favs ==> r == Remove(favs, id)
  {
    if id in favs then Remove(favs, id) else favs + [id]
  }

  /** Toggling keeps a list free of duplicates. */
  lemma ToggleKeepsNoDuplicates(favs: seq<int>, id: int)
    requires NoDuplicates(favs)
    ensures NoDuplicates(Toggle(favs, id))
  {
    if id in favs {
      RemoveKeepsNoDuplicates(favs, id);
    } else {
      var r := favs + [id];
      forall i, j | 0 <= i < j < |r| ensures r[i] != r[j] {
        if j == |favs| {
          assert r[i] == favs[i];
        } else {
          assert r[i] == favs[i] && r[j] == favs[j];
        }
      }
    }
  }

  /** Toggling an absent id twice gives back exactly the list it started from. */
  lemma ToggleTwiceRestores(favs: seq<int>, id: int)
    requires id !in favs
    ensures Toggle(Toggle(favs, id), id) == favs
  {
    RemoveDistributes(favs, [id], id);
    RemoveAbsent(favs, id);
    assert Remove([id], id) == Remove([], id);
  }

  /** The favourites after the heart buttons of `ids` have been pressed in turn. */
  function ApplyToggles(favs: seq<int>, ids: seq<int>): seq<int>
    decreases |ids|
  {
    if ids == [] then favs
    else Toggle(ApplyToggles(favs, ids[..|ids| - 1]), ids[|ids| - 1])
  }

  /**
   * Membership parity: after any sequence of toggles, an id is a favourite exactly when it
   * started as one and was toggled an even number of times, or started absent and was
   * toggled an odd number of times. Toggles of other ids never affect it.
   */
  lemma {:induction false} ToggleParity(favs: seq<int>, ids: seq<int>, x: int)
    ensures x in ApplyToggles(favs, ids) <==> (x in favs <==> multiset(ids)[x] % 2 == 0)
    decreases |ids|
  {
    if ids != [] {
      var n := |ids|;
      var init, last := ids[..n - 1], ids[n - 1];
      var before := ApplyToggles(favs, init);
      ToggleParity(favs, init, x);
      assert ids == init + [last];
      var c := multiset(init)[x];
      if last == x {
        assert multiset(ids)[x] == c + 1;
        assert (c + 1) % 2 == 0 <==> c % 2 != 0;
      } else {
        assert multiset(ids)[x] == c;
      }
    }
  }

  /** `n` presses of the same heart button. */
  function Repeat(id: int, n: nat): (r: seq<int>)
    ensures |r| == n && forall i :: 0 <= i < n ==> r[i] == id
  {
    seq(n, _ => id)
  }

  /**
   * Starting from an absent id, an even number of toggles gives back exactly the original
   * list and an odd number gives the original list with the id appended.
   */
  lemma {:induction false} RepeatedToggles(favs: seq<int>, id: int, k: nat)
    requires id !in favs
    ensures ApplyToggles(favs, Repeat(id, 2 * k)) == favs
    ensures ApplyToggles(favs, Repeat(id, 2 * k + 1)) == favs + [id]
    decreases k
  {
    if k == 0 {
      assert Repeat(id, 1)[..0] == [];
    } else {
      RepeatedToggles(favs, id, k - 1);
      assert Repeat(id, 2 * k)[..2 * k - 1] == Repeat(id, 2 * k - 1);
      assert Repeat(id, 2 * k + 1)[..2 * k] == Repeat(id, 2 * k);
      ToggleTwiceRestores(favs, id);
    }
  }
}
