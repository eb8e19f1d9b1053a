/** What it means that some elements of a sequence were kept, in order. */
module Selections {
  /** Exactly the positions of the elements that pass, in increasing order. */
  ghost predicate Picks<T>(all: seq<T>, keep: T -> bool, pos: seq<nat>) {
    && (forall i, j :: 0 <= i < j < |pos| ==> pos[i] < pos[j])
    && (forall i :: 0 <= i < |pos| ==> pos[i] < |all| && keep(all[pos[i]]))
    && (forall j :: 0 <= j < |all| && keep(all[j]) ==> j in pos)
  }

  ghost predicate TakenAt<T>(all: seq<T>, pos: seq<nat>, kept: seq<T>) {
    |pos| == |kept| && forall i :: 0 <= i < |pos| ==> pos[i] < |all| && kept[i] == all[pos[i]]
  }

  /** kept holds exactly the elements of all that pass, in their order. */
  ghost predicate Selects<T>(all: seq<T>, keep: T -> bool, kept: seq<T>) {
    exists pos: seq<nat> :: Picks(all, keep, pos) && TakenAt(all, pos, kept)
  }

  lemma SelectsNothing<T>(keep: T -> bool)
    ensures Selects([], keep, [])
  {
    var pos: seq<nat> := [];
    var none: seq<T> := [];
    assert Picks(none, keep, pos) && TakenAt(none, pos, none);
  }

  lemma PicksMore<T>(all: seq<T>, keep: T -> bool, pos: seq<nat>, x: T)
    requires Picks(all, keep, pos) && keep(x)
    ensures Picks(all + [x], keep, pos + [|all|])
  {
    var longer, more := pos + [|all|], all + [x];
    forall i | 0 <= i < |longer|
      ensures longer[i] < |more| && keep(more[longer[i]])
    {
      assert i < |pos| ==> longer[i] == pos[i] && more[pos[i]] == all[pos[i]];
    }
    forall j | 0 <= j < |more| && keep(more[j])
      ensures j in longer
    {
      if j < |all| {
        assert all[j] == more[j] && j in pos;
      } else {
        assert longer[|pos|] == j;
      }
    }
  }

  lemma PicksSame<T>(all: seq<T>, keep: T -> bool, pos: seq<nat>, x: T)
    requires Picks(all, keep, pos) && !keep(x)
    ensures Picks(all + [x], keep, pos)
  {
    var more := all + [x];
    forall i | 0 <= i < |pos|
      ensures pos[i] < |more| && keep(more[pos[i]])
    {
      assert more[pos[i]] == all[pos[i]];
    }
    forall j | 0 <= j < |more| && keep(more[j])
      ensures j in pos
    {
      assert j < |all| && all[j] == more[j];
    }
  }

  lemma PicksNext<T>(all: seq<T>, keep: T -> bool, pos: seq<nat>, x: T)
    requires Picks(all, keep, pos)
    ensures Picks(all + [x], keep, if keep(x) then pos + [|all|] else pos)
  {
    hide Picks;
    if keep(x) {
      PicksMore(all, keep, pos, x);
    } else {
      PicksSame(all, keep, pos, x);
    }
  }

  lemma TakenAtMore<T>(all: seq<T>, pos: seq<nat>, kept: seq<T>, x: T)
    requires TakenAt(all, pos, kept)
    ensures TakenAt(all + [x], pos, kept)
    ensures TakenAt(all + [x], pos + [|all|], kept + [x])
  {
    forall i | 0 <= i < |pos|
      ensures pos[i] < |all + [x]| && kept[i] == (all + [x])[pos[i]]
    {
      assert (all + [x])[pos[i]] == all[pos[i]];
    }
  }

  lemma SelectsNext<T>(all: seq<T>, keep: T -> bool, kept: seq<T>, x: T)
    requires Selects(all, keep, kept)
    ensures Selects(all + [x], keep, if keep(x) then kept + [x] else kept)
  {
    hide Picks, TakenAt;
    var pos: seq<nat> :| Picks(all, keep, pos) && TakenAt(all, pos, kept);
    PicksNext(all, keep, pos, x);
    TakenAtMore(all, pos, kept, x);
  }

  lemma {:induction false} PicksAgree<T>(all: seq<T>, keep: T -> bool, a: seq<nat>, b: seq<nat>, i: nat)
    requires Picks(all, keep, a) && Picks(all, keep, b)
    requires i < |a| && i < |b|
    ensures a[i] == b[i]
    decreases i
  {
    forall k | 0 <= k < i
      ensures a[k] == b[k]
    {
      PicksAgree(all, keep, a, b, k);
    }
    assert a[i] in b && b[i] in a;
    var p :| 0 <= p < |b| && b[p] == a[i];
    var q :| 0 <= q < |a| && a[q] == b[i];
  }

  lemma NoMorePicks<T>(all: seq<T>, keep: T -> bool, a: seq<nat>, b: seq<nat>)
    requires Picks(all, keep, a) && Picks(all, keep, b)
    ensures |a| <= |b|
  {
    if |b| < |a| {
      assert a[|b|] in b;
      var p :| 0 <= p < |b| && b[p] == a[|b|];
      PicksAgree(all, keep, a, b, p);
    }
  }

  /** There is only one selection. */
  lemma SelectionIsUnique<T>(all: seq<T>, keep: T -> bool, a: seq<T>, b: seq<T>)
    requires Selects(all, keep, a) && Selects(all, keep, b)
    ensures a == b
  {
    var p: seq<nat> :| Picks(all, keep, p) && TakenAt(all, p, a);
    var q: seq<nat> :| Picks(all, keep, q) && TakenAt(all, q, b);
    NoMorePicks(all, keep, p, q);
    NoMorePicks(all, keep, q, p);
    forall i | 0 <= i < |a|
      ensures a[i] == b[i]
    {
      PicksAgree(all, keep, p, q, i);
    }
  }
}
