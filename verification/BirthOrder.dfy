/**
  The listing order over whole histories of replace-all calls. The reference is a table
  ordered by birth: each key is born at the pair (call, first position in that call) with
  which it last entered, and stays until a call does not mention it.
 */
module BirthOrder {
  import opened IntendedUses

  type History = seq<seq<Row>>

  datatype Birth = Birth(call: nat, position: nat)

  predicate Earlier(a: Birth, b: Birth) {
    a.call < b.call || (a.call == b.call && a.position < b.position)
  }

  /** The order slice after a history, starting from no rows. */
  function OrderAfter(h: History): seq<string> {
    if h == [] then []
    else
      var uses := h[|h| - 1];
      AppendNew(Kept(OrderAfter(h[..|h| - 1]), KeySet(uses)), uses)
  }

  function KeySet(uses: seq<Row>): (keys: set<string>)
    ensures forall k :: k in keys <==> Mentions(uses, k)
  {
    set i | 0 <= i < |uses| :: uses[i].intendedUseId
  }

  predicate Present(h: History, key: string) {
    h != [] && Mentions(h[|h| - 1], key)
  }

  function FirstPosition(uses: seq<Row>, key: string): (p: nat)
    requires Mentions(uses, key)
    ensures p < |uses| && uses[p].intendedUseId == key
    ensures forall i :: 0 <= i < p ==> uses[i].intendedUseId != key
  {
    if uses[0].intendedUseId == key then 0
    else
      assert Mentions(uses[1..], key) by {
        var i :| 0 <= i < |uses| && uses[i].intendedUseId == key;
        assert uses[1..][i - 1].intendedUseId == key;
      }
      1 + FirstPosition(uses[1..], key)
  }

  /** The call with which a present key last entered: every call since then mentions it. */
  function EntryCall(h: History, key: string): (c: nat)
    requires Present(h, key)
    ensures c < |h|
    ensures forall j :: c <= j < |h| ==> Mentions(h[j], key)
    ensures c == 0 || !Mentions(h[c - 1], key)
  {
    var n := |h| - 1;
    if n > 0 && Mentions(h[n - 1], key) then EntryCall(h[..n], key) else n
  }

  function BirthOf(h: History, key: string): Birth
    requires Present(h, key)
  {
    var c := EntryCall(h, key);
    Birth(c, FirstPosition(h[c], key))
  }

  /** Exactly the present keys, in strictly increasing order of birth. */
  ghost predicate SortedByBirth(h: History, order: seq<string>) {
    && (forall k :: k in order <==> Present(h, k))
    && (forall i, j :: 0 <= i < j < |order| ==> Earlier(BirthOf(h, order[i]), BirthOf(h, order[j])))
  }

  lemma {:induction false} AppendedKeyIsNew(order: seq<string>, uses: seq<Row>, i: nat)
    requires |order| <= i < |AppendNew(order, uses)|
    ensures AppendNew(order, uses)[i] !in order && Mentions(uses, AppendNew(order, uses)[i])
  {
    var before := AppendNew(order, uses[..|uses| - 1]);
    MentionsFrontOrLast(uses);
    if i == |before| {
    } else {
      AppendedKeyIsNew(order, uses[..|uses| - 1], i);
      assert AppendNew(order, uses)[i] == before[i];
    }
  }

  lemma {:induction false} AppendNewInOrder(order: seq<string>, uses: seq<Row>, i: nat, j: nat)
    requires |order| <= i < j < |AppendNew(order, uses)|
    ensures var r := AppendNew(order, uses);
            && Mentions(uses, r[i]) && Mentions(uses, r[j])
            && FirstPosition(uses, r[i]) < FirstPosition(uses, r[j])
  {
    var front := uses[..|uses| - 1];
    var key := uses[|uses| - 1].intendedUseId;
    var before, r := AppendNew(order, front), AppendNew(order, uses);
    assert r[i] == before[i];
    AppendedKeyIsNew(order, front, i);
    AppendedKeyIsNew(order, uses, i);
    AppendedKeyIsNew(order, uses, j);
    FirstPositionInFront(uses, r[i]);
    if j < |before| {
      AppendedKeyIsNew(order, front, j);
      AppendNewInOrder(order, front, i, j);
      FirstPositionInFront(uses, r[j]);
    } else {
      forall p | 0 <= p < |front|
        ensures uses[p].intendedUseId != key
      {
        assert Mentions(front, front[p].intendedUseId);
      }
    }
  }

  lemma FirstPositionInFront(uses: seq<Row>, key: string)
    requires uses != [] && Mentions(uses[..|uses| - 1], key) && Mentions(uses, key)
    ensures FirstPosition(uses, key) == FirstPosition(uses[..|uses| - 1], key)
  {
    var front := uses[..|uses| - 1];
    var p, q := FirstPosition(uses, key), FirstPosition(front, key);
    assert uses[q].intendedUseId == key;
    assert p < |front| ==> front[p].intendedUseId == key;
  }

  lemma {:induction false} KeptIsSubsequence(order: seq<string>, keys: set<string>, i: nat, j: nat)
    requires i < j < |Kept(order, keys)|
    ensures exists p, q :: 0 <= p < q < |order| && order[p] == Kept(order, keys)[i] && order[q] == Kept(order, keys)[j]
  {
    var kept := Kept(order, keys);
    var front := order[..|order| - 1];
    if j < |Kept(front, keys)| {
      KeptIsSubsequence(front, keys, i, j);
      var p, q :| 0 <= p < q < |front| && front[p] == kept[i] && front[q] == kept[j];
      assert order[p] == kept[i] && order[q] == kept[j];
    } else {
      assert kept[i] in front;
      var p :| 0 <= p < |front| && front[p] == kept[i];
      assert order[p] == kept[i] && order[|order| - 1] == kept[j];
    }
  }

  lemma BirthSurvives(h: History, key: string)
    requires Present(h, key) && |h| > 1 && Present(h[..|h| - 1], key)
    ensures BirthOf(h, key) == BirthOf(h[..|h| - 1], key)
    ensures BirthOf(h, key).call < |h| - 1
  {
    assert Mentions(h[|h| - 2], key);
  }

  lemma BornNow(h: History, key: string)
    requires Present(h, key) && !Present(h[..|h| - 1], key)
    ensures BirthOf(h, key) == Birth(|h| - 1, FirstPosition(h[|h| - 1], key))
  {
    assert |h| > 1 ==> h[..|h| - 1][|h| - 2] == h[|h| - 2];
  }

  /** The part of the new order that the last call kept from the previous order. */
  function KeptPart(h: History): (kept: seq<string>)
    requires h != []
    ensures kept <= OrderAfter(h)
  {
    Kept(OrderAfter(h[..|h| - 1]), KeySet(h[|h| - 1]))
  }

  lemma KeptKeyBirth(h: History, i: nat)
    requires h != [] && SortedByBirth(h[..|h| - 1], OrderAfter(h[..|h| - 1]))
    requires i < |KeptPart(h)|
    ensures var key := KeptPart(h)[i];
            && Present(h, key) && Present(h[..|h| - 1], key)
            && BirthOf(h, key) == BirthOf(h[..|h| - 1], key)
            && BirthOf(h, key).call < |h| - 1
  {
    var key := KeptPart(h)[i];
    assert key in OrderAfter(h[..|h| - 1]);
    BirthSurvives(h, key);
  }

  lemma NewKeyBirth(h: History, i: nat)
    requires h != [] && SortedByBirth(h[..|h| - 1], OrderAfter(h[..|h| - 1]))
    requires |KeptPart(h)| <= i < |OrderAfter(h)|
    ensures var key := OrderAfter(h)[i];
            && Present(h, key)
            && BirthOf(h, key) == Birth(|h| - 1, FirstPosition(h[|h| - 1], key))
  {
    var key := OrderAfter(h)[i];
    AppendedKeyIsNew(KeptPart(h), h[|h| - 1], i);
    assert key !in OrderAfter(h[..|h| - 1]);
    BornNow(h, key);
  }

  lemma PairInBirthOrder(h: History, i: nat, j: nat)
    requires h != [] && SortedByBirth(h[..|h| - 1], OrderAfter(h[..|h| - 1]))
    requires i < j < |OrderAfter(h)|
    ensures var order := OrderAfter(h);
            && Present(h, order[i]) && Present(h, order[j])
            && Earlier(BirthOf(h, order[i]), BirthOf(h, order[j]))
  {
    var kept, order := KeptPart(h), OrderAfter(h);
    if j < |kept| {
      KeptKeyBirth(h, i);
      KeptKeyBirth(h, j);
      KeptIsSubsequence(OrderAfter(h[..|h| - 1]), KeySet(h[|h| - 1]), i, j);
    } else if i < |kept| {
      KeptKeyBirth(h, i);
      NewKeyBirth(h, j);
    } else {
      NewKeyBirth(h, i);
      NewKeyBirth(h, j);
      AppendNewInOrder(kept, h[|h| - 1], i, j);
    }
  }

  lemma OrderHoldsPresentKeys(h: History)
    requires h != []
    ensures forall k :: k in OrderAfter(h) <==> Present(h, k)
  {
  }

  /** Main result: whatever the history, the order slice is the birth order. */
  lemma {:induction false} OrderIsBirthOrder(h: History)
    ensures SortedByBirth(h, OrderAfter(h))
  {
    if h == [] {
    } else {
      OrderIsBirthOrder(h[..|h| - 1]);
      OrderHoldsPresentKeys(h);
      var order := OrderAfter(h);
      forall i, j | 0 <= i < j < |order|
        ensures Earlier(BirthOf(h, order[i]), BirthOf(h, order[j]))
      {
        PairInBirthOrder(h, i, j);
      }
    }
  }

  /** The reference has one solution: any birth-sorted list is the order slice. */
  lemma BirthOrderIsUnique(h: History, order: seq<string>)
    requires SortedByBirth(h, order)
    ensures order == OrderAfter(h)
  {
    OrderIsBirthOrder(h);
    var slice := OrderAfter(h);
    NoLongerThan(h, order, slice);
    NoLongerThan(h, slice, order);
    forall i | 0 <= i < |order|
      ensures order[i] == slice[i]
    {
      SortedListsAgree(h, order, slice, i);
    }
  }

  lemma NoLongerThan(h: History, a: seq<string>, b: seq<string>)
    requires SortedByBirth(h, a) && SortedByBirth(h, b)
    ensures |a| <= |b|
  {
    if a != [] {
      var last := |a| - 1;
      assert a[last] in b;
      var p :| 0 <= p < |b| && b[p] == a[last];
      if p < |a| {
        SortedListsAgree(h, a, b, p);
      }
    }
  }

  lemma {:induction false} SortedListsAgree(h: History, a: seq<string>, b: seq<string>, i: nat)
    requires SortedByBirth(h, a) && SortedByBirth(h, b)
    requires i < |a| && i < |b|
    ensures a[i] == b[i]
    decreases i
  {
    forall k | 0 <= k < i
      ensures a[k] == b[k]
    {
      SortedListsAgree(h, a, b, k);
    }
    assert a[i] in b && b[i] in a;
    var p :| 0 <= p < |b| && b[p] == a[i];
    var q :| 0 <= q < |a| && a[q] == b[i];
  }
}
