/**
  One client's intended uses: a map from business key to row plus the order in which the
  keys entered, both rebuilt by every replace-all call.
 */
module IntendedUses {
  import opened Ids
  import opened Ts5

  /** The scope projection of one credential. */
  datatype RegisteredCredential = RegisteredCredential(
    format: string, doctypesOrVcts: seq<string>, allClaims: bool, claims: seq<ClaimPath>)

  /** id is the internal row id, intendedUseId the business key; revokedAt "" means not revoked. */
  datatype Row = Row(
    id: string,
    intendedUseId: string,
    purpose: seq<MultiLangString>,
    credentials: seq<RegisteredCredential>,
    revokedAt: string)

  datatype Table = Table(rows: map<string, Row>, order: seq<string>)

  predicate Mentions(uses: seq<Row>, key: string) {
    exists i :: 0 <= i < |uses| && uses[i].intendedUseId == key
  }

  predicate KeysPresent(uses: seq<Row>) {
    forall i :: 0 <= i < |uses| ==> uses[i].intendedUseId != ""
  }

  /** The row a call stores for one submitted use, and the sequence number afterwards. */
  function ResolveRow(existing: map<string, Row>, use: Row, number: nat): (Row, nat) {
    if use.id != "" then (use, number)
    else if use.intendedUseId in existing then (use.(id := existing[use.intendedUseId].id), number)
    else (use.(id := MintedId(number + 1)), number + 1)
  }

  function ResolveRows(existing: map<string, Row>, uses: seq<Row>, number: nat): (r: (map<string, Row>, nat))
    ensures number <= r.1
  {
    if uses == [] then (map[], number)
    else
      var (rows, n) := ResolveRows(existing, uses[..|uses| - 1], number);
      var use := uses[|uses| - 1];
      var (row, n') := ResolveRow(existing, use, n);
      (rows[use.intendedUseId := row], n')
  }

  function Kept(order: seq<string>, keys: set<string>): (kept: seq<string>)
    ensures forall k :: k in kept <==> k in order && k in keys
  {
    if order == [] then []
    else
      var before := Kept(order[..|order| - 1], keys);
      var key := order[|order| - 1];
      assert order == order[..|order| - 1] + [key];
      if key in keys then before + [key] else before
  }

  /** order followed by the keys of uses it lacks, in order of first appearance. */
  function AppendNew(order: seq<string>, uses: seq<Row>): (r: seq<string>)
    ensures forall k :: k in r <==> k in order || Mentions(uses, k)
    ensures order <= r
  {
    if uses == [] then order
    else
      var front := uses[..|uses| - 1];
      var before := AppendNew(order, front);
      var key := uses[|uses| - 1].intendedUseId;
      assert forall k :: Mentions(uses, k) <==> Mentions(front, k) || k == key by {
        MentionsFrontOrLast(uses);
      }
      if key in before then before else before + [key]
  }

  lemma MentionsFrontOrLast(uses: seq<Row>)
    requires uses != []
    ensures forall k :: Mentions(uses, k)
                   <==> Mentions(uses[..|uses| - 1], k) || k == uses[|uses| - 1].intendedUseId
  {
    var front, last := uses[..|uses| - 1], uses[|uses| - 1];
    forall k | Mentions(front, k) || k == last.intendedUseId
      ensures Mentions(uses, k)
    {
      if Mentions(front, k) {
        var i :| 0 <= i < |front| && front[i].intendedUseId == k;
        assert uses[i].intendedUseId == k;
      } else {
        assert uses[|uses| - 1].intendedUseId == k;
      }
    }
    forall k | Mentions(uses, k) && k != last.intendedUseId
      ensures Mentions(front, k)
    {
      var i :| 0 <= i < |uses| && uses[i].intendedUseId == k;
      assert front[i].intendedUseId == k;
    }
  }

  /** The replace-all call: the rebuilt table and the sequence number it leaves. */
  function Replace(t: Table, uses: seq<Row>, number: nat): (Table, nat) {
    var (rows, n) := ResolveRows(t.rows, uses, number);
    (Table(rows, AppendNew(Kept(t.order, rows.Keys), uses)), n)
  }

  /** The rows in listing order; a key without a row is skipped. */
  function Listing(t: Table): seq<Row>
    decreases |t.order|
  {
    if t.order == [] then []
    else
      var key := t.order[|t.order| - 1];
      var before := Listing(Table(t.rows, t.order[..|t.order| - 1]));
      if key in t.rows then before + [t.rows[key]] else before
  }

  ghost predicate NoDuplicates(s: seq<string>) {
    forall i, j :: 0 <= i < j < |s| ==> s[i] != s[j]
  }

  /** The two structures are one: the order enumerates exactly the keys, each once. */
  ghost predicate Consistent(t: Table) {
    && NoDuplicates(t.order)
    && (forall k :: k in t.order <==> k in t.rows)
    && (forall k :: k in t.rows ==> t.rows[k].intendedUseId == k && t.rows[k].id != "")
  }

  lemma {:induction false} ResolvedKeys(existing: map<string, Row>, uses: seq<Row>, number: nat)
    ensures var rows := ResolveRows(existing, uses, number).0;
            forall k :: k in rows <==> Mentions(uses, k)
  {
    if uses == [] {
    } else {
      ResolvedKeys(existing, uses[..|uses| - 1], number);
      MentionsFrontOrLast(uses);
    }
  }

  lemma {:induction false} KeptNoDuplicates(order: seq<string>, keys: set<string>)
    requires NoDuplicates(order)
    ensures NoDuplicates(Kept(order, keys))
  {
    if order == [] {
    } else {
      KeptNoDuplicates(order[..|order| - 1], keys);
    }
  }

  lemma {:induction false} AppendNewNoDuplicates(order: seq<string>, uses: seq<Row>)
    requires NoDuplicates(order)
    ensures NoDuplicates(AppendNew(order, uses))
  {
    if uses == [] {
    } else {
      AppendNewNoDuplicates(order, uses[..|uses| - 1]);
    }
  }

  /** Listing a consistent table skips nothing: one row per key, in key order. */
  lemma {:induction false} ListingFollowsOrder(t: Table)
    requires forall k :: k in t.order ==> k in t.rows
    ensures |Listing(t)| == |t.order|
    ensures forall i :: 0 <= i < |t.order| ==> Listing(t)[i] == t.rows[t.order[i]]
    decreases |t.order|
  {
    if t.order == [] {
    } else {
      ListingFollowsOrder(Table(t.rows, t.order[..|t.order| - 1]));
    }
  }

  // ---- Row contents and internal ids ----

  /** The last submitted use with the given key. */
  function LastMention(uses: seq<Row>, key: string): (r: Row)
    requires Mentions(uses, key)
    ensures r.intendedUseId == key
  {
    if uses[|uses| - 1].intendedUseId == key then uses[|uses| - 1]
    else
      MentionsFrontOrLast(uses);
      LastMention(uses[..|uses| - 1], key)
  }

  /**
    A stored row carries the contents of the last submitted use with its key, and its
    internal id is the submitted one, else the id the row already had, else a new one.
   */
  lemma {:induction false} StoredRowIsLastMention(existing: map<string, Row>, uses: seq<Row>, number: nat, key: string)
    requires Mentions(uses, key)
    ensures var (rows, n) := ResolveRows(existing, uses, number);
            && key in rows
            && rows[key].(id := "") == LastMention(uses, key).(id := "")
            && (LastMention(uses, key).id != "" ==> rows[key].id == LastMention(uses, key).id)
            && (LastMention(uses, key).id == "" && key in existing ==> rows[key].id == existing[key].id)
            && (LastMention(uses, key).id == "" && key !in existing ==>
                  exists m :: number < m <= n && rows[key].id == MintedId(m))
  {
    var last, front := uses[|uses| - 1], uses[..|uses| - 1];
    if last.intendedUseId == key {
      var n := ResolveRows(existing, front, number).1;
      assert last.id == "" && key !in existing ==> ResolveRow(existing, last, n).0.id == MintedId(n + 1);
    } else {
      MentionsFrontOrLast(uses);
      StoredRowIsLastMention(existing, front, number, key);
    }
  }

  /** Every replace call keeps the map and the order slice in step. */
  lemma ReplaceConsistent(t: Table, uses: seq<Row>, number: nat)
    requires Consistent(t)
    ensures Consistent(Replace(t, uses, number).0)
    ensures forall k :: k in Replace(t, uses, number).0.rows <==> Mentions(uses, k)
  {
    var (rows, n) := ResolveRows(t.rows, uses, number);
    ResolvedKeys(t.rows, uses, number);
    KeptNoDuplicates(t.order, rows.Keys);
    AppendNewNoDuplicates(Kept(t.order, rows.Keys), uses);
    forall k | k in rows
      ensures rows[k].intendedUseId == k && rows[k].id != ""
    {
      StoredRowIsLastMention(t.rows, uses, number, k);
      assert rows[k].(id := "").intendedUseId == k;
      if LastMention(uses, k).id == "" && k !in t.rows {
        var m :| number < m <= n && rows[k].id == MintedId(m);
        MintedIdNotEmpty(m);
      }
    }
  }

  lemma {:induction false} ResolveWithoutMinting(existing: map<string, Row>, uses: seq<Row>, number: nat)
    requires forall k :: Mentions(uses, k) ==> k in existing
    ensures ResolveRows(existing, uses, number).1 == number
  {
    if uses == [] {
    } else {
      MentionsFrontOrLast(uses);
      ResolveWithoutMinting(existing, uses[..|uses| - 1], number);
    }
  }

  lemma {:induction false} KeptAll(order: seq<string>, keys: set<string>)
    requires forall k :: k in order ==> k in keys
    ensures Kept(order, keys) == order
  {
    if order == [] {
    } else {
      KeptAll(order[..|order| - 1], keys);
    }
  }

  lemma {:induction false} AppendNothingNew(order: seq<string>, uses: seq<Row>)
    requires forall k :: Mentions(uses, k) ==> k in order
    ensures AppendNew(order, uses) == order
  {
    if uses == [] {
    } else {
      MentionsFrontOrLast(uses);
      AppendNothingNew(order, uses[..|uses| - 1]);
    }
  }

  /** Submitting the same rows twice: the second call changes nothing and mints nothing. */
  lemma ReplaceTwice(t: Table, uses: seq<Row>, number: nat)
    requires Consistent(t)
    ensures var (t1, n1) := Replace(t, uses, number);
            forall m: nat :: Replace(t1, uses, m) == (t1, m)
  {
    var (t1, n1) := Replace(t, uses, number);
    ReplaceConsistent(t, uses, number);
    forall m: nat
      ensures Replace(t1, uses, m) == (t1, m)
    {
      ResolveWithoutMinting(t1.rows, uses, m);
      var rows := ResolveRows(t1.rows, uses, m).0;
      ResolvedKeys(t1.rows, uses, m);
      forall k | Mentions(uses, k)
        ensures rows[k] == t1.rows[k]
      {
        StoredRowIsLastMention(t.rows, uses, number, k);
        StoredRowIsLastMention(t1.rows, uses, m, k);
        assert rows[k].(id := "") == t1.rows[k].(id := "");
        assert rows[k].id == t1.rows[k].id;
      }
      assert rows == t1.rows;
      KeptAll(t1.order, rows.Keys);
      AppendNothingNew(t1.order, uses);
    }
  }
}
