/** Intended uses over whole runs of store calls. */
module UseHistories {
  import opened BirthOrder
  import opened Ids
  import opened IntendedUses
  import opened Registry
  import opened RegistryInvariants
  import opened Slugs

  predicate Replaces(call: Call, client: string) {
    (call.SaveWrpDocument? || call.SetIntendedUses?) && call.client == client
  }

  /** The replace-all calls that took effect for one client, oldest first. */
  function ReplaceHistory(t: TextRules, calls: seq<Call>, client: string): History {
    if calls == [] then []
    else
      var front, last := calls[..|calls| - 1], calls[|calls| - 1];
      var before := ReplaceHistory(t, front, client);
      if Replaces(last, client) && Apply(t, Run(t, front), last).1.Ok? then before + [last.uses] else before
  }

  /** The stored table is the one the history describes; rows are compared up to internal id. */
  ghost predicate TableMatches(table: Table, h: History) {
    && table.order == OrderAfter(h)
    && (forall k :: k in table.rows <==> Present(h, k))
    && (forall k :: k in table.rows ==> table.rows[k].(id := "") == LastMention(h[|h| - 1], k).(id := ""))
  }

  lemma ReplaceStep(table: Table, h: History, uses: seq<Row>, number: nat)
    requires TableMatches(table, h)
    ensures TableMatches(Replace(table, uses, number).0, h + [uses])
  {
    hide OrderAfter, AppendNew, Kept, ResolveRows;
    var rows := ResolveRows(table.rows, uses, number).0;
    ResolvedKeys(table.rows, uses, number);
    var longer := h + [uses];
    assert longer[..|longer| - 1] == h;
    assert rows.Keys == KeySet(uses);
    OrderAfterStep(h, uses);
    forall k | k in rows
      ensures rows[k].(id := "") == LastMention(uses, k).(id := "")
    {
      StoredRowIsLastMention(table.rows, uses, number, k);
    }
  }

  lemma OrderAfterStep(h: History, uses: seq<Row>)
    ensures OrderAfter(h + [uses]) == AppendNew(Kept(OrderAfter(h), KeySet(uses)), uses)
  {
    hide AppendNew, Kept;
    assert (h + [uses])[..|h + [uses]| - 1] == h;
  }

  lemma OtherCallsKeepTable(t: TextRules, s: State, call: Call, client: string)
    requires !Replaces(call, client)
    ensures TableOf(Apply(t, s, call).0, client) == TableOf(s, client)
  {
    hide MintedId, NewClient, Replace;
    if IsSetter(call) {
      SetterShape(t, s, call);
    }
  }

  lemma ReplacingCall(t: TextRules, s: State, call: Call)
    requires !call.CreateDraftClient? && Replaces(call, call.client)
    ensures var (s', outcome) := Apply(t, s, call);
            TableOf(s', call.client)
              == if outcome.Ok? then Replace(TableOf(s, call.client), call.uses, s.number).0
                 else TableOf(s, call.client)
  {
    hide MintedId, Replace;
  }

  /** In every run the stored table is the one the client's replace history describes. */
  lemma {:induction false} TableFollowsHistory(t: TextRules, calls: seq<Call>, client: string)
    ensures TableMatches(TableOf(Run(t, calls), client), ReplaceHistory(t, calls, client))
  {
    hide Apply, TableMatches, TableOf, Replace;
    if calls == [] {
      NothingStored(client);
    } else {
      var front, last := calls[..|calls| - 1], calls[|calls| - 1];
      TableFollowsHistory(t, front, client);
      var s := Run(t, front);
      if Replaces(last, client) {
        ReplacingCall(t, s, last);
        ReplaceStep(TableOf(s, client), ReplaceHistory(t, front, client), last.uses, s.number);
      } else {
        OtherCallsKeepTable(t, s, last, client);
      }
    }
  }

  lemma NothingStored(client: string)
    ensures TableMatches(TableOf(EMPTY, client), [])
  {
  }

  /**
    Main result: after any run, ListIntendedUses returns exactly the uses of the last
    effective replace call, each once and with the contents of its last duplicate, sorted
    by the (call, first position) with which each key last entered.
   */
  lemma ListingIsBirthOrder(t: TextRules, calls: seq<Call>, client: string)
    ensures var h, listed := ReplaceHistory(t, calls, client), UsesOf(Run(t, calls), client);
            && (forall i :: 0 <= i < |listed| ==>
                  && Present(h, listed[i].intendedUseId)
                  && listed[i].(id := "") == LastMention(h[|h| - 1], listed[i].intendedUseId).(id := ""))
            && (forall k :: Present(h, k) ==> exists i :: 0 <= i < |listed| && listed[i].intendedUseId == k)
            && (forall i, j :: 0 <= i < j < |listed| ==>
                  Earlier(BirthOf(h, listed[i].intendedUseId), BirthOf(h, listed[j].intendedUseId)))
  {
    hide Run, OrderAfter, BirthOf, Listing, ReplaceHistory;
    var h, table := ReplaceHistory(t, calls, client), TableOf(Run(t, calls), client);
    TableFollowsHistory(t, calls, client);
    OrderIsBirthOrder(h);
    ListingFollowsOrder(table);
    ListedRows(table, h);
    var listed := Listing(table);
    forall k | Present(h, k)
      ensures exists i :: 0 <= i < |listed| && listed[i].intendedUseId == k
    {
      assert k in table.order;
      var i :| 0 <= i < |table.order| && table.order[i] == k;
      assert listed[i].intendedUseId == k;
    }
  }

  lemma ListedRows(table: Table, h: History)
    requires TableMatches(table, h) && SortedByBirth(h, table.order)
    ensures |Listing(table)| == |table.order|
    ensures forall i :: 0 <= i < |table.order| ==>
              && Listing(table)[i].intendedUseId == table.order[i]
              && Present(h, table.order[i])
              && Listing(table)[i].(id := "") == LastMention(h[|h| - 1], table.order[i]).(id := "")
  {
    hide OrderAfter, BirthOf, Listing;
    ListingFollowsOrder(table);
    forall i | 0 <= i < |table.order|
      ensures Listing(table)[i].intendedUseId == table.order[i]
    {
      var k := table.order[i];
      assert table.rows[k].(id := "").intendedUseId == k;
    }
  }

  // ---- Internal ids ----

  /** Every replace call on the client mentions the key, leaving the internal id to the store. */
  predicate KeepsUse(call: Call, client: string, key: string) {
    Replaces(call, client) ==> Mentions(call.uses, key) && LastMention(call.uses, key).id == ""
  }

  lemma InternalIdStep(t: TextRules, s: State, call: Call, client: string, key: string)
    requires key in TableOf(s, client).rows && KeepsUse(call, client, key)
    ensures var s' := Apply(t, s, call).0;
            key in TableOf(s', client).rows && TableOf(s', client).rows[key].id == TableOf(s, client).rows[key].id
  {
    hide Apply, TableOf, ResolveRows, AppendNew, Kept;
    if Replaces(call, client) {
      ReplacingCall(t, s, call);
      StoredRowIsLastMention(TableOf(s, client).rows, call.uses, s.number, key);
    } else {
      OtherCallsKeepTable(t, s, call, client);
    }
  }

  /** A row keeps its internal id for as long as it stays present and callers send empty ids. */
  lemma {:induction false} InternalIdIsStable(t: TextRules, before: seq<Call>, after: seq<Call>, client: string,
                                              key: string)
    requires key in TableOf(Run(t, before), client).rows
    requires forall i :: 0 <= i < |after| ==> KeepsUse(after[i], client, key)
    ensures var s, s' := Run(t, before), Run(t, before + after);
            key in TableOf(s', client).rows && TableOf(s', client).rows[key].id == TableOf(s, client).rows[key].id
  {
    hide Apply, TableOf, Run, KeepsUse;
    if after == [] {
      assert before + after == before;
    } else {
      var front, last := after[..|after| - 1], after[|after| - 1];
      InternalIdIsStable(t, before, front, client, key);
      assert before + after == before + front + [last];
      RunStep(t, before + front, last);
      InternalIdStep(t, Run(t, before + front), last, client, key);
    }
  }
}
