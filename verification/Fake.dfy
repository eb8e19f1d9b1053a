/**
  The in-memory store as an object: every method updates the fields in place, under one
  lock, and is proved against the corresponding function of the Registry module.
 */
module FakeStore {
  import opened Ids
  import opened IntendedUses
  import opened Registry
  import opened Slugs
  import opened Values

  class Fake {
    const text: TextRules

    var clients: map<string, Client>
    var intendedUses: map<string, map<string, Row>>
    var intendedUseOrder: map<string, seq<string>>
    var evidence: map<string, EvidenceRow>
    var auditLog: seq<AuditEntry>
    var deletionRequests: map<string, seq<DeletionRequest>>
    var apiKeys: map<string, seq<ApiKey>>
    var number: nat

    /** The abstract value of the object. */
    ghost function Value(): State
      reads this
    {
      State(clients, intendedUses, intendedUseOrder, evidence, auditLog, deletionRequests, apiKeys, number)
    }

    constructor (text: TextRules)
      ensures Value() == EMPTY && this.text == text
    {
      this.text := text;
      clients := map[];
      intendedUses := map[];
      intendedUseOrder := map[];
      evidence := map[];
      auditLog := [];
      deletionRequests := map[];
      apiKeys := map[];
      number := 0;
    }

    method NextId() returns (id: string)
      modifies this`number
      ensures number == old(number) + 1 && id == MintedId(number)
    {
      number := number + 1;
      id := MintedId(number);
    }

    method AppendEntry(actor: string, client: string, action: Action, detail: Detail)
      modifies this`auditLog, this`number
      ensures Value() == Audit(old(Value()), actor, client, action, detail)
    {
      hide MintedId;
      var id := NextId();
      auditLog := auditLog + [AuditEntry(id, actor, client, action, StoredDetail(detail))];
    }

    method TransitionClient(client: string, to: Status, actor: string, evidenceRef: string, reason: string)
      returns (outcome: Outcome)
      modifies this
      ensures (Value(), outcome) == Transition(old(Value()), client, to, actor, evidenceRef, reason)
    {
      hide MintedId, Audit;
      if client !in clients {
        return Err(NotFound);
      }
      var from := clients[client].status;
      if !Legal(from, to) {
        return Err(IllegalTransition);
      }
      clients := clients[client := clients[client].(status := to)];
      AppendEntry(actor, client, ClientTransition, TransitionDetail(from, to, evidenceRef, reason));
      return DONE;
    }

    method GetClientFull(client: string) returns (row: Option<Client>)
      ensures row == ViewOf(Value(), client).detail
      ensures row == if client in clients then Some(clients[client]) else None
    {
      if client !in clients {
        return None;
      }
      return Some(clients[client]);
    }

    method CreateDraftClient(name: string, email: string, actor: string) returns (outcome: Outcome)
      modifies this
      ensures (Value(), outcome) == CreateDraft(text, old(Value()), name, email, actor)
    {
      hide MintedId, Audit, Slugify;
      var id := NextId();
      var emails := [];
      if email != "" {
        emails := [email];
      }
      clients := clients[id := Client(id, name, Draft, "", "", "", [], INITIAL_POLICY, Slugify(text, name, id),
                                      NoDocument, emails)];
      AppendEntry(actor, id, ClientCreate, NameDetail(name));
      return Ok(id);
    }

    method SetClientRegistrarIdentity(client: string, uri: string, identifier: string, actor: string)
      returns (outcome: Outcome)
      modifies this
      ensures (Value(), outcome) == SetRegistrarIdentity(old(Value()), client, uri, identifier, actor)
    {
      hide MintedId, Audit;
      if client !in clients {
        return Err(NotFound);
      }
      clients := clients[client := clients[client].(registryUri := uri, clientIdentifier := identifier)];
      AppendEntry(actor, client, ClientSetRegistrarIdentity, IdentityDetail(uri, identifier));
      return DONE;
    }

    method SetClientWebhook(client: string, url: string, actor: string) returns (outcome: Outcome)
      modifies this
      ensures (Value(), outcome) == SetWebhook(old(Value()), client, url, actor)
    {
      hide MintedId, Audit, MatchesWebhook;
      if !MatchesWebhook(url) {
        return Err(Invalid);
      }
      if client !in clients {
        return Err(NotFound);
      }
      clients := clients[client := clients[client].(webhook := url)];
      AppendEntry(actor, client, ClientSetWebhook, WebhookDetail(url));
      return DONE;
    }

    method SetClientAllowedOrigins(client: string, origins: seq<string>, actor: string) returns (outcome: Outcome)
      modifies this
      ensures (Value(), outcome) == SetAllowedOrigins(old(Value()), client, origins, actor)
    {
      hide MintedId, Audit, MatchesWebOrigin;
      if |origins| > MAX_ORIGINS {
        return Err(Invalid);
      }
      for i := 0 to |origins|
        invariant forall j :: 0 <= j < i ==> MatchesWebOrigin(origins[j])
        invariant Value() == old(Value())
      {
        if !MatchesWebOrigin(origins[i]) {
          return Err(Invalid);
        }
      }
      if client !in clients {
        return Err(NotFound);
      }
      clients := clients[client := clients[client].(allowedOrigins := origins)];
      AppendEntry(actor, client, ClientSetAllowedOrigins, OriginsDetail(origins));
      return DONE;
    }

    method SetClientDcapiMode(client: string, mode: string, actor: string) returns (outcome: Outcome)
      modifies this
      ensures (Value(), outcome) == SetDcapiMode(old(Value()), client, mode, actor)
    {
      hide MintedId, Audit;
      if mode != SIGNED && mode != UNSIGNED {
        return Err(Invalid);
      }
      if client !in clients {
        return Err(NotFound);
      }
      var (policy, merged) := MergeMode(clients[client].policy, mode);
      if merged.Err? {
        return merged;
      }
      clients := clients[client := clients[client].(policy := policy)];
      AppendEntry(actor, client, ClientSetDcapiMode, ModeDetail(mode));
      return DONE;
    }

    method CreateApiKey(client: string, prefix: string, secretHash: string) returns (outcome: Outcome)
      modifies this
      ensures (Value(), outcome) == Registry.CreateApiKey(old(Value()), client, prefix, secretHash)
    {
      if client !in clients {
        return Err(NotFound);
      }
      var rows := if client in apiKeys then apiKeys[client] else [];
      apiKeys := apiKeys[client := rows + [ApiKey(prefix, secretHash)]];
      return DONE;
    }

    method SaveWrpDocument(client: string, document: StoredDocument, uses: seq<Row>, actor: string)
      returns (outcome: Outcome)
      modifies this
      ensures (Value(), outcome) == SaveDocument(old(Value()), client, document, uses, actor)
    {
      hide MintedId, Audit, ReplaceUses;
      if client !in clients {
        return Err(NotFound);
      }
      var present := AllKeysPresent(uses);
      if !present {
        return Err(Invalid);
      }
      clients := clients[client := clients[client].(document := document)];
      ReplaceIntendedUses(client, uses);
      AppendEntry(actor, client, ClientSaveWrpDocument, CountDetail(|uses|));
      return DONE;
    }

    method SetIntendedUses(client: string, uses: seq<Row>, actor: string) returns (outcome: Outcome)
      modifies this
      ensures (Value(), outcome) == SetUses(old(Value()), client, uses, actor)
    {
      hide MintedId, Audit, ReplaceUses;
      if client !in clients {
        return Err(NotFound);
      }
      var present := AllKeysPresent(uses);
      if !present {
        return Err(Invalid);
      }
      ReplaceIntendedUses(client, uses);
      AppendEntry(actor, client, ClientSetIntendedUses, CountDetail(|uses|));
      return DONE;
    }

    static method AllKeysPresent(uses: seq<Row>) returns (present: bool)
      ensures present <==> KeysPresent(uses)
    {
      for i := 0 to |uses|
        invariant forall j :: 0 <= j < i ==> uses[j].intendedUseId != ""
      {
        if uses[i].intendedUseId == "" {
          return false;
        }
      }
      return true;
    }

    /** Rebuilds the client's map and order slice, in that order. */
    method ReplaceIntendedUses(client: string, uses: seq<Row>)
      modifies this`intendedUses, this`intendedUseOrder, this`number
      ensures Value() == ReplaceUses(old(Value()), client, uses)
    {
      hide MintedId;
      var existing := if client in intendedUses then intendedUses[client] else map[];
      var rows := ResolveAll(existing, uses);
      intendedUses := intendedUses[client := rows];
      var previous := if client in intendedUseOrder then intendedUseOrder[client] else [];
      var order := RebuildOrder(previous, rows, uses);
      intendedUseOrder := intendedUseOrder[client := order];
    }

    method ResolveAll(existing: map<string, Row>, uses: seq<Row>) returns (rows: map<string, Row>)
      modifies this`number
      ensures (rows, number) == ResolveRows(existing, uses, old(number))
    {
      hide MintedId;
      rows := map[];
      for i := 0 to |uses|
        invariant (rows, number) == ResolveRows(existing, uses[..i], old(number))
      {
        assert uses[..i + 1][..i] == uses[..i];
        var use := uses[i];
        if use.id == "" {
          if use.intendedUseId in existing {
            use := use.(id := existing[use.intendedUseId].id);
          } else {
            var id := NextId();
            use := use.(id := id);
          }
        }
        rows := rows[use.intendedUseId := use];
      }
      assert uses[..|uses|] == uses;
    }

    /** The keys that still have a row, in their previous order. */
    static method KeepSurvivors(previous: seq<string>, rows: map<string, Row>) returns (order: seq<string>)
      ensures order == Kept(previous, rows.Keys)
    {
      order := [];
      for i := 0 to |previous|
        invariant order == Kept(previous[..i], rows.Keys)
      {
        assert previous[..i + 1][..i] == previous[..i];
        if previous[i] in rows {
          order := order + [previous[i]];
        }
      }
      assert previous[..|previous|] == previous;
    }

    /** The survivors, then the submitted keys they lack, each once. */
    static method RebuildOrder(previous: seq<string>, rows: map<string, Row>, uses: seq<Row>)
      returns (order: seq<string>)
      ensures order == AppendNew(Kept(previous, rows.Keys), uses)
    {
      hide Kept;
      var kept := KeepSurvivors(previous, rows);
      var seen := {};
      for i := 0 to |kept|
        invariant seen == set k | k in kept[..i]
      {
        seen := seen + {kept[i]};
      }
      assert kept[..|kept|] == kept;
      order := kept;
      for i := 0 to |uses|
        invariant order == AppendNew(kept, uses[..i])
        invariant seen == set k | k in order
      {
        assert uses[..i + 1][..i] == uses[..i];
        var key := uses[i].intendedUseId;
        if key !in seen {
          seen := seen + {key};
          order := order + [key];
        }
      }
      assert uses[..|uses|] == uses;
    }

    method ListIntendedUses(client: string) returns (listed: seq<Row>)
      ensures listed == UsesOf(Value(), client)
    {
      var rows := if client in intendedUses then intendedUses[client] else map[];
      var order := if client in intendedUseOrder then intendedUseOrder[client] else [];
      listed := [];
      for i := 0 to |order|
        invariant listed == Listing(Table(rows, order[..i]))
      {
        assert order[..i + 1][..i] == order[..i];
        if order[i] in rows {
          listed := listed + [rows[order[i]]];
        }
      }
      assert order[..|order|] == order;
    }

    method AddEvidence(client: string, meta: Evidence, content: seq<byte>, actor: string) returns (outcome: Outcome)
      modifies this
      ensures (Value(), outcome) == Registry.AddEvidence(old(Value()), client, meta, content, actor)
    {
      hide MintedId, Audit;
      if client !in clients {
        return Err(NotFound);
      }
      var id := NextId();
      evidence := evidence[id := EvidenceRow(meta.(id := id), client, content)];
      AppendEntry(actor, client, EvidenceAdd, EvidenceDetail(id, meta.filename));
      return Ok(id);
    }

    /** The metadata of one client's evidence; the service additionally sorts it by time. */
    method ListEvidence(client: string) returns (listed: set<Evidence>)
      ensures listed == set e | e in EvidenceOf(Value(), client) :: EvidenceOf(Value(), client)[e].meta
      ensures listed == set e | e in evidence && evidence[e].clientId == client :: evidence[e].meta
    {
      listed := {};
      var todo := evidence.Keys;
      while todo != {}
        invariant todo <= evidence.Keys
        invariant listed == set e | e in evidence.Keys - todo && evidence[e].clientId == client :: evidence[e].meta
        decreases todo
      {
        var e :| e in todo;
        if evidence[e].clientId == client {
          listed := listed + {evidence[e].meta};
        }
        todo := todo - {e};
      }
      ghost var own := EvidenceOf(Value(), client);
      assert forall e :: e in own <==> e in evidence.Keys - {} && evidence[e].clientId == client;
      assert forall e :: e in own ==> own[e] == evidence[e];
    }

    /** Another client's evidence id reads exactly like an unknown one. */
    method GetEvidenceContent(client: string, id: string) returns (content: Option<(seq<byte>, string)>)
      ensures content == if id in EvidenceOf(Value(), client)
                         then Some((EvidenceOf(Value(), client)[id].content, EvidenceOf(Value(), client)[id].meta.mime))
                         else None
      ensures content == if id in evidence && evidence[id].clientId == client
                         then Some((evidence[id].content, evidence[id].meta.mime)) else None
    {
      if id !in evidence || evidence[id].clientId != client {
        return None;
      }
      return Some((evidence[id].content, evidence[id].meta.mime));
    }

    method AppendAudit(actor: string, client: string, action: Action, detail: Detail) returns (outcome: Outcome)
      modifies this
      ensures (Value(), outcome) == Registry.AppendAudit(old(Value()), actor, client, action, detail)
    {
      hide MintedId, Audit;
      if actor == "" || (action.OtherAction? && action.raw == "") {
        return Err(AuditInvalid);
      }
      AppendEntry(actor, client, action, detail);
      return DONE;
    }

    /** The client's entries, newest first, at most limit of them. */
    method ListAuditEntries(client: string, limit: int) returns (listed: seq<AuditEntry>)
      ensures listed == Newest(ViewOf(Value(), client).audit, limit)
      ensures listed == Newest(EntriesOf(auditLog, client), limit)
    {
      hide Listing;
      var matched := [];
      for i := 0 to |auditLog|
        invariant matched == EntriesOf(auditLog[..i], client)
      {
        assert auditLog[..i + 1][..i] == auditLog[..i];
        if auditLog[i].clientId == client {
          matched := matched + [auditLog[i]];
        }
      }
      assert auditLog[..|auditLog|] == auditLog;
      listed := NewestRows(matched, limit);
    }

    static method NewestRows<T>(rows: seq<T>, limit: int) returns (listed: seq<T>)
      ensures listed == Newest(rows, limit)
    {
      listed := [];
      var i := |rows| - 1;
      while i >= 0 && |listed| < limit
        invariant -1 <= i < |rows|
        invariant |listed| == |rows| - 1 - i && (listed == [] || |listed| <= limit)
        invariant forall j :: 0 <= j < |listed| ==> listed[j] == rows[|rows| - 1 - j]
      {
        listed := listed + [rows[i]];
        i := i - 1;
      }
    }

    method LogDeletionRequest(client: string, session: string, names: seq<string>) returns (outcome: Outcome)
      modifies this
      ensures (Value(), outcome) == LogDeletion(old(Value()), client, session, names)
    {
      hide MintedId;
      if client == "" || session == "" {
        return Err(AuditInvalid);
      }
      var id := NextId();
      var rows := if client in deletionRequests then deletionRequests[client] else [];
      deletionRequests := deletionRequests[client := rows + [DeletionRequest(id, client, session, names)]];
      return Ok(id);
    }

    method ListDeletionRequests(client: string, limit: int) returns (listed: seq<DeletionRequest>)
      ensures listed == Newest(ViewOf(Value(), client).deletions, limit)
      ensures listed == Newest(if client in deletionRequests then deletionRequests[client] else [], limit)
    {
      hide Listing, EntriesOf;
      var rows := if client in deletionRequests then deletionRequests[client] else [];
      listed := NewestRows(rows, limit);
    }

    method PurgeOffboarded(client: string, actor: string) returns (outcome: Outcome)
      modifies this
      ensures (Value(), outcome) == Purge(old(Value()), client, actor)
    {
      hide MintedId, Audit;
      if client !in clients {
        return Err(NotFound);
      }
      if clients[client].status != Offboarded {
        return Err(Invalid);
      }
      DropContent(client);
      AppendEntry(actor, client, ClientPurge, EmptyObject);
      return DONE;
    }

    /** Visits the evidence rows in no particular order. */
    method DropContent(client: string)
      modifies this`evidence
      ensures evidence == Purged(old(evidence), client)
    {
      var todo := evidence.Keys;
      while todo != {}
        invariant todo <= evidence.Keys == old(evidence).Keys
        invariant forall e :: e in todo ==> evidence[e] == old(evidence)[e]
        invariant forall e :: e in evidence.Keys - todo ==> evidence[e] == Purged(old(evidence), client)[e]
        decreases todo
      {
        var e :| e in todo;
        if evidence[e].clientId == client {
          evidence := evidence[e := evidence[e].(content := [])];
        }
        todo := todo - {e};
      }
    }
  }
}
