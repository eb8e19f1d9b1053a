/** What every store call keeps, and what it leaves alone. */
module RegistryInvariants {
  import opened Ids
  import opened IntendedUses
  import opened Registry
  import opened Slugs
  import opened Values

  ghost predicate MintedUpTo(id: string, number: nat) {
    exists m :: 1 <= m <= number && id == MintedId(m)
  }

  ghost predicate ClientsValid(clients: map<string, Client>, number: nat) {
    forall c :: c in clients ==> clients[c].id == c && MintedUpTo(c, number)
  }

  ghost predicate EvidenceValid(evidence: map<string, EvidenceRow>, clients: map<string, Client>, number: nat) {
    forall e :: e in evidence ==>
      evidence[e].meta.id == e && MintedUpTo(e, number) && evidence[e].clientId in clients
  }

  ghost predicate TablesValid(uses: map<string, map<string, Row>>, order: map<string, seq<string>>) {
    forall c :: Consistent(TableAt(uses, order, c))
  }

  /** The store's structural invariant. */
  ghost predicate Valid(s: State) {
    && ClientsValid(s.clients, s.number)
    && EvidenceValid(s.evidence, s.clients, s.number)
    && TablesValid(s.uses, s.order)
    && s.uses.Keys <= s.clients.Keys
    && s.order.Keys <= s.clients.Keys
    && s.keys.Keys <= s.clients.Keys
  }

  lemma NextIdIsFresh(s: State)
    requires Valid(s)
    ensures MintedId(s.number + 1) !in s.clients
    ensures MintedId(s.number + 1) !in s.evidence
    ensures !MintedUpTo(MintedId(s.number + 1), s.number)
  {
    hide MintedId, Consistent;
    if MintedUpTo(MintedId(s.number + 1), s.number) {
      var m :| 1 <= m <= s.number && MintedId(s.number + 1) == MintedId(m);
      MintedIdInjective(s.number + 1, m);
    }
  }

  lemma NumberMayGrow(s: State, number: nat)
    requires Valid(s) && s.number <= number
    ensures Valid(s.(number := number))
  {
    hide MintedId, Consistent;
  }

  lemma AuditKeepsValid(s: State, actor: string, client: string, action: Action, detail: Detail)
    requires Valid(s)
    ensures Valid(Audit(s, actor, client, action, detail))
  {
    hide MintedId, Consistent;
    NumberMayGrow(s, s.number + 1);
  }

  lemma RowUpdateKeepsValid(s: State, client: string, row: Client)
    requires Valid(s) && row.id == client && (client in s.clients || MintedUpTo(client, s.number))
    ensures Valid(s.(clients := s.clients[client := row]))
  {
    hide MintedId, Consistent;
  }

  lemma ReplaceKeepsValid(s: State, client: string, uses: seq<Row>)
    requires Valid(s) && client in s.clients
    ensures Valid(ReplaceUses(s, client, uses))
  {
    hide MintedId, ResolveRows, Consistent;
    var s' := ReplaceUses(s, client, uses);
    ReplaceConsistent(TableOf(s, client), uses, s.number);
    forall c
      ensures Consistent(TableAt(s'.uses, s'.order, c))
    {
      if c == client {
        assert TableAt(s'.uses, s'.order, c) == Replace(TableOf(s, client), uses, s.number).0;
      } else {
        assert TableAt(s'.uses, s'.order, c) == TableAt(s.uses, s.order, c);
      }
    }
    NumberMayGrow(s, s'.number);
  }

  lemma CreateKeepsValid(t: TextRules, s: State, name: string, email: string, actor: string)
    requires Valid(s)
    ensures Valid(CreateDraft(t, s, name, email, actor).0)
  {
    hide MintedId, Consistent, Slugify;
    var id := MintedId(s.number + 1);
    var s1 := s.(number := s.number + 1);
    NumberMayGrow(s, s.number + 1);
    RowUpdateKeepsValid(s1, id, NewClient(t, id, name, email));
    AuditKeepsValid(s1.(clients := s1.clients[id := NewClient(t, id, name, email)]), actor, id, ClientCreate,
                    NameDetail(name));
  }

  lemma AddEvidenceKeepsValid(s: State, client: string, meta: Evidence, content: seq<byte>, actor: string)
    requires Valid(s)
    ensures Valid(AddEvidence(s, client, meta, content, actor).0)
  {
    hide MintedId, Consistent;
    if client in s.clients {
      var id := MintedId(s.number + 1);
      NumberMayGrow(s, s.number + 1);
      var s' := s.(evidence := s.evidence[id := EvidenceRow(meta.(id := id), client, content)], number := s.number + 1);
      AuditKeepsValid(s', actor, client, EvidenceAdd, EvidenceDetail(id, meta.filename));
    }
  }

  lemma PurgeKeepsValid(s: State, client: string, actor: string)
    requires Valid(s)
    ensures Valid(Purge(s, client, actor).0)
  {
    hide MintedId, Consistent;
    var s' := s.(evidence := Purged(s.evidence, client));
    AuditKeepsValid(s', actor, client, ClientPurge, EmptyObject);
  }

  lemma SaveKeepsValid(s: State, client: string, document: StoredDocument, uses: seq<Row>, actor: string)
    requires Valid(s)
    ensures Valid(SaveDocument(s, client, document, uses, actor).0)
  {
    hide MintedId, Consistent, ResolveRows;
    if client in s.clients && KeysPresent(uses) {
      var row := s.clients[client].(document := document);
      RowUpdateKeepsValid(s, client, row);
      var saved := s.(clients := s.clients[client := row]);
      ReplaceKeepsValid(saved, client, uses);
      AuditKeepsValid(ReplaceUses(saved, client, uses), actor, client, ClientSaveWrpDocument, CountDetail(|uses|));
    }
  }

  lemma SetUsesKeepsValid(s: State, client: string, uses: seq<Row>, actor: string)
    requires Valid(s)
    ensures Valid(SetUses(s, client, uses, actor).0)
  {
    hide MintedId, Consistent, ResolveRows;
    if client in s.clients && KeysPresent(uses) {
      ReplaceKeepsValid(s, client, uses);
      AuditKeepsValid(ReplaceUses(s, client, uses), actor, client, ClientSetIntendedUses, CountDetail(|uses|));
    }
  }

  /** The calls whose whole effect is a rewritten client row and one audit entry. */
  predicate IsSetter(call: Call) {
    || call.TransitionClient?
    || call.SetClientRegistrarIdentity?
    || call.SetClientWebhook?
    || call.SetClientAllowedOrigins?
    || call.SetClientDcapiMode?
  }

  /** The row, action and detail a successful setter writes. */
  function SetterWrite(s: State, call: Call): (Client, Action, Detail)
    requires IsSetter(call) && call.client in s.clients
  {
    var c := s.clients[call.client];
    match call
    case TransitionClient(_, to, _, evidenceRef, reason) =>
      (c.(status := to), ClientTransition, TransitionDetail(c.status, to, evidenceRef, reason))
    case SetClientRegistrarIdentity(_, uri, identifier, _) =>
      (c.(registryUri := uri, clientIdentifier := identifier), ClientSetRegistrarIdentity,
       IdentityDetail(uri, identifier))
    case SetClientWebhook(_, url, _) => (c.(webhook := url), ClientSetWebhook, WebhookDetail(url))
    case SetClientAllowedOrigins(_, origins, _) =>
      (c.(allowedOrigins := origins), ClientSetAllowedOrigins, OriginsDetail(origins))
    case SetClientDcapiMode(_, mode, _) =>
      (c.(policy := MergeMode(c.policy, mode).0), ClientSetDcapiMode, ModeDetail(mode))
  }

  lemma SetterShape(t: TextRules, s: State, call: Call)
    requires IsSetter(call)
    ensures var (s', outcome) := Apply(t, s, call);
            if outcome.Err? then s' == s
            else
              && call.client in s.clients
              && var (row, action, detail) := SetterWrite(s, call);
                 s' == Audit(s.(clients := s.clients[call.client := row]), call.actor, call.client, action, detail)
  {
    hide MintedId, Slugify;
  }

  lemma SetterKeepsValid(t: TextRules, s: State, call: Call)
    requires Valid(s) && IsSetter(call)
    ensures Valid(Apply(t, s, call).0)
  {
    hide Apply, SetterWrite, MintedId, Consistent;
    SetterShape(t, s, call);
    if Apply(t, s, call).1.Ok? {
      var (row, action, detail) := SetterWrite(s, call);
      SetterRowKeepsId(s, call);
      RowUpdateKeepsValid(s, call.client, row);
      AuditKeepsValid(s.(clients := s.clients[call.client := row]), call.actor, call.client, action, detail);
    }
  }

  lemma SetterRowKeepsId(s: State, call: Call)
    requires Valid(s) && IsSetter(call) && call.client in s.clients
    ensures SetterWrite(s, call).0.id == call.client
  {
    hide MintedId, Consistent;
  }

  /** Every store call keeps the invariant. */
  lemma ApplyKeepsValid(t: TextRules, s: State, call: Call)
    requires Valid(s)
    ensures Valid(Apply(t, s, call).0)
  {
    hide MintedId, Consistent, Slugify, ResolveRows;
    match call
    case CreateDraftClient(name, email, actor) => CreateKeepsValid(t, s, name, email, actor);
    case AddEvidenceRow(client, meta, content, actor) => AddEvidenceKeepsValid(s, client, meta, content, actor);
    case PurgeOffboarded(client, actor) => PurgeKeepsValid(s, client, actor);
    case AppendAuditEntry(client, action, detail, actor) => AuditKeepsValid(s, actor, client, action, detail);
    case SaveWrpDocument(client, document, uses, actor) => SaveKeepsValid(s, client, document, uses, actor);
    case SetIntendedUses(client, uses, actor) => SetUsesKeepsValid(s, client, uses, actor);
    case CreateKey(client, prefix, secretHash) =>
    case LogDeletionRequest(client, session, names) => NumberMayGrow(s, s.number + 1);
    case _ => SetterKeepsValid(t, s, call);
  }

  lemma {:induction false} RunIsValid(t: TextRules, calls: seq<Call>)
    ensures Valid(Run(t, calls))
  {
    hide Apply, MintedId;
    if calls == [] {
    } else {
      RunIsValid(t, calls[..|calls| - 1]);
      ApplyKeepsValid(t, Run(t, calls[..|calls| - 1]), calls[|calls| - 1]);
    }
  }

  // ---- The log and the numbering only grow; an error changes nothing ----

  /** The client a call names; a create call names the client it is about to make. */
  function NamedClient(s: State, call: Call): string {
    if call.CreateDraftClient? then MintedId(s.number + 1) else call.client
  }

  /** The action a successful call is audited under; keys and deletion requests are not. */
  function AuditedAs(call: Call): Option<Action> {
    match call
    case CreateDraftClient(_, _, _) => Some(ClientCreate)
    case TransitionClient(_, _, _, _, _) => Some(ClientTransition)
    case SetClientRegistrarIdentity(_, _, _, _) => Some(ClientSetRegistrarIdentity)
    case SetClientWebhook(_, _, _) => Some(ClientSetWebhook)
    case SetClientAllowedOrigins(_, _, _) => Some(ClientSetAllowedOrigins)
    case SetClientDcapiMode(_, _, _) => Some(ClientSetDcapiMode)
    case SaveWrpDocument(_, _, _, _) => Some(ClientSaveWrpDocument)
    case SetIntendedUses(_, _, _) => Some(ClientSetIntendedUses)
    case AddEvidenceRow(_, _, _, _) => Some(EvidenceAdd)
    case AppendAuditEntry(_, action, _, _) => Some(action)
    case PurgeOffboarded(_, _) => Some(ClientPurge)
    case _ => None
  }

  ghost predicate AuditGrows(s: State, s': State, actor: string, client: string, action: Action) {
    && s'.number >= 1
    && exists detail :: s'.auditLog == s.auditLog + [AuditEntry(MintedId(s'.number), actor, client, action, detail)]
  }

  lemma AuditGrowsLog(s: State, s1: State, actor: string, client: string, action: Action, detail: Detail)
    requires s1.auditLog == s.auditLog
    ensures AuditGrows(s, Audit(s1, actor, client, action, detail), actor, client, action)
  {
    hide MintedId, StoredDetail;
    var s' := Audit(s1, actor, client, action, detail);
    assert s'.auditLog == s.auditLog + [AuditEntry(MintedId(s'.number), actor, client, action, StoredDetail(detail))];
  }

  /**
    The log grows by at most one entry, under the named client and the call's own action;
    an error changes nothing at all.
   */
  lemma LogStep(t: TextRules, s: State, call: Call)
    ensures var (s', outcome) := Apply(t, s, call);
            if outcome.Err? then s' == s
            else if AuditedAs(call).None? then s'.auditLog == s.auditLog
            else
              && s'.number >= 1
              && exists detail ::
                   s'.auditLog == s.auditLog
                     + [AuditEntry(MintedId(s'.number), call.actor, NamedClient(s, call), AuditedAs(call).value,
                                   detail)]
  {
    hide Apply, AuditGrows;
    if IsSetter(call) {
      SetterLogStep(t, s, call);
    } else {
      OtherLogStep(t, s, call);
    }
    if Apply(t, s, call).1.Ok? && AuditedAs(call).Some? {
      AuditGrowsMeans(s, Apply(t, s, call).0, call.actor, NamedClient(s, call), AuditedAs(call).value);
    }
  }

  lemma AuditGrowsMeans(s: State, s': State, actor: string, client: string, action: Action)
    requires AuditGrows(s, s', actor, client, action)
    ensures s'.number >= 1
    ensures exists detail ::
              s'.auditLog == s.auditLog + [AuditEntry(MintedId(s'.number), actor, client, action, detail)]
  {
  }

  lemma SetterLogStep(t: TextRules, s: State, call: Call)
    requires IsSetter(call)
    ensures var (s', outcome) := Apply(t, s, call);
            if outcome.Err? then s' == s
            else AuditedAs(call).Some? && AuditGrows(s, s', call.actor, NamedClient(s, call), AuditedAs(call).value)
  {
    hide Apply, AuditGrows, Audit;
    SetterShape(t, s, call);
    if Apply(t, s, call).1.Ok? {
      var (row, action, detail) := SetterWrite(s, call);
      AuditGrowsLog(s, s.(clients := s.clients[call.client := row]), call.actor, call.client, action, detail);
    }
  }

  lemma OtherLogStep(t: TextRules, s: State, call: Call)
    requires !IsSetter(call)
    ensures var (s', outcome) := Apply(t, s, call);
            if outcome.Err? then s' == s
            else if AuditedAs(call).None? then s'.auditLog == s.auditLog
            else AuditGrows(s, s', call.actor, NamedClient(s, call), AuditedAs(call).value)
  {
    hide MintedId, NewClient, Replace, Audit, AuditGrows;
    forall s1: State, client, action, detail | s1.auditLog == s.auditLog && AuditedAs(call).Some?
      ensures AuditGrows(s, Audit(s1, call.actor, client, action, detail), call.actor, client, action)
    {
      AuditGrowsLog(s, s1, call.actor, client, action, detail);
    }
  }

  lemma ReplaceMintsUpward(table: Table, uses: seq<Row>, number: nat)
    ensures number <= Replace(table, uses, number).1
  {
    hide ResolveRows;
  }

  lemma NumberGrows(t: TextRules, s: State, call: Call)
    ensures s.number <= Apply(t, s, call).0.number
  {
    hide MintedId, Slugify, Replace;
    if call.SaveWrpDocument? || call.SetIntendedUses? {
      ReplaceMintsUpward(TableOf(s, call.client), call.uses, s.number);
    }
  }

  // ---- What a call does to one client's row ----

  /** A stored client's row after a successful call. */
  function RowAfter(s: State, call: Call, client: string): Client
    requires client in s.clients
  {
    var row := s.clients[client];
    if call.CreateDraftClient? || call.client != client then row
    else if IsSetter(call) then SetterWrite(s, call).0
    else if call.SaveWrpDocument? then row.(document := call.document)
    else row
  }

  lemma NonSetterRow(t: TextRules, s: State, call: Call, client: string)
    requires !IsSetter(call) && client in s.clients && client != MintedId(s.number + 1)
    ensures var (s', outcome) := Apply(t, s, call);
            && client in s'.clients
            && s'.clients[client] == if outcome.Ok? then RowAfter(s, call, client) else s.clients[client]
  {
    hide MintedId, NewClient, Replace;
  }

  lemma SetterRow(t: TextRules, s: State, call: Call, client: string)
    requires IsSetter(call) && client in s.clients
    ensures var (s', outcome) := Apply(t, s, call);
            && s'.clients.Keys == s.clients.Keys
            && s'.clients[client] == if outcome.Ok? then RowAfter(s, call, client) else s.clients[client]
  {
    hide Apply, SetterWrite, MintedId;
    SetterShape(t, s, call);
    var (s', outcome) := Apply(t, s, call);
    if outcome.Ok? {
      var (row, action, detail) := SetterWrite(s, call);
      assert s'.clients == s.clients[call.client := row];
      assert call.client == client ==> RowAfter(s, call, client) == row;
      assert call.client != client ==> RowAfter(s, call, client) == s.clients[client];
    }
  }

  /** The row of a stored client after any call. */
  lemma RowStep(t: TextRules, s: State, call: Call, client: string)
    requires Valid(s) && client in s.clients
    ensures var (s', outcome) := Apply(t, s, call);
            && client in s'.clients
            && s'.clients[client] == if outcome.Ok? then RowAfter(s, call, client) else s.clients[client]
  {
    hide Apply, MintedId, Valid, SetterWrite;
    NextIdIsFresh(s);
    if IsSetter(call) {
      SetterRow(t, s, call, client);
    } else {
      NonSetterRow(t, s, call, client);
    }
  }

  /** A client that appears was created by this call, with the initial row. */
  lemma NewRowStep(t: TextRules, s: State, call: Call, client: string)
    requires client !in s.clients && client in Apply(t, s, call).0.clients
    ensures call.CreateDraftClient? && client == MintedId(s.number + 1)
    ensures Apply(t, s, call).0.clients[client] == NewClient(t, client, call.name, call.email)
  {
    hide MintedId, NewClient, Replace;
    if IsSetter(call) {
      SetterShape(t, s, call);
    }
  }

  // ---- Client isolation ----

  /** Nothing the client-scoped reads of other use differs between the two states. */
  ghost predicate SameFor(s: State, s': State, other: string) {
    && (other in s'.clients <==> other in s.clients)
    && (other in s.clients ==> s'.clients[other] == s.clients[other])
    && TableOf(s', other) == TableOf(s, other)
    && (forall e :: e in s.evidence && s.evidence[e].clientId == other ==>
          e in s'.evidence && s'.evidence[e] == s.evidence[e])
    && (forall e :: e in s'.evidence && s'.evidence[e].clientId == other ==>
          e in s.evidence && s.evidence[e].clientId == other)
    && DeletionsOf(s', other) == DeletionsOf(s, other)
    && KeysOf(s', other) == KeysOf(s, other)
  }

  ghost predicate SameTables(s: State, s': State) {
    s'.uses == s.uses && s'.order == s.order && s'.deletions == s.deletions && s'.keys == s.keys
  }

  lemma EntriesOfAppend(log: seq<AuditEntry>, e: AuditEntry, client: string)
    ensures EntriesOf(log + [e], client) == EntriesOf(log, client) + (if e.clientId == client then [e] else [])
  {
    assert (log + [e])[..|log + [e]| - 1] == log;
  }

  lemma SetterSameForOthers(t: TextRules, s: State, call: Call, other: string)
    requires IsSetter(call) && other != call.client
    ensures SameFor(s, Apply(t, s, call).0, other)
  {
    hide Apply, SetterWrite, MintedId, SameFor, Audit;
    SetterShape(t, s, call);
    SameForItself(s, other);
    if Apply(t, s, call).1.Ok? {
      var (row, action, detail) := SetterWrite(s, call);
      ClientRowSameForOthers(s, call.client, row, other);
      AuditKeepsSameFor(s, s.(clients := s.clients[call.client := row]), call.actor, call.client, action, detail,
                        other);
    }
  }

  lemma ClientRowSameForOthers(s: State, client: string, row: Client, other: string)
    requires other != client
    ensures SameFor(s, s.(clients := s.clients[client := row]), other)
  {
    hide TableOf;
    var s' := s.(clients := s.clients[client := row]);
    SameTablesSameTable(s, s', other);
    assert SameTables(s, s') && s'.evidence == s.evidence;
  }

  lemma CreateSameForOthers(t: TextRules, s: State, name: string, email: string, actor: string, other: string)
    requires other != MintedId(s.number + 1)
    ensures SameFor(s, CreateDraft(t, s, name, email, actor).0, other)
  {
    hide MintedId, NewClient;
    var s' := CreateDraft(t, s, name, email, actor).0;
    assert SameTables(s, s') && s'.evidence == s.evidence;
  }

  lemma AuditKeepsSameFor(s: State, s1: State, actor: string, client: string, action: Action, detail: Detail,
                          other: string)
    requires SameFor(s, s1, other)
    ensures SameFor(s, Audit(s1, actor, client, action, detail), other)
  {
    hide MintedId, StoredDetail;
    var s' := Audit(s1, actor, client, action, detail);
    assert s'.clients == s1.clients && SameTables(s1, s') && s'.evidence == s1.evidence;
  }

  lemma ReplaceSameForOthers(s: State, client: string, uses: seq<Row>, other: string)
    requires other != client
    ensures SameFor(s, ReplaceUses(s, client, uses), other)
  {
    hide Replace;
    var s' := ReplaceUses(s, client, uses);
    assert s'.clients == s.clients && s'.evidence == s.evidence && s'.deletions == s.deletions && s'.keys == s.keys;
  }

  lemma DocumentSameForOthers(s: State, s1: State, client: string, document: StoredDocument, other: string)
    requires other != client && client in s.clients
    requires SameFor(s.(clients := s.clients[client := s.clients[client].(document := document)]), s1, other)
    ensures SameFor(s, s1, other)
  {
    hide TableOf;
    var saved := s.(clients := s.clients[client := s.clients[client].(document := document)]);
    SameTablesSameTable(s, saved, other);
    assert saved.evidence == s.evidence && saved.deletions == s.deletions && saved.keys == s.keys;
  }

  lemma SaveSameForOthers(s: State, client: string, document: StoredDocument, uses: seq<Row>, actor: string,
                          other: string)
    requires other != client
    ensures SameFor(s, SaveDocument(s, client, document, uses, actor).0, other)
  {
    hide SameFor, Audit, ReplaceUses, KeysPresent;
    if client in s.clients && KeysPresent(uses) {
      var saved := s.(clients := s.clients[client := s.clients[client].(document := document)]);
      ReplaceSameForOthers(saved, client, uses, other);
      DocumentSameForOthers(s, ReplaceUses(saved, client, uses), client, document, other);
      AuditKeepsSameFor(s, ReplaceUses(saved, client, uses), actor, client, ClientSaveWrpDocument, CountDetail(|uses|),
                        other);
    } else {
      SameForItself(s, other);
    }
  }

  lemma SameForItself(s: State, other: string)
    ensures SameFor(s, s, other)
  {
  }

  lemma SetUsesSameForOthers(s: State, client: string, uses: seq<Row>, actor: string, other: string)
    requires other != client
    ensures SameFor(s, SetUses(s, client, uses, actor).0, other)
  {
    hide SameFor, Audit, ReplaceUses, KeysPresent;
    SameForItself(s, other);
    ReplaceSameForOthers(s, client, uses, other);
    AuditKeepsSameFor(s, ReplaceUses(s, client, uses), actor, client, ClientSetIntendedUses, CountDetail(|uses|),
                      other);
  }

  lemma EvidenceRowsSameForOthers(s: State, rows: map<string, EvidenceRow>, number: nat, other: string)
    requires forall e :: e in s.evidence && s.evidence[e].clientId == other ==> e in rows && rows[e] == s.evidence[e]
    requires forall e :: e in rows && rows[e].clientId == other ==> e in s.evidence && s.evidence[e].clientId == other
    ensures SameFor(s, s.(evidence := rows, number := number), other)
  {
    hide TableOf;
    var s' := s.(evidence := rows, number := number);
    SameTablesSameTable(s, s', other);
    assert SameTables(s, s') && s'.clients == s.clients;
  }

  lemma EvidenceSameForOthers(s: State, client: string, meta: Evidence, content: seq<byte>, actor: string,
                              other: string)
    requires MintedId(s.number + 1) !in s.evidence && other != client
    ensures SameFor(s, AddEvidence(s, client, meta, content, actor).0, other)
  {
    hide MintedId, SameFor, Audit;
    SameForItself(s, other);
    if client in s.clients {
      var id := MintedId(s.number + 1);
      var rows := s.evidence[id := EvidenceRow(meta.(id := id), client, content)];
      EvidenceRowsSameForOthers(s, rows, s.number + 1, other);
      AuditKeepsSameFor(s, s.(evidence := rows, number := s.number + 1), actor, client, EvidenceAdd,
                        EvidenceDetail(id, meta.filename), other);
    }
  }

  lemma PurgeSameForOthers(s: State, client: string, actor: string, other: string)
    requires other != client
    ensures SameFor(s, Purge(s, client, actor).0, other)
  {
    hide SameFor, Audit;
    SameForItself(s, other);
    var rows := Purged(s.evidence, client);
    EvidenceRowsSameForOthers(s, rows, s.number, other);
    AuditKeepsSameFor(s, s.(evidence := rows, number := s.number), actor, client, ClientPurge, EmptyObject, other);
    assert s.(evidence := rows, number := s.number) == s.(evidence := rows);
  }

  lemma KeySameForOthers(s: State, client: string, prefix: string, hash: string, other: string)
    requires other != client
    ensures SameFor(s, CreateApiKey(s, client, prefix, hash).0, other)
  {
    hide TableOf;
    var s' := CreateApiKey(s, client, prefix, hash).0;
    assert s'.clients == s.clients && s'.evidence == s.evidence && s'.deletions == s.deletions;
    SameTablesSameTable(s, s', other);
  }

  lemma SameTablesSameTable(s: State, s': State, client: string)
    requires s'.uses == s.uses && s'.order == s.order
    ensures TableOf(s', client) == TableOf(s, client)
  {
  }

  lemma DeletionSameForOthers(s: State, client: string, session: string, names: seq<string>, other: string)
    requires other != client
    ensures SameFor(s, LogDeletion(s, client, session, names).0, other)
  {
    hide MintedId, TableOf;
    var s' := LogDeletion(s, client, session, names).0;
    assert s'.clients == s.clients && s'.evidence == s.evidence && s'.keys == s.keys;
    assert s'.uses == s.uses && s'.order == s.order;
    SameTablesSameTable(s, s', other);
    OtherDeletionsKept(s, client, session, names, other);
  }

  lemma OtherDeletionsKept(s: State, client: string, session: string, names: seq<string>, other: string)
    requires other != client
    ensures DeletionsOf(LogDeletion(s, client, session, names).0, other) == DeletionsOf(s, other)
  {
    hide MintedId;
  }

  lemma AuditSameForOthers(s: State, actor: string, client: string, action: Action, detail: Detail, other: string)
    ensures SameFor(s, s, other)
    ensures SameFor(s, Audit(s, actor, client, action, detail), other)
  {
    hide MintedId;
  }

  lemma AppendSameForOthers(s: State, actor: string, client: string, action: Action, detail: Detail, other: string)
    ensures SameFor(s, AppendAudit(s, actor, client, action, detail).0, other)
  {
    hide MintedId, SameFor, Audit;
    AuditSameForOthers(s, actor, client, action, detail, other);
  }

  lemma CallSameForOthers(t: TextRules, s: State, call: Call, other: string)
    requires Valid(s)
    requires other != NamedClient(s, call)
    ensures SameFor(s, Apply(t, s, call).0, other)
  {
    hide MintedId, Valid, SameFor, CreateDraft, SaveDocument, SetUses, AddEvidence, Purge, CreateApiKey, LogDeletion,
         AppendAudit;
    match call
    case CreateDraftClient(name, email, actor) => CreateSameForOthers(t, s, name, email, actor, other);
    case SaveWrpDocument(client, document, uses, actor) => SaveSameForOthers(s, client, document, uses, actor, other);
    case SetIntendedUses(client, uses, actor) => SetUsesSameForOthers(s, client, uses, actor, other);
    case AddEvidenceRow(client, meta, content, actor) =>
      NextIdIsFresh(s);
      EvidenceSameForOthers(s, client, meta, content, actor, other);
    case PurgeOffboarded(client, actor) => PurgeSameForOthers(s, client, actor, other);
    case CreateKey(client, prefix, hash) => KeySameForOthers(s, client, prefix, hash, other);
    case LogDeletionRequest(client, session, names) => DeletionSameForOthers(s, client, session, names, other);
    case AppendAuditEntry(client, action, detail, actor) =>
      AppendSameForOthers(s, actor, client, action, detail, other);
    case _ => SetterSameForOthers(t, s, call, other);
  }

  lemma SameForSameView(s: State, s': State, other: string)
    requires SameFor(s, s', other)
    requires EntriesOf(s'.auditLog, other) == EntriesOf(s.auditLog, other)
    ensures ViewOf(s', other) == ViewOf(s, other)
  {
    hide EntriesOf, Listing;
    assert EvidenceOf(s', other) == EvidenceOf(s, other);
  }

  /** A call that names one client leaves everything readable about any other unchanged. */
  lemma ClientIsolation(t: TextRules, s: State, call: Call, other: string)
    requires Valid(s)
    requires other != NamedClient(s, call)
    ensures ViewOf(Apply(t, s, call).0, other) == ViewOf(s, other)
  {
    hide Apply, MintedId, Valid, SameFor, ViewOf;
    CallSameForOthers(t, s, call, other);
    LogStep(t, s, call);
    var s' := Apply(t, s, call).0;
    if s'.auditLog != s.auditLog {
      var e := s'.auditLog[|s.auditLog|];
      assert s'.auditLog == s.auditLog + [e] && e.clientId == NamedClient(s, call);
      EntriesOfAppend(s.auditLog, e, other);
    }
    SameForSameView(s, s', other);
  }

  lemma RunStep(t: TextRules, calls: seq<Call>, last: Call)
    ensures Run(t, calls + [last]) == Apply(t, Run(t, calls), last).0
  {
    hide Apply;
    assert (calls + [last])[..|calls + [last]| - 1] == calls;
  }

  lemma EmptyRun(t: TextRules)
    ensures Run(t, []) == EMPTY
  {
  }

  /** Over runs: calls that never name a client leave its view as it was. */
  lemma {:induction false} UnnamedClientUnchanged(t: TextRules, before: seq<Call>, after: seq<Call>, client: string)
    requires forall i :: 0 <= i < |after| ==> NamedClient(Run(t, before + after[..i]), after[i]) != client
    ensures ViewOf(Run(t, before + after), client) == ViewOf(Run(t, before), client)
  {
    hide Apply, ViewOf, MintedId, Valid, NamedClient, Run;
    if after == [] {
      assert before + after == before;
    } else {
      var front, last := after[..|after| - 1], after[|after| - 1];
      forall i | 0 <= i < |front|
        ensures NamedClient(Run(t, before + front[..i]), front[i]) != client
      {
        assert front[..i] == after[..i] && front[i] == after[i];
      }
      UnnamedClientUnchanged(t, before, front, client);
      assert before + after == before + front + [last];
      RunStep(t, before + front, last);
      RunIsValid(t, before + front);
      assert NamedClient(Run(t, before + after[..|front|]), after[|front|]) != client;
      ClientIsolation(t, Run(t, before + front), last, client);
    }
  }
}
