/** Every id the store mints is used once, across all five tables. */
module MintedIds {
  import opened Ids
  import opened IntendedUses
  import opened Registry
  import opened RegistryInvariants
  import opened Slugs

  /** Where a minted id can stand. */
  datatype Place =
    | ClientPlace(client: string)
    | AuditPlace(index: nat)
    | EvidencePlace(evidence: string)
    | DeletionPlace(owner: string, position: nat)
    | UsePlace(holder: string, key: string)

  predicate Occupied(s: State, p: Place) {
    match p
    case ClientPlace(c) => c in s.clients
    case AuditPlace(i) => i < |s.auditLog|
    case EvidencePlace(e) => e in s.evidence
    case DeletionPlace(c, i) => c in s.deletions && i < |s.deletions[c]|
    case UsePlace(c, k) => c in s.uses && k in s.uses[c]
  }

  function IdAt(s: State, p: Place): string
    requires Occupied(s, p)
  {
    match p
    case ClientPlace(c) => s.clients[c].id
    case AuditPlace(i) => s.auditLog[i].id
    case EvidencePlace(e) => s.evidence[e].meta.id
    case DeletionPlace(c, i) => s.deletions[c][i].id
    case UsePlace(c, k) => s.uses[c][k].id
  }

  /** Two places never hold the same id, and every id was minted. */
  ghost predicate AllDistinct(s: State) {
    && (forall p :: Occupied(s, p) ==> MintedUpTo(IdAt(s, p), s.number))
    && (forall p, q :: Occupied(s, p) && Occupied(s, q) && IdAt(s, p) == IdAt(s, q) ==> p == q)
  }

  /** Callers leave the internal ids of intended uses to the store. */
  predicate LeavesIds(call: Call) {
    call.SaveWrpDocument? || call.SetIntendedUses? ==>
      forall i :: 0 <= i < |call.uses| ==> call.uses[i].id == ""
  }

  ghost predicate MintedBetween(id: string, low: nat, high: nat) {
    exists m :: low < m <= high && id == MintedId(m)
  }

  /** The places of s' are those of s with unchanged ids, and new ones with new, distinct ids. */
  ghost predicate OnlyFreshPlaces(s: State, s': State) {
    && s.number <= s'.number
    && (forall p :: Occupied(s', p) ==>
          (Occupied(s, p) && IdAt(s', p) == IdAt(s, p)) || MintedBetween(IdAt(s', p), s.number, s'.number))
    && (forall p, q :: Occupied(s', p) && Occupied(s', q) && MintedBetween(IdAt(s', p), s.number, s'.number) ==>
          IdAt(s', p) == IdAt(s', q) ==> p == q)
  }

  lemma OldAndNewDiffer(a: string, b: string, low: nat, high: nat)
    requires MintedUpTo(a, low) && MintedBetween(b, low, high)
    ensures a != b
  {
    hide MintedId;
    if a == b {
      var m :| 1 <= m <= low && a == MintedId(m);
      var n :| low < n <= high && b == MintedId(n);
      MintedIdInjective(m, n);
    }
  }

  lemma FreshPlacesKeepDistinct(s: State, s': State)
    requires AllDistinct(s) && OnlyFreshPlaces(s, s')
    ensures AllDistinct(s')
  {
    hide MintedId, Occupied, IdAt, MintedBetween;
    forall p | Occupied(s', p)
      ensures MintedUpTo(IdAt(s', p), s'.number)
    {
      if MintedBetween(IdAt(s', p), s.number, s'.number) {
        BetweenIsUpTo(IdAt(s', p), s.number, s'.number);
      }
    }
  }

  lemma BetweenIsUpTo(id: string, low: nat, high: nat)
    requires MintedBetween(id, low, high)
    ensures MintedUpTo(id, high)
  {
    hide MintedId;
  }

  lemma NextIsBetween(number: nat, high: nat, m: nat)
    requires number < m <= high
    ensures MintedBetween(MintedId(m), number, high)
  {
    hide MintedId;
  }

  // ---- Each call ----

  lemma AuditOnlyFresh(s: State, s1: State, actor: string, client: string, action: Action, detail: Detail)
    requires AllDistinct(s) && OnlyFreshPlaces(s, s1)
    ensures AllDistinct(Audit(s1, actor, client, action, detail))
  {
    hide MintedId;
    FreshPlacesKeepDistinct(s, s1);
    var s' := Audit(s1, actor, client, action, detail);
    AuditPlaces(s1, s');
    FreshPlacesKeepDistinct(s1, s');
  }

  lemma AuditPlaces(s: State, s': State)
    requires AllDistinct(s)
    requires |s'.auditLog| == |s.auditLog| + 1 && s.auditLog <= s'.auditLog
    requires s'.auditLog[|s.auditLog|].id == MintedId(s.number + 1)
    requires s' == s.(auditLog := s'.auditLog, number := s.number + 1)
    ensures OnlyFreshPlaces(s, s')
  {
    hide MintedId;
    NextIsBetween(s.number, s'.number, s.number + 1);
    forall p | Occupied(s', p) && p != AuditPlace(|s.auditLog|)
      ensures Occupied(s, p) && IdAt(s', p) == IdAt(s, p) && !MintedBetween(IdAt(s', p), s.number, s'.number)
    {
      OldPlaceStaysOld(s, s', p);
    }
  }

  lemma OldPlaceStaysOld(s: State, s': State, p: Place)
    requires AllDistinct(s) && s.number <= s'.number
    requires Occupied(s', p) && Occupied(s, p) && IdAt(s', p) == IdAt(s, p)
    ensures !MintedBetween(IdAt(s', p), s.number, s'.number)
  {
    hide MintedId, MintedBetween, Occupied, IdAt;
    if MintedBetween(IdAt(s', p), s.number, s'.number) {
      OldAndNewDiffer(IdAt(s, p), IdAt(s', p), s.number, s'.number);
    }
  }

  lemma OnePlaceAdded(s: State, s': State, added: Place)
    requires AllDistinct(s) && s'.number == s.number + 1
    requires Occupied(s', added) && IdAt(s', added) == MintedId(s.number + 1)
    requires forall p :: Occupied(s', p) && p != added ==> Occupied(s, p) && IdAt(s', p) == IdAt(s, p)
    ensures OnlyFreshPlaces(s, s')
  {
    hide MintedId, Occupied, IdAt;
    NextIsBetween(s.number, s'.number, s.number + 1);
    forall p | Occupied(s', p) && p != added
      ensures !MintedBetween(IdAt(s', p), s.number, s'.number)
    {
      OldPlaceStaysOld(s, s', p);
    }
  }

  lemma SamePlaces(s: State, s': State)
    requires AllDistinct(s) && s'.number == s.number
    requires forall p :: Occupied(s', p) ==> Occupied(s, p) && IdAt(s', p) == IdAt(s, p)
    ensures OnlyFreshPlaces(s, s')
  {
    hide MintedId, Occupied, IdAt;
    forall p | Occupied(s', p)
      ensures !MintedBetween(IdAt(s', p), s.number, s'.number)
    {
      OldPlaceStaysOld(s, s', p);
    }
  }

  lemma SetterDistinct(t: TextRules, s: State, call: Call)
    requires AllDistinct(s) && Valid(s) && IsSetter(call)
    ensures AllDistinct(Apply(t, s, call).0)
  {
    hide Apply, SetterWrite, MintedId, Valid;
    SetterShape(t, s, call);
    if Apply(t, s, call).1.Ok? {
      var (row, action, detail) := SetterWrite(s, call);
      SetterRowKeepsId(s, call);
      ClientIdIsKey(s, call.client);
      var s1 := s.(clients := s.clients[call.client := row]);
      SamePlaces(s, s1);
      AuditOnlyFresh(s, s1, call.actor, call.client, action, detail);
    }
  }

  lemma ClientIdIsKey(s: State, client: string)
    requires Valid(s) && client in s.clients
    ensures s.clients[client].id == client
  {
    hide MintedId, Consistent;
  }

  lemma CreateDistinct(t: TextRules, s: State, name: string, email: string, actor: string)
    requires AllDistinct(s)
    ensures AllDistinct(CreateDraft(t, s, name, email, actor).0)
  {
    hide MintedId, Slugify;
    var id := MintedId(s.number + 1);
    var s1 := s.(clients := s.clients[id := NewClient(t, id, name, email)], number := s.number + 1);
    OnePlaceAdded(s, s1, ClientPlace(id));
    AuditOnlyFresh(s, s1, actor, id, ClientCreate, NameDetail(name));
  }

  lemma AddEvidenceDistinct(s: State, client: string, meta: Evidence, content: seq<Values.byte>, actor: string)
    requires AllDistinct(s)
    ensures AllDistinct(AddEvidence(s, client, meta, content, actor).0)
  {
    hide MintedId;
    if client in s.clients {
      var id := MintedId(s.number + 1);
      var s1 := s.(evidence := s.evidence[id := EvidenceRow(meta.(id := id), client, content)], number := s.number + 1);
      OnePlaceAdded(s, s1, EvidencePlace(id));
      AuditOnlyFresh(s, s1, actor, client, EvidenceAdd, EvidenceDetail(id, meta.filename));
    }
  }

  lemma DeletionDistinct(s: State, client: string, session: string, names: seq<string>)
    requires AllDistinct(s)
    ensures AllDistinct(LogDeletion(s, client, session, names).0)
  {
    hide MintedId;
    var (s', outcome) := LogDeletion(s, client, session, names);
    if outcome.Ok? {
      OnePlaceAdded(s, s', DeletionPlace(client, |DeletionsOf(s, client)|));
      FreshPlacesKeepDistinct(s, s');
    }
  }

  lemma PurgeDistinct(s: State, client: string, actor: string)
    requires AllDistinct(s)
    ensures AllDistinct(Purge(s, client, actor).0)
  {
    hide MintedId;
    var (s', outcome) := Purge(s, client, actor);
    if outcome.Ok? {
      var s1 := s.(evidence := Purged(s.evidence, client));
      SamePlaces(s, s1);
      AuditOnlyFresh(s, s1, actor, client, ClientPurge, EmptyObject);
    }
  }

  /** A key already stored keeps its row's id when the submitted ids are empty. */
  lemma {:induction false} ResolvedIdIsKept(existing: map<string, Row>, uses: seq<Row>, number: nat, key: string)
    requires forall i :: 0 <= i < |uses| ==> uses[i].id == ""
    requires key in existing && key in ResolveRows(existing, uses, number).0
    ensures ResolveRows(existing, uses, number).0[key].id == existing[key].id
  {
    hide MintedId;
    if uses[|uses| - 1].intendedUseId == key {
    } else {
      ResolvedIdIsKept(existing, uses[..|uses| - 1], number, key);
    }
  }

  /** The ids of keys not stored before are new, and no two of those keys share one. */
  lemma {:induction false} ResolvedIdIsNew(existing: map<string, Row>, uses: seq<Row>, number: nat, key: string)
    requires forall i :: 0 <= i < |uses| ==> uses[i].id == ""
    requires key !in existing && key in ResolveRows(existing, uses, number).0
    ensures var (rows, n) := ResolveRows(existing, uses, number);
            && MintedBetween(rows[key].id, number, n)
            && forall k :: k in rows && k !in existing && rows[k].id == rows[key].id ==> k == key
  {
    hide MintedId, MintedBetween;
    var front, use := uses[..|uses| - 1], uses[|uses| - 1];
    var (before, n) := ResolveRows(existing, front, number);
    var (rows, n') := ResolveRows(existing, uses, number);
    forall k | k in before && k !in existing
      ensures MintedBetween(before[k].id, number, n) && before[k].id != MintedId(n + 1)
      ensures MintedBetween(before[k].id, number, n')
    {
      ResolvedIdIsNew(existing, front, number, k);
      NotTheNextId(before[k].id, number, n);
      WidenBetween(before[k].id, number, n, n');
    }
    if use.intendedUseId == key {
      NextIsBetween(number, n', n');
    } else {
      ResolvedIdIsNew(existing, front, number, key);
    }
  }

  lemma NotTheNextId(id: string, low: nat, high: nat)
    requires MintedBetween(id, low, high)
    ensures id != MintedId(high + 1)
  {
    hide MintedId;
    var m :| low < m <= high && id == MintedId(m);
    if id == MintedId(high + 1) {
      MintedIdInjective(m, high + 1);
    }
  }

  lemma WidenBetween(id: string, low: nat, high: nat, higher: nat)
    requires MintedBetween(id, low, high) && high <= higher
    ensures MintedBetween(id, low, higher)
  {
    hide MintedId;
  }

  lemma ReplaceOnlyFresh(s: State, client: string, uses: seq<Row>)
    requires AllDistinct(s)
    requires forall i :: 0 <= i < |uses| ==> uses[i].id == ""
    ensures OnlyFreshPlaces(s, ReplaceUses(s, client, uses))
  {
    hide MintedId, ResolveRows, AppendNew, Kept, MintedBetween, MintedUpTo;
    var existing := TableOf(s, client).rows;
    var s' := ReplaceUses(s, client, uses);
    forall p | Occupied(s', p)
      ensures (Occupied(s, p) && IdAt(s', p) == IdAt(s, p) && !MintedBetween(IdAt(s', p), s.number, s'.number))
           || (p.UsePlace? && p.holder == client && p.key !in existing
               && MintedBetween(IdAt(s', p), s.number, s'.number))
    {
      if p.UsePlace? && p.holder == client && p.key !in existing {
        ResolvedIdIsNew(existing, uses, s.number, p.key);
      } else {
        if p.UsePlace? && p.holder == client {
          ResolvedIdIsKept(existing, uses, s.number, p.key);
        }
        assert Occupied(s, p) && IdAt(s', p) == IdAt(s, p);
        OldPlaceStaysOld(s, s', p);
      }
    }
    forall p, q | Occupied(s', p) && Occupied(s', q)
               && MintedBetween(IdAt(s', p), s.number, s'.number) && IdAt(s', p) == IdAt(s', q)
      ensures p == q
    {
      ResolvedIdIsNew(existing, uses, s.number, p.key);
    }
  }

  lemma UsesDistinct(t: TextRules, s: State, call: Call)
    requires AllDistinct(s) && Valid(s) && LeavesIds(call) && (call.SaveWrpDocument? || call.SetIntendedUses?)
    ensures AllDistinct(Apply(t, s, call).0)
  {
    hide MintedId, Valid, ReplaceUses, AllDistinct, KeysPresent;
    var (s', outcome) := Apply(t, s, call);
    if outcome.Ok? {
      var client := s.clients[call.client];
      var row := if call.SaveWrpDocument? then client.(document := call.document) else client;
      var s0 := s.(clients := s.clients[call.client := row]);
      assert call.SetIntendedUses? ==> s0 == s;
      SavedRowDistinct(s, call.client, row);
      ReplaceOnlyFresh(s0, call.client, call.uses);
      var action := if call.SaveWrpDocument? then ClientSaveWrpDocument else ClientSetIntendedUses;
      AuditOnlyFresh(s0, ReplaceUses(s0, call.client, call.uses), call.actor, call.client, action,
                     CountDetail(|call.uses|));
    }
  }

  lemma SavedRowDistinct(s: State, client: string, row: Client)
    requires AllDistinct(s) && client in s.clients && row.id == s.clients[client].id
    ensures AllDistinct(s.(clients := s.clients[client := row]))
  {
    hide MintedId;
    var s1 := s.(clients := s.clients[client := row]);
    SamePlaces(s, s1);
    FreshPlacesKeepDistinct(s, s1);
  }

  lemma OtherDistinct(s: State, call: Call)
    requires AllDistinct(s)
    ensures call.CreateKey? ==> AllDistinct(CreateApiKey(s, call.client, call.prefix, call.secretHash).0)
    ensures call.AppendAuditEntry? ==> AllDistinct(AppendAudit(s, call.actor, call.client, call.action, call.detail).0)
  {
    hide MintedId;
    if call.CreateKey? {
      var s' := CreateApiKey(s, call.client, call.prefix, call.secretHash).0;
      SamePlaces(s, s');
      FreshPlacesKeepDistinct(s, s');
    } else if call.AppendAuditEntry? {
      SamePlaces(s, s);
      AuditOnlyFresh(s, s, call.actor, call.client, call.action, call.detail);
    }
  }

  lemma ApplyKeepsDistinct(t: TextRules, s: State, call: Call)
    requires AllDistinct(s) && Valid(s) && LeavesIds(call)
    ensures AllDistinct(Apply(t, s, call).0)
  {
    hide MintedId, AllDistinct, Valid, CreateDraft, AddEvidence, LogDeletion, Purge, CreateApiKey, AppendAudit;
    match call
    case CreateDraftClient(name, email, actor) => CreateDistinct(t, s, name, email, actor);
    case AddEvidenceRow(client, meta, content, actor) => AddEvidenceDistinct(s, client, meta, content, actor);
    case LogDeletionRequest(client, session, names) => DeletionDistinct(s, client, session, names);
    case PurgeOffboarded(client, actor) => PurgeDistinct(s, client, actor);
    case SaveWrpDocument(client, document, uses, actor) => UsesDistinct(t, s, call);
    case SetIntendedUses(client, uses, actor) => UsesDistinct(t, s, call);
    case CreateKey(client, prefix, secretHash) => OtherDistinct(s, call);
    case AppendAuditEntry(client, action, detail, actor) => OtherDistinct(s, call);
    case _ => SetterDistinct(t, s, call);
  }

  /** Main result: in every run, no two places hold the same minted id. */
  lemma {:induction false} MintedIdsAreDistinct(t: TextRules, calls: seq<Call>)
    requires forall i :: 0 <= i < |calls| ==> LeavesIds(calls[i])
    ensures AllDistinct(Run(t, calls))
  {
    hide Apply, AllDistinct, Valid;
    if calls == [] {
      NothingMinted();
    } else {
      var front, last := calls[..|calls| - 1], calls[|calls| - 1];
      MintedIdsAreDistinct(t, front);
      RunIsValid(t, front);
      ApplyKeepsDistinct(t, Run(t, front), last);
    }
  }

  lemma NothingMinted()
    ensures AllDistinct(EMPTY)
  {
  }

  // ---- The slugs of stored clients ----

  lemma {:induction false} StoredSlugIsSlugify(t: TextRules, calls: seq<Call>, client: string)
    requires client in Run(t, calls).clients
    ensures var row := Run(t, calls).clients[client];
            row.slug == Slugify(t, row.name, client)
  {
    hide Apply, Slugify, MintedId, Valid;
    var front, last := calls[..|calls| - 1], calls[|calls| - 1];
    var s := Run(t, front);
    RunIsValid(t, front);
    if client in s.clients {
      StoredSlugIsSlugify(t, front, client);
      RowStep(t, s, last, client);
    } else {
      NewRowStep(t, s, last, client);
    }
  }

  /** Every stored slug is hyphen-separated runs of [a-z0-9], at most 48 characters long. */
  lemma StoredSlugShape(t: TextRules, calls: seq<Call>, client: string)
    requires t.Valid() && client in Run(t, calls).clients
    ensures var slug := Run(t, calls).clients[client].slug;
            HyphenatedRuns(slug) && |slug| <= 48
  {
    hide Run, Slugify, MintedId, HyphenatedRuns;
    StoredSlugIsSlugify(t, calls, client);
    ClientIdsAreMinted(t, calls, client);
    var m :| 1 <= m <= Run(t, calls).number && client == MintedId(m);
    SlugShape(t, Run(t, calls).clients[client].name, m);
  }

  /** Two stored clients share a slug only if their numbers agree modulo 10^7. */
  lemma StoredSlugsCollideOnlyModulo(t: TextRules, calls: seq<Call>, m: nat, n: nat)
    requires t.Valid()
    requires MintedId(m) in Run(t, calls).clients && MintedId(n) in Run(t, calls).clients
    requires m % Pow10(SUFFIX_LENGTH) != n % Pow10(SUFFIX_LENGTH)
    ensures Run(t, calls).clients[MintedId(m)].slug != Run(t, calls).clients[MintedId(n)].slug
  {
    hide Run, Slugify, MintedId, Pow10;
    var s := Run(t, calls);
    StoredSlugIsSlugify(t, calls, MintedId(m));
    StoredSlugIsSlugify(t, calls, MintedId(n));
    SlugsDifferAcrossNames(t, s.clients[MintedId(m)].name, m, s.clients[MintedId(n)].name, n);
  }

  lemma ClientIdsAreMinted(t: TextRules, calls: seq<Call>, client: string)
    requires client in Run(t, calls).clients
    ensures MintedUpTo(client, Run(t, calls).number)
  {
    hide Run, MintedId, Consistent;
    RunIsValid(t, calls);
  }

  /** Two stored clients of one name share a slug exactly when their numbers agree modulo 10^7. */
  lemma StoredSameNameSlugsCollideIff(t: TextRules, calls: seq<Call>, m: nat, n: nat)
    requires t.Valid()
    requires MintedId(m) in Run(t, calls).clients && MintedId(n) in Run(t, calls).clients
    requires Run(t, calls).clients[MintedId(m)].name == Run(t, calls).clients[MintedId(n)].name
    ensures var clients := Run(t, calls).clients;
            clients[MintedId(m)].slug == clients[MintedId(n)].slug
            <==> m % Pow10(SUFFIX_LENGTH) == n % Pow10(SUFFIX_LENGTH)
  {
    hide Run, Slugify, MintedId, Pow10;
    StoredSlugIsSlugify(t, calls, MintedId(m));
    StoredSlugIsSlugify(t, calls, MintedId(n));
    SameNameSlugsCollideIff(t, Run(t, calls).clients[MintedId(m)].name, m, n);
  }

  /** k clients created under one name, and nothing else. */
  function Creates(name: string, k: nat): seq<Call> {
    if k == 0 then [] else Creates(name, k - 1) + [CreateDraftClient(name, "", "api")]
  }

  lemma CreateMintsTwo(t: TextRules, s: State, name: string)
    ensures var s' := Apply(t, s, CreateDraftClient(name, "", "api")).0;
            && s'.number == s.number + 2
            && s'.clients == s.clients[MintedId(s.number + 1) := NewClient(t, MintedId(s.number + 1), name, "")]
  {
    hide MintedId, NewClient;
  }

  lemma NewClientIsNamed(t: TextRules, id: string, name: string)
    ensures NewClient(t, id, name, "").name == name
  {
    hide Slugify;
  }

  /** Each creation takes two numbers, so the j-th of them stores its client under number 2j + 1. */
  lemma {:induction false} CreatesStoreClients(t: TextRules, name: string, k: nat, j: nat)
    ensures Run(t, Creates(name, k)).number == 2 * k
    ensures j < k ==>
              && MintedId(2 * j + 1) in Run(t, Creates(name, k)).clients
              && Run(t, Creates(name, k)).clients[MintedId(2 * j + 1)].name == name
  {
    hide Apply, MintedId, NewClient, Run;
    if k == 0 {
      EmptyRun(t);
    } else {
      CreatesStoreClients(t, name, k - 1, j);
      var create := CreateDraftClient(name, "", "api");
      RunStep(t, Creates(name, k - 1), create);
      CreateMintsTwo(t, Run(t, Creates(name, k - 1)), name);
      NewClientIsNamed(t, MintedId(2 * k - 1), name);
      if j < k - 1 && MintedId(2 * j + 1) == MintedId(2 * k - 1) {
        MintedIdInjective(2 * j + 1, 2 * k - 1);
      }
    }
  }

  /**
    The collision in a store: whatever the name, a run of creations ends with two different
    clients that share name and slug.
   */
  lemma StoredClientsCanShareASlug(t: TextRules, name: string)
    requires t.Valid()
    ensures var clients := Run(t, Creates(name, 5_000_001)).clients;
            && MintedId(1) in clients && MintedId(10_000_001) in clients && MintedId(1) != MintedId(10_000_001)
            && clients[MintedId(1)].name == clients[MintedId(10_000_001)].name == name
            && clients[MintedId(1)].slug == clients[MintedId(10_000_001)].slug
  {
    hide Run, Creates, MintedId, Slugify;
    var calls := Creates(name, 5_000_001);
    CreatesStoreClients(t, name, 5_000_001, 0);
    CreatesStoreClients(t, name, 5_000_001, 5_000_000);
    StoredSlugIsSlugify(t, calls, MintedId(1));
    StoredSlugIsSlugify(t, calls, MintedId(10_000_001));
    SameNameSlugCollision(t, name);
  }
}
