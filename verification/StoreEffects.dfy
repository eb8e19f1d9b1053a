/** The verdict of every store call, the audit entry it leaves, and what it writes. */
module StoreEffects {
  import opened Ids
  import opened IntendedUses
  import opened MintedIds
  import opened Registry
  import opened RegistryInvariants
  import opened Selections
  import opened Slugs
  import opened SlugSpelling
  import opened Values

  // ---- The patterns the store checks ----

  predicate IsBlank(c: char) {
    c in [' ', '\t', '\n', '\r', '\U{000C}']
  }

  /** A webhook is https:// and at least one more character, none of them white space. */
  lemma WebhookPattern(url: string)
    ensures MatchesWebhook(url)
       <==> |url| > 8 && url[..8] == "https://" && forall i :: 8 <= i < |url| ==> !IsBlank(url[i])
  {
    if |url| > 8 && url[..8] == "https://" {
      assert HTTPS <= url;
    }
  }

  /** An origin is https:// and at least one more character, none of them white space or one of / ? # @. */
  lemma OriginPattern(origin: string)
    ensures MatchesWebOrigin(origin)
       <==> |origin| > 8 && origin[..8] == "https://"
            && forall i :: 8 <= i < |origin| ==> !IsBlank(origin[i]) && origin[i] !in ['/', '?', '#', '@']
  {
    if |origin| > 8 && origin[..8] == "https://" {
      assert HTTPS <= origin;
    }
  }

  // ---- Verdicts ----

  predicate NamesUnknown(s: State, call: Call) {
    && !call.CreateDraftClient? && !call.AppendAuditEntry? && !call.LogDeletionRequest?
    && call.client !in s.clients
  }

  /** Refused before the client is looked up. */
  predicate BadArguments(call: Call) {
    match call
    case SetClientWebhook(_, url, _) => !MatchesWebhook(url)
    case SetClientAllowedOrigins(_, origins, _) =>
      |origins| > 20 || exists i :: 0 <= i < |origins| && !MatchesWebOrigin(origins[i])
    case SetClientDcapiMode(_, mode, _) => mode != "signed" && mode != "unsigned"
    case _ => false
  }

  /** Refused once the client is found. */
  predicate Inapplicable(s: State, call: Call) {
    match call
    case SaveWrpDocument(_, _, uses, _) => exists i :: 0 <= i < |uses| && uses[i].intendedUseId == ""
    case SetIntendedUses(_, uses, _) => exists i :: 0 <= i < |uses| && uses[i].intendedUseId == ""
    case PurgeOffboarded(client, _) => client in s.clients && s.clients[client].status != Offboarded
    case _ => false
  }

  predicate IllegalEdge(s: State, call: Call) {
    && call.TransitionClient? && call.client in s.clients
    && !Legal(s.clients[call.client].status, call.to)
  }

  predicate BadRecord(call: Call) {
    || (call.AppendAuditEntry? && (call.actor == "" || call.action == OtherAction("")))
    || (call.LogDeletionRequest? && (call.client == "" || call.session == ""))
  }

  /** A mode call whose client's stored policy is neither absent nor an object. */
  predicate PolicyUnusable(s: State, call: Call) {
    && call.SetClientDcapiMode? && call.client in s.clients
    && var policy := s.clients[call.client].policy;
       !policy.NoText? && !(policy.Parsed? && policy.value.Object?)
  }

  /** Success, and each error, exactly when its own condition is the first to hold. */
  lemma CallVerdict(t: TextRules, s: State, call: Call)
    ensures var outcome := Apply(t, s, call).1;
            && (outcome == Err(NotFound) <==> !BadArguments(call) && NamesUnknown(s, call))
            && (outcome == Err(Invalid) <==>
                BadArguments(call) || (!NamesUnknown(s, call) && Inapplicable(s, call)))
            && (outcome == Err(IllegalTransition) <==> IllegalEdge(s, call))
            && (outcome == Err(AuditInvalid) <==> BadRecord(call))
            && (outcome == Err(Panic) <==>
                !BadArguments(call) && PolicyUnusable(s, call) && s.clients[call.client].policy == Parsed(Null))
            && (outcome == Err(Internal) <==>
                !BadArguments(call) && PolicyUnusable(s, call) && s.clients[call.client].policy != Parsed(Null))
  {
    hide MintedId, NewClient, Replace, MatchesWebhook, MatchesWebOrigin, Audit;
  }

  lemma CallSucceedsIff(t: TextRules, s: State, call: Call)
    ensures Apply(t, s, call).1.Ok?
       <==> !BadArguments(call) && !NamesUnknown(s, call) && !Inapplicable(s, call) && !IllegalEdge(s, call)
            && !BadRecord(call) && !PolicyUnusable(s, call)
  {
    hide Apply, BadArguments, Inapplicable, BadRecord;
    CallVerdict(t, s, call);
    match Apply(t, s, call).1
    case Ok(_) =>
    case Err(error) =>
      match error
      case NotFound | Invalid | IllegalTransition | AuditInvalid | Internal | Panic =>
  }

  /** A success returns the id just minted, where there is one to return. */
  lemma CallReturnsId(t: TextRules, s: State, call: Call)
    requires Apply(t, s, call).1.Ok?
    ensures Apply(t, s, call).1.id
         == if call.CreateDraftClient? || call.AddEvidenceRow? || call.LogDeletionRequest? then MintedId(s.number + 1)
            else ""
  {
    hide MintedId, NewClient, Replace, MatchesWebhook, MatchesWebOrigin, Audit;
  }

  // ---- The audit entry ----

  /** What a successful call records about itself. */
  function DetailOf(s: State, call: Call): Detail {
    match call
    case CreateDraftClient(name, _, _) => NameDetail(name)
    case TransitionClient(client, to, _, evidenceRef, reason) =>
      if client in s.clients then TransitionDetail(s.clients[client].status, to, evidenceRef, reason) else EmptyObject
    case SetClientRegistrarIdentity(_, uri, identifier, _) => IdentityDetail(uri, identifier)
    case SetClientWebhook(_, url, _) => WebhookDetail(url)
    case SetClientAllowedOrigins(_, origins, _) => OriginsDetail(origins)
    case SetClientDcapiMode(_, mode, _) => ModeDetail(mode)
    case SaveWrpDocument(_, _, uses, _) => CountDetail(|uses|)
    case SetIntendedUses(_, uses, _) => CountDetail(|uses|)
    case AddEvidenceRow(_, meta, _, _) => EvidenceDetail(MintedId(s.number + 1), meta.filename)
    case AppendAuditEntry(_, _, detail, _) => if detail == RawDetail("") then EmptyObject else detail
    case _ => EmptyObject
  }

  /** The last entry after a call. */
  function LastDetail(s: State): Detail {
    if s.auditLog == [] then EmptyObject else s.auditLog[|s.auditLog| - 1].detail
  }

  lemma AuditLeavesDetail(s: State, actor: string, client: string, action: Action, detail: Detail)
    ensures LastDetail(Audit(s, actor, client, action, detail))
         == if detail == RawDetail("") then EmptyObject else detail
  {
    hide MintedId;
  }

  lemma SetterDetail(t: TextRules, s: State, call: Call)
    requires IsSetter(call) && Apply(t, s, call).1.Ok?
    ensures LastDetail(Apply(t, s, call).0) == DetailOf(s, call)
  {
    hide Apply, Audit, MintedId;
    SetterShape(t, s, call);
    var (row, action, detail) := SetterWrite(s, call);
    AuditLeavesDetail(s.(clients := s.clients[call.client := row]), call.actor, call.client, action, detail);
  }

  lemma OtherDetail(t: TextRules, s: State, call: Call)
    requires !IsSetter(call) && AuditedAs(call).Some? && Apply(t, s, call).1.Ok?
    ensures LastDetail(Apply(t, s, call).0) == DetailOf(s, call)
  {
    hide MintedId, NewClient, Replace, Audit, LastDetail;
    forall s1: State, client, action, detail
      ensures LastDetail(Audit(s1, call.actor, client, action, detail))
           == if detail == RawDetail("") then EmptyObject else detail
    {
      AuditLeavesDetail(s1, call.actor, client, action, detail);
    }
  }

  /** The entry a successful call leaves: its id, actor, client, action and detail. */
  lemma RecordedEntry(t: TextRules, s: State, call: Call)
    requires Apply(t, s, call).1.Ok? && AuditedAs(call).Some?
    ensures var s' := Apply(t, s, call).0;
            s'.auditLog == s.auditLog
              + [AuditEntry(MintedId(s'.number), call.actor, NamedClient(s, call), AuditedAs(call).value,
                            DetailOf(s, call))]
  {
    hide Apply, MintedId, DetailOf, NamedClient, AuditedAs;
    LogStep(t, s, call);
    if IsSetter(call) {
      SetterDetail(t, s, call);
    } else {
      OtherDetail(t, s, call);
    }
  }

  // ---- What is written ----

  /** A created client: a nameable draft, its slug made of the name and the end of its id. */
  lemma CreatedClient(t: TextRules, s: State, name: string, email: string, actor: string)
    ensures var (s', outcome) := Apply(t, s, CreateDraftClient(name, email, actor));
            var id := MintedId(s.number + 1);
            && outcome == Ok(id) && id in s'.clients
            && var row := s'.clients[id];
               && row.id == id && row.name == name && row.status == Draft
               && row.contactEmails == (if email == "" then [] else [email])
               && row.registryUri == "" && row.clientIdentifier == "" && row.webhook == "" && row.allowedOrigins == []
               && row.policy == Parsed(Object(map[])) && row.document == NoDocument
               && SlugSays(t, name, id, row.slug)
  {
    hide MintedId, Slugify, SlugSays;
    SlugifySays(t, name, MintedId(s.number + 1));
  }

  /** The spelled base, a hyphen, and the last seven characters of the id, lower-cased. */
  ghost predicate SlugSays(t: TextRules, name: string, id: string, slug: string) {
    exists base ::
      && BaseSays(t, name, base)
      && slug == base + "-" + Lower(t, if |id| > 7 then id[|id| - 7..] else id)
  }

  lemma SlugifySays(t: TextRules, name: string, id: string)
    ensures SlugSays(t, name, id, Slugify(t, name, id))
  {
    hide BaseSays, SlugBase;
    SlugBaseSpellsName(t, name);
  }

  /** In every run, every stored slug spells its client's name. */
  lemma StoredSlugSpellsName(t: TextRules, calls: seq<Call>, client: string)
    requires client in Run(t, calls).clients
    ensures var row := Run(t, calls).clients[client];
            SlugSays(t, row.name, client, row.slug)
  {
    hide Run, Slugify, SlugSays;
    StoredSlugIsSlugify(t, calls, client);
    SlugifySays(t, Run(t, calls).clients[client].name, client);
  }

  /** The row of a stored client after a successful call on it, field by field. */
  predicate WrittenBy(call: Call, was: Client, row: Client) {
    match call
    case TransitionClient(_, to, _, _, _) => row == was.(status := to)
    case SetClientRegistrarIdentity(_, uri, identifier, _) =>
      row == was.(registryUri := uri, clientIdentifier := identifier)
    case SetClientWebhook(_, url, _) => row == was.(webhook := url)
    case SetClientAllowedOrigins(_, origins, _) => row == was.(allowedOrigins := origins)
    case SetClientDcapiMode(_, mode, _) =>
      row == was.(policy := row.policy) && StoredMode(row.policy) == mode
    case SaveWrpDocument(_, document, _, _) => row == was.(document := document)
    case _ => row == was
  }

  lemma CallWrites(t: TextRules, s: State, call: Call)
    requires !call.CreateDraftClient? && call.client in s.clients && Apply(t, s, call).1.Ok?
    ensures var s' := Apply(t, s, call).0;
            call.client in s'.clients && WrittenBy(call, s.clients[call.client], s'.clients[call.client])
  {
    hide MintedId, Replace, MatchesWebhook, MatchesWebOrigin;
  }

  /** A logged deletion request is appended to its client's list, as submitted, under a new id. */
  lemma DeletionIsLogged(t: TextRules, s: State, client: string, session: string, names: seq<string>)
    requires client != "" && session != ""
    ensures var s' := Apply(t, s, LogDeletionRequest(client, session, names)).0;
            && DeletionsOf(s', client)
                 == DeletionsOf(s, client) + [DeletionRequest(MintedId(s.number + 1), client, session, names)]
            && s'.auditLog == s.auditLog
  {
    hide MintedId;
  }

  lemma KeyIsAppended(t: TextRules, s: State, client: string, prefix: string, hash: string)
    requires client in s.clients
    ensures var s' := Apply(t, s, CreateKey(client, prefix, hash)).0;
            KeysOf(s', client) == KeysOf(s, client) + [ApiKey(prefix, hash)] && s'.auditLog == s.auditLog
  {
  }

  // ---- Listings ----

  /** Newest first: at most limit rows, none for a limit below one, the last row first. */
  lemma NewestFirst<T>(rows: seq<T>, limit: int)
    ensures var listed := Newest(rows, limit);
            && |listed| == (if limit < 0 then 0 else if limit < |rows| then limit else |rows|)
            && forall i :: 0 <= i < |listed| ==> listed[i] == rows[|rows| - 1 - i]
  {
  }

  function Concerns(client: string): AuditEntry -> bool {
    (e: AuditEntry) => e.clientId == client
  }

  /** The client's entries are exactly the log's entries with its id, in log order. */
  lemma {:induction false} EntriesAreSelected(log: seq<AuditEntry>, client: string)
    ensures Selects(log, Concerns(client), EntriesOf(log, client))
  {
    hide Selects, EntriesOf;
    if log == [] {
      SelectsNothing<AuditEntry>(Concerns(client));
      assert EntriesOf([], client) == [] by {
        NoEntries(client);
      }
    } else {
      var front, e := log[..|log| - 1], log[|log| - 1];
      assert front + [e] == log;
      EntriesAreSelected(front, client);
      SelectsNext(front, Concerns(client), EntriesOf(front, client), e);
      EntriesOfAppend(front, e, client);
      assert EntriesOf(front, client) + [] == EntriesOf(front, client);
    }
  }

  lemma NoEntries(client: string)
    ensures EntriesOf([], client) == []
  {
  }
}
