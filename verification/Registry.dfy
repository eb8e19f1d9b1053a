/**
  The in-memory registry as a value: its state, every store call as a function from state
  to state and outcome, runs of calls, and the client-scoped reads.
 */
module Registry {
  import opened Ids
  import opened IntendedUses
  import opened Slugs
  import opened Values
  import Ts5

  // ---- Records ----

  /** The seven lifecycle states; any other string a caller may send is OtherStatus. */
  datatype Status =
    | Draft
    | EvidenceSubmitted
    | FiledWithRegistrar
    | Registered
    | Active
    | Suspended
    | Offboarded
    | OtherStatus(raw: string)

  datatype StoredDocument = NoDocument | WrpDocument(doc: Ts5.WrpDocument) | OtherDocument(json: string)

  datatype Client = Client(
    id: string,
    name: string,
    status: Status,
    registryUri: string,
    clientIdentifier: string,
    webhook: string,
    allowedOrigins: seq<string>,
    policy: RawJson,
    slug: string,
    document: StoredDocument,
    contactEmails: seq<string>)

  datatype Evidence = Evidence(id: string, filename: string, mime: string, sha256: string, sizeBytes: int)

  datatype EvidenceRow = EvidenceRow(meta: Evidence, clientId: string, content: seq<byte>)

  /** The actions the store writes itself, and any other string AppendAudit is given. */
  datatype Action =
    | ClientCreate
    | ClientTransition
    | ClientSetRegistrarIdentity
    | ClientSetWebhook
    | ClientSetAllowedOrigins
    | ClientSetDcapiMode
    | ClientSaveWrpDocument
    | ClientSetIntendedUses
    | ClientPurge
    | EvidenceAdd
    | OtherAction(raw: string)

  datatype Detail =
    | EmptyObject
    | NameDetail(name: string)
    | TransitionDetail(from: Status, to: Status, evidenceRef: string, reason: string)
    | IdentityDetail(uri: string, identifier: string)
    | WebhookDetail(url: string)
    | OriginsDetail(origins: seq<string>)
    | ModeDetail(mode: string)
    | CountDetail(count: nat)
    | EvidenceDetail(evidenceId: string, filename: string)
    | RawDetail(raw: string)

  datatype AuditEntry = AuditEntry(id: string, actor: string, clientId: string, action: Action, detail: Detail)

  datatype DeletionRequest = DeletionRequest(
    id: string, clientId: string, sessionId: string, attributeNames: seq<string>)

  datatype ApiKey = ApiKey(prefix: string, secretHash: string)

  datatype Error = NotFound | Invalid | IllegalTransition | AuditInvalid | Internal | Panic

  datatype Outcome = Ok(id: string) | Err(error: Error)

  const DONE := Ok("")

  datatype State = State(
    clients: map<string, Client>,
    uses: map<string, map<string, Row>>,
    order: map<string, seq<string>>,
    evidence: map<string, EvidenceRow>,
    auditLog: seq<AuditEntry>,
    deletions: map<string, seq<DeletionRequest>>,
    keys: map<string, seq<ApiKey>>,
    number: nat)

  const EMPTY := State(map[], map[], map[], map[], [], map[], map[], 0)

  // ---- The lifecycle matrix ----

  predicate Legal(from: Status, to: Status) {
    match from
    case Draft => to == EvidenceSubmitted
    case EvidenceSubmitted => to == FiledWithRegistrar
    case FiledWithRegistrar => to == Registered
    case Registered => to == Active
    case Active => to == Suspended || to == Offboarded
    case Suspended => to == Active || to == Offboarded
    case _ => false
  }

  // ---- Writes ----

  function StoredDetail(d: Detail): Detail {
    if d.RawDetail? && d.raw == "" then EmptyObject else d
  }

  function Audit(s: State, actor: string, client: string, action: Action, detail: Detail): State {
    s.(auditLog := s.auditLog + [AuditEntry(MintedId(s.number + 1), actor, client, action, StoredDetail(detail))],
       number := s.number + 1)
  }

  function Transition(s: State, client: string, to: Status, actor: string, evidenceRef: string, reason: string)
    : (State, Outcome)
  {
    if client !in s.clients then (s, Err(NotFound))
    else
      var c := s.clients[client];
      if !Legal(c.status, to) then (s, Err(IllegalTransition))
      else
        (Audit(s.(clients := s.clients[client := c.(status := to)]), actor, client, ClientTransition,
               TransitionDetail(c.status, to, evidenceRef, reason)), DONE)
  }

  const INITIAL_POLICY := Parsed(Object(map[]))

  function NewClient(t: TextRules, id: string, name: string, email: string): Client {
    Client(id, name, Draft, "", "", "", [], INITIAL_POLICY, Slugify(t, name, id), NoDocument,
           if email == "" then [] else [email])
  }

  function CreateDraft(t: TextRules, s: State, name: string, email: string, actor: string): (State, Outcome) {
    var id := MintedId(s.number + 1);
    var s' := s.(clients := s.clients[id := NewClient(t, id, name, email)], number := s.number + 1);
    (Audit(s', actor, id, ClientCreate, NameDetail(name)), Ok(id))
  }

  /** Writes one client's row and audits it; the shape every single-field setter has. */
  function UpdateClient(s: State, client: string, row: Client, actor: string, action: Action, detail: Detail)
    : (State, Outcome)
  {
    (Audit(s.(clients := s.clients[client := row]), actor, client, action, detail), DONE)
  }

  function SetRegistrarIdentity(s: State, client: string, uri: string, identifier: string, actor: string)
    : (State, Outcome)
  {
    if client !in s.clients then (s, Err(NotFound))
    else UpdateClient(s, client, s.clients[client].(registryUri := uri, clientIdentifier := identifier), actor,
                      ClientSetRegistrarIdentity, IdentityDetail(uri, identifier))
  }

  predicate IsSpaceByte(c: char) {
    c == ' ' || c == '\t' || c == '\n' || c == '\r' || c == '\U{000C}'
  }

  const HTTPS := "https://"

  predicate MatchesWebhook(url: string) {
    HTTPS < url && forall i :: |HTTPS| <= i < |url| ==> !IsSpaceByte(url[i])
  }

  predicate MatchesWebOrigin(origin: string) {
    && HTTPS < origin
    && forall i :: |HTTPS| <= i < |origin| ==> !IsSpaceByte(origin[i]) && origin[i] !in "/?#@"
  }

  function SetWebhook(s: State, client: string, url: string, actor: string): (State, Outcome) {
    if !MatchesWebhook(url) then (s, Err(Invalid))
    else if client !in s.clients then (s, Err(NotFound))
    else UpdateClient(s, client, s.clients[client].(webhook := url), actor, ClientSetWebhook, WebhookDetail(url))
  }

  const MAX_ORIGINS: nat := 20

  function SetAllowedOrigins(s: State, client: string, origins: seq<string>, actor: string): (State, Outcome) {
    if |origins| > MAX_ORIGINS || exists i :: 0 <= i < |origins| && !MatchesWebOrigin(origins[i]) then
      (s, Err(Invalid))
    else if client !in s.clients then (s, Err(NotFound))
    else UpdateClient(s, client, s.clients[client].(allowedOrigins := origins), actor,
                      ClientSetAllowedOrigins, OriginsDetail(origins))
  }

  const SIGNED := "signed"
  const UNSIGNED := "unsigned"
  const SIGNED_FLAG := "require_signed_dcapi"

  /**
    The merge of the flag into a stored policy. JSON null decodes into a nil map, and
    writing to a nil map panics.
   */
  function MergeMode(policy: RawJson, mode: string): (RawJson, Outcome) {
    var flag := Bool(mode == SIGNED);
    match policy
    case NoText => (Parsed(Object(map[SIGNED_FLAG := flag])), DONE)
    case Parsed(Object(fields)) => (Parsed(Object(fields[SIGNED_FLAG := flag])), DONE)
    case Parsed(Null) => (policy, Err(Panic))
    case _ => (policy, Err(Internal))
  }

  /** The mode a stored policy expresses; anything unreadable or undecided is signed. */
  function StoredMode(policy: RawJson): string {
    match policy
    case Parsed(Object(fields)) =>
      if SIGNED_FLAG in fields && fields[SIGNED_FLAG] == Bool(false) then UNSIGNED else SIGNED
    case _ => SIGNED
  }

  function SetDcapiMode(s: State, client: string, mode: string, actor: string): (State, Outcome) {
    if mode != SIGNED && mode != UNSIGNED then (s, Err(Invalid))
    else if client !in s.clients then (s, Err(NotFound))
    else
      var (policy, outcome) := MergeMode(s.clients[client].policy, mode);
      if outcome.Err? then (s, outcome)
      else UpdateClient(s, client, s.clients[client].(policy := policy), actor, ClientSetDcapiMode, ModeDetail(mode))
  }

  function KeysOf(s: State, client: string): seq<ApiKey> {
    if client in s.keys then s.keys[client] else []
  }

  function CreateApiKey(s: State, client: string, prefix: string, secretHash: string): (State, Outcome) {
    if client !in s.clients then (s, Err(NotFound))
    else (s.(keys := s.keys[client := KeysOf(s, client) + [ApiKey(prefix, secretHash)]]), DONE)
  }

  function TableAt(uses: map<string, map<string, Row>>, order: map<string, seq<string>>, client: string): Table {
    Table(if client in uses then uses[client] else map[], if client in order then order[client] else [])
  }

  function TableOf(s: State, client: string): Table {
    TableAt(s.uses, s.order, client)
  }

  function ReplaceUses(s: State, client: string, uses: seq<Row>): State {
    var (t, n) := Replace(TableOf(s, client), uses, s.number);
    s.(uses := s.uses[client := t.rows], order := s.order[client := t.order], number := n)
  }

  function SaveDocument(s: State, client: string, document: StoredDocument, uses: seq<Row>, actor: string)
    : (State, Outcome)
  {
    if client !in s.clients then (s, Err(NotFound))
    else if !KeysPresent(uses) then (s, Err(Invalid))
    else
      var saved := s.(clients := s.clients[client := s.clients[client].(document := document)]);
      (Audit(ReplaceUses(saved, client, uses), actor, client, ClientSaveWrpDocument, CountDetail(|uses|)), DONE)
  }

  function SetUses(s: State, client: string, uses: seq<Row>, actor: string): (State, Outcome) {
    if client !in s.clients then (s, Err(NotFound))
    else if !KeysPresent(uses) then (s, Err(Invalid))
    else (Audit(ReplaceUses(s, client, uses), actor, client, ClientSetIntendedUses, CountDetail(|uses|)), DONE)
  }

  function AddEvidence(s: State, client: string, meta: Evidence, content: seq<byte>, actor: string)
    : (State, Outcome)
  {
    if client !in s.clients then (s, Err(NotFound))
    else
      var id := MintedId(s.number + 1);
      var s' := s.(evidence := s.evidence[id := EvidenceRow(meta.(id := id), client, content)], number := s.number + 1);
      (Audit(s', actor, client, EvidenceAdd, EvidenceDetail(id, meta.filename)), Ok(id))
  }

  function AppendAudit(s: State, actor: string, client: string, action: Action, detail: Detail): (State, Outcome) {
    if actor == "" || (action.OtherAction? && action.raw == "") then (s, Err(AuditInvalid))
    else (Audit(s, actor, client, action, detail), DONE)
  }

  function DeletionsOf(s: State, client: string): seq<DeletionRequest> {
    if client in s.deletions then s.deletions[client] else []
  }

  function LogDeletion(s: State, client: string, session: string, names: seq<string>): (State, Outcome) {
    if client == "" || session == "" then (s, Err(AuditInvalid))
    else
      var id := MintedId(s.number + 1);
      var row := DeletionRequest(id, client, session, names);
      (s.(deletions := s.deletions[client := DeletionsOf(s, client) + [row]], number := s.number + 1), Ok(id))
  }

  function Purged(evidence: map<string, EvidenceRow>, client: string): map<string, EvidenceRow> {
    map e | e in evidence ::
      if evidence[e].clientId == client then evidence[e].(content := []) else evidence[e]
  }

  function Purge(s: State, client: string, actor: string): (State, Outcome) {
    if client !in s.clients then (s, Err(NotFound))
    else if s.clients[client].status != Offboarded then (s, Err(Invalid))
    else (Audit(s.(evidence := Purged(s.evidence, client)), actor, client, ClientPurge, EmptyObject), DONE)
  }

  predicate IsPurgeEntry(e: AuditEntry, client: string) {
    e.clientId == client && e.action == ClientPurge
  }

  // ---- Calls and runs ----

  datatype Call =
    | CreateDraftClient(name: string, email: string, actor: string)
    | TransitionClient(client: string, to: Status, actor: string, evidenceRef: string, reason: string)
    | SetClientRegistrarIdentity(client: string, uri: string, identifier: string, actor: string)
    | SetClientWebhook(client: string, url: string, actor: string)
    | SetClientAllowedOrigins(client: string, origins: seq<string>, actor: string)
    | SetClientDcapiMode(client: string, mode: string, actor: string)
    | CreateKey(client: string, prefix: string, secretHash: string)
    | SaveWrpDocument(client: string, document: StoredDocument, uses: seq<Row>, actor: string)
    | SetIntendedUses(client: string, uses: seq<Row>, actor: string)
    | AddEvidenceRow(client: string, meta: Evidence, content: seq<byte>, actor: string)
    | AppendAuditEntry(client: string, action: Action, detail: Detail, actor: string)
    | LogDeletionRequest(client: string, session: string, names: seq<string>)
    | PurgeOffboarded(client: string, actor: string)

  function Apply(t: TextRules, s: State, call: Call): (State, Outcome) {
    match call
    case CreateDraftClient(name, email, actor) => CreateDraft(t, s, name, email, actor)
    case TransitionClient(client, to, actor, evidenceRef, reason) =>
      Transition(s, client, to, actor, evidenceRef, reason)
    case SetClientRegistrarIdentity(client, uri, identifier, actor) =>
      SetRegistrarIdentity(s, client, uri, identifier, actor)
    case SetClientWebhook(client, url, actor) => SetWebhook(s, client, url, actor)
    case SetClientAllowedOrigins(client, origins, actor) => SetAllowedOrigins(s, client, origins, actor)
    case SetClientDcapiMode(client, mode, actor) => SetDcapiMode(s, client, mode, actor)
    case CreateKey(client, prefix, secretHash) => CreateApiKey(s, client, prefix, secretHash)
    case SaveWrpDocument(client, document, uses, actor) => SaveDocument(s, client, document, uses, actor)
    case SetIntendedUses(client, uses, actor) => SetUses(s, client, uses, actor)
    case AddEvidenceRow(client, meta, content, actor) => AddEvidence(s, client, meta, content, actor)
    case AppendAuditEntry(client, action, detail, actor) => AppendAudit(s, actor, client, action, detail)
    case LogDeletionRequest(client, session, names) => LogDeletion(s, client, session, names)
    case PurgeOffboarded(client, actor) => Purge(s, client, actor)
  }

  function Run(t: TextRules, calls: seq<Call>): State {
    if calls == [] then EMPTY else Apply(t, Run(t, calls[..|calls| - 1]), calls[|calls| - 1]).0
  }

  // ---- Reads ----

  function UsesOf(s: State, client: string): seq<Row> {
    Listing(TableOf(s, client))
  }

  function EntriesOf(log: seq<AuditEntry>, client: string): seq<AuditEntry> {
    if log == [] then []
    else
      var before := EntriesOf(log[..|log| - 1], client);
      if log[|log| - 1].clientId == client then before + [log[|log| - 1]] else before
  }

  /** The last rows first, at most limit of them; none for a limit below one. */
  function Newest<T>(rows: seq<T>, limit: int): (r: seq<T>)
  {
    var n := if limit < 0 then 0 else if limit < |rows| then limit else |rows|;
    seq(n, i requires 0 <= i < n => rows[|rows| - 1 - i])
  }

  function EvidenceOf(s: State, client: string): map<string, EvidenceRow> {
    map e | e in s.evidence && s.evidence[e].clientId == client :: s.evidence[e]
  }

  /** Everything the client-scoped reads can show about one client. */
  datatype View = View(
    detail: Option<Client>,
    uses: seq<Row>,
    evidence: map<string, EvidenceRow>,
    audit: seq<AuditEntry>,
    deletions: seq<DeletionRequest>,
    keys: seq<ApiKey>)

  function ViewOf(s: State, client: string): View {
    View(if client in s.clients then Some(s.clients[client]) else None,
         UsesOf(s, client), EvidenceOf(s, client), EntriesOf(s.auditLog, client), DeletionsOf(s, client),
         KeysOf(s, client))
  }
}
