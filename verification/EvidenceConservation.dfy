/** Evidence over runs: bytes survive until a purge of their client, metadata for ever. */
module EvidenceConservation {
  import opened Ids
  import opened IntendedUses
  import opened Registry
  import opened RegistryInvariants
  import opened Slugs
  import opened Values

  /** Every evidence row as it was when added. */
  function Added(t: TextRules, calls: seq<Call>): map<string, EvidenceRow> {
    if calls == [] then map[]
    else
      var front, last := calls[..|calls| - 1], calls[|calls| - 1];
      var outcome := Apply(t, Run(t, front), last).1;
      if last.AddEvidenceRow? && outcome.Ok? then
        Added(t, front)[outcome.id := EvidenceRow(last.meta.(id := outcome.id), last.client, last.content)]
      else Added(t, front)
  }

  predicate IsAddOf(e: AuditEntry, id: string) {
    e.action == EvidenceAdd && e.detail.EvidenceDetail? && e.detail.evidenceId == id
  }

  predicate RecordedAdd(log: seq<AuditEntry>, id: string) {
    exists i :: 0 <= i < |log| && IsAddOf(log[i], id)
  }

  /** A purge of the client follows the entry that records the row's addition. */
  predicate PurgedSince(log: seq<AuditEntry>, id: string, client: string) {
    exists i, j :: 0 <= i < j < |log| && IsAddOf(log[i], id) && IsPurgeEntry(log[j], client)
  }

  /** The free-form append does not pose as the store's own evidence or purge entries. */
  predicate HonestEvidence(call: Call) {
    call.AppendAuditEntry? ==> call.action != EvidenceAdd && call.action != ClientPurge
  }

  lemma PurgedSinceAppend(log: seq<AuditEntry>, e: AuditEntry, id: string, client: string)
    ensures RecordedAdd(log + [e], id) <==> RecordedAdd(log, id) || IsAddOf(e, id)
    ensures PurgedSince(log + [e], id, client)
       <==> PurgedSince(log, id, client) || (RecordedAdd(log, id) && IsPurgeEntry(e, client))
  {
    var longer := log + [e];
    if i :| 0 <= i < |longer| && IsAddOf(longer[i], id) {
      assert i < |log| ==> log[i] == longer[i];
    }
    if i :| 0 <= i < |log| && IsAddOf(log[i], id) {
      assert longer[i] == log[i] && longer[|log|] == e;
      assert IsPurgeEntry(e, client) ==> IsPurgeEntry(longer[|log|], client);
    }
    if IsAddOf(e, id) {
      assert IsAddOf(longer[|log|], id);
    }
    if i, j :| 0 <= i < j < |longer| && IsAddOf(longer[i], id) && IsPurgeEntry(longer[j], client) {
      assert log[i] == longer[i];
      assert j < |log| ==> log[j] == longer[j];
    }
    if i, j :| 0 <= i < j < |log| && IsAddOf(log[i], id) && IsPurgeEntry(log[j], client) {
      assert longer[i] == log[i] && longer[j] == log[j];
    }
  }

  lemma AppendFacts(log: seq<AuditEntry>, e: AuditEntry)
    ensures forall id :: RecordedAdd(log + [e], id) <==> RecordedAdd(log, id) || IsAddOf(e, id)
    ensures forall id, client :: PurgedSince(log + [e], id, client)
                            <==> PurgedSince(log, id, client) || (RecordedAdd(log, id) && IsPurgeEntry(e, client))
  {
    forall id
      ensures RecordedAdd(log + [e], id) <==> RecordedAdd(log, id) || IsAddOf(e, id)
    {
      PurgedSinceAppend(log, e, id, "");
    }
    forall id, client
      ensures PurgedSince(log + [e], id, client)
         <==> PurgedSince(log, id, client) || (RecordedAdd(log, id) && IsPurgeEntry(e, client))
    {
      PurgedSinceAppend(log, e, id, client);
    }
  }

  /** One stored row against the row as added. */
  ghost predicate RowConserved(row: EvidenceRow, added: EvidenceRow, log: seq<AuditEntry>, id: string) {
    && row.meta == added.meta
    && row.clientId == added.clientId
    && row.content == (if PurgedSince(log, id, added.clientId) then [] else added.content)
  }

  ghost predicate Conserved(
    evidence: map<string, EvidenceRow>, log: seq<AuditEntry>, added: map<string, EvidenceRow>)
  {
    && evidence.Keys == added.Keys
    && (forall id :: id in added ==> RecordedAdd(log, id) && RowConserved(evidence[id], added[id], log, id))
    && (forall id :: RecordedAdd(log, id) ==> id in added)
  }

  lemma AddStep(s: State, added: map<string, EvidenceRow>, client: string, meta: Evidence, content: seq<byte>,
                actor: string)
    requires Valid(s) && Conserved(s.evidence, s.auditLog, added) && client in s.clients
    ensures var (s', outcome) := AddEvidence(s, client, meta, content, actor);
            Conserved(s'.evidence, s'.auditLog,
                      added[outcome.id := EvidenceRow(meta.(id := outcome.id), client, content)])
  {
    hide MintedId, Valid, RecordedAdd, PurgedSince;
    NextIdIsFresh(s);
    var id := MintedId(s.number + 1);
    var row := EvidenceRow(meta.(id := id), client, content);
    var s' := AddEvidence(s, client, meta, content, actor).0;
    var e := AuditEntry(MintedId(s.number + 2), actor, client, EvidenceAdd, EvidenceDetail(id, meta.filename));
    assert s'.auditLog == s.auditLog + [e];
    assert s'.evidence == s.evidence[id := row];
    AppendFacts(s.auditLog, e);
    PurgedNeedsAdd(s.auditLog, id, client);
    RowsAfterAdd(s.evidence, added, s.auditLog, e, id, row);
  }

  lemma RowsAfterAdd(evidence: map<string, EvidenceRow>, added: map<string, EvidenceRow>, log: seq<AuditEntry>,
                     e: AuditEntry, id: string, row: EvidenceRow)
    requires Conserved(evidence, log, added)
    requires id !in added && row.meta.id == id && e.action == EvidenceAdd
    requires e.detail.EvidenceDetail? && e.detail.evidenceId == id
    ensures Conserved(evidence[id := row], log + [e], added[id := row])
  {
    hide RecordedAdd, PurgedSince;
    AppendFacts(log, e);
    PurgedNeedsAdd(log, id, row.clientId);
  }

  lemma PurgedNeedsAdd(log: seq<AuditEntry>, id: string, client: string)
    ensures PurgedSince(log, id, client) ==> RecordedAdd(log, id)
  {
  }

  lemma PurgeStep(s: State, added: map<string, EvidenceRow>, client: string, actor: string)
    requires Conserved(s.evidence, s.auditLog, added)
    ensures var s' := Purge(s, client, actor).0;
            Conserved(s'.evidence, s'.auditLog, added)
  {
    hide MintedId, RecordedAdd, PurgedSince;
    var (s', outcome) := Purge(s, client, actor);
    if outcome.Ok? {
      var e := s'.auditLog[|s.auditLog|];
      assert s'.auditLog == s.auditLog + [e];
      AppendFacts(s.auditLog, e);
    }
  }

  lemma OtherStep(t: TextRules, s: State, added: map<string, EvidenceRow>, call: Call)
    requires Conserved(s.evidence, s.auditLog, added) && HonestEvidence(call)
    requires !call.AddEvidenceRow? && !call.PurgeOffboarded?
    ensures var s' := Apply(t, s, call).0;
            Conserved(s'.evidence, s'.auditLog, added)
  {
    hide Apply, MintedId, RecordedAdd, PurgedSince;
    LogStep(t, s, call);
    EvidenceUntouched(t, s, call);
    var s' := Apply(t, s, call).0;
    if s'.auditLog != s.auditLog {
      var e := s'.auditLog[|s.auditLog|];
      assert s'.auditLog == s.auditLog + [e];
      AppendFacts(s.auditLog, e);
    }
  }

  lemma EvidenceUntouched(t: TextRules, s: State, call: Call)
    requires !call.AddEvidenceRow? && !call.PurgeOffboarded?
    ensures Apply(t, s, call).0.evidence == s.evidence
  {
    hide MintedId, NewClient, Replace;
    if IsSetter(call) {
      SetterShape(t, s, call);
    }
  }

  /**
    Main result: in every run each evidence row keeps its metadata and owner, and its
    content is the bytes first added unless a purge of its client follows its addition in
    the log, and is empty after one.
   */
  lemma {:induction false} EvidenceIsConserved(t: TextRules, calls: seq<Call>)
    requires forall i :: 0 <= i < |calls| ==> HonestEvidence(calls[i])
    ensures Conserved(Run(t, calls).evidence, Run(t, calls).auditLog, Added(t, calls))
  {
    hide Apply, Conserved, Valid;
    if calls == [] {
      NothingAdded();
    } else {
      var front, last := calls[..|calls| - 1], calls[|calls| - 1];
      EvidenceIsConserved(t, front);
      RunIsValid(t, front);
      EvidenceStep(t, Run(t, front), Added(t, front), last);
    }
  }

  lemma NothingAdded()
    ensures Conserved(EMPTY.evidence, EMPTY.auditLog, map[])
  {
  }

  lemma EvidenceStep(t: TextRules, s: State, added: map<string, EvidenceRow>, call: Call)
    requires Valid(s) && Conserved(s.evidence, s.auditLog, added) && HonestEvidence(call)
    ensures var (s', outcome) := Apply(t, s, call);
            Conserved(s'.evidence, s'.auditLog,
                      if call.AddEvidenceRow? && outcome.Ok? then
                        added[outcome.id := EvidenceRow(call.meta.(id := outcome.id), call.client, call.content)]
                      else added)
  {
    hide Conserved, Valid, Purge, MintedId;
    if call.AddEvidenceRow? {
      if call.client in s.clients {
        AddStep(s, added, call.client, call.meta, call.content, call.actor);
      }
    } else if call.PurgeOffboarded? {
      PurgeStep(s, added, call.client, call.actor);
    } else {
      OtherStep(t, s, added, call);
    }
  }
}
