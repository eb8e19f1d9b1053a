/**
  The lifecycle service: activation preconditions before the store's own transition, and
  the purge after a flip to offboarded. It may tighten the store's verdict, never loosen it.
 */
module Lifecycle {
  import opened FakeStore
  import opened Ids
  import opened IntendedUses
  import opened Registry

  /** Absolute-https checking of a URL, and the external registration check. */
  datatype Checks = Checks(isHttps: string -> bool, ts5Ok: string -> bool)

  datatype Failure =
    | StoreError(error: Error)
    | RegistrarIdentityRequired
    | IntendedUseRequired
    | Ts5CheckFailed
    | PurgeFault

  datatype Result = Done | Failed(failure: Failure)

  predicate HasIdentity(checks: Checks, row: Client) {
    row.clientIdentifier != "" && checks.isHttps(row.registryUri)
  }

  predicate AnyNonRevoked(rows: seq<Row>) {
    exists i :: 0 <= i < |rows| && rows[i].revokedAt == ""
  }

  /** What an active client needs: a registrar identity and a use that is not revoked. */
  predicate Ready(checks: Checks, s: State, client: string) {
    && client in s.clients
    && HasIdentity(checks, s.clients[client])
    && AnyNonRevoked(UsesOf(s, client))
  }

  function CheckActivation(checks: Checks, s: State, row: Client, client: string): Result {
    if !HasIdentity(checks, row) then Failed(RegistrarIdentityRequired)
    else if !AnyNonRevoked(UsesOf(s, client)) then Failed(IntendedUseRequired)
    else if !checks.ts5Ok(client) then Failed(Ts5CheckFailed)
    else Done
  }

  function PurgeWith(s: State, client: string, actor: string, purgeFails: bool): (State, Result) {
    if purgeFails then (s, Failed(PurgeFault))
    else
      var (s', outcome) := Purge(s, client, actor);
      (s', if outcome.Ok? then Done else Failed(StoreError(outcome.error)))
  }

  function FlipAndPurge(s: State, client: string, to: Status, actor: string, evidenceRef: string, reason: string,
                        purgeFails: bool): (State, Result)
  {
    var (s', outcome) := Transition(s, client, to, actor, evidenceRef, reason);
    if outcome.Err? then (s', Failed(StoreError(outcome.error)))
    else if to == Offboarded then PurgeWith(s', client, actor, purgeFails)
    else (s', Done)
  }

  /** One call, start to end with nothing in between; purgeFails injects a fault into its purge. */
  function ServiceTransition(checks: Checks, s: State, client: string, to: Status, actor: string,
                             evidenceRef: string, reason: string, purgeFails: bool): (State, Result)
  {
    if to != Active && to != Offboarded then FlipAndPurge(s, client, to, actor, evidenceRef, reason, purgeFails)
    else if client !in s.clients then (s, Failed(StoreError(NotFound)))
    else
      var current := s.clients[client];
      var checked := if to == Active && (current.status == Registered || current.status == Suspended)
                     then CheckActivation(checks, s, current, client) else Done;
      if checked.Failed? then (s, checked)
      else if to == Offboarded && current.status == Offboarded then PurgeWith(s, client, actor, purgeFails)
      else FlipAndPurge(s, client, to, actor, evidenceRef, reason, purgeFails)
  }

  class Service {
    const store: Fake
    const checks: Checks

    constructor (store: Fake, isHttps: string -> bool)
      ensures this.store == store
      ensures checks.isHttps == isHttps && forall client :: checks.ts5Ok(client)
    {
      this.store := store;
      this.checks := Checks(isHttps, _ => true);
    }

    constructor WithChecks(store: Fake, checks: Checks)
      ensures this.store == store && this.checks == checks
    {
      this.store := store;
      this.checks := checks;
    }

    method Transition(client: string, to: Status, actor: string, evidenceRef: string, reason: string, purgeFails: bool)
      returns (result: Result)
      modifies store
      ensures (store.Value(), result)
           == ServiceTransition(checks, old(store.Value()), client, to, actor, evidenceRef, reason, purgeFails)
    {
      hide MintedId, Listing, Registry.Transition, Purge, HasIdentity, AnyNonRevoked;
      if to == Active || to == Offboarded {
        var current := store.GetClientFull(client);
        if current.None? {
          return Failed(StoreError(NotFound));
        }
        if to == Active && (current.value.status == Registered || current.value.status == Suspended) {
          var checked := CheckActivationPreconditions(current.value, client);
          if checked.Failed? {
            return checked;
          }
        }
        if to == Offboarded && current.value.status == Offboarded {
          result := RunPurge(client, actor, purgeFails);
          return;
        }
      }
      var flipped := store.TransitionClient(client, to, actor, evidenceRef, reason);
      if flipped.Err? {
        return Failed(StoreError(flipped.error));
      }
      if to == Offboarded {
        result := RunPurge(client, actor, purgeFails);
        return;
      }
      return Done;
    }

    method RunPurge(client: string, actor: string, purgeFails: bool) returns (result: Result)
      modifies store
      ensures (store.Value(), result) == PurgeWith(old(store.Value()), client, actor, purgeFails)
    {
      hide MintedId, Purge;
      if purgeFails {
        return Failed(PurgeFault);
      }
      var outcome := store.PurgeOffboarded(client, actor);
      return if outcome.Ok? then Done else Failed(StoreError(outcome.error));
    }

    method CheckActivationPreconditions(row: Client, client: string) returns (result: Result)
      ensures result == CheckActivation(checks, store.Value(), row, client)
    {
      hide AnyNonRevoked, Listing;
      if row.clientIdentifier == "" || !checks.isHttps(row.registryUri) {
        return Failed(RegistrarIdentityRequired);
      }
      var uses := store.ListIntendedUses(client);
      var any := FindNonRevoked(uses);
      if !any {
        return Failed(IntendedUseRequired);
      }
      if !checks.ts5Ok(client) {
        return Failed(Ts5CheckFailed);
      }
      return Done;
    }

    static method FindNonRevoked(rows: seq<Row>) returns (found: bool)
      ensures found <==> AnyNonRevoked(rows)
    {
      for i := 0 to |rows|
        invariant forall j :: 0 <= j < i ==> rows[j].revokedAt != ""
      {
        if rows[i].revokedAt == "" {
          return true;
        }
      }
      return false;
    }
  }

  // ---- The wrapper only tightens the store ----

  /** The calls that may succeed: legal edges, activation only when ready, and the offboarded retry. */
  predicate Permitted(checks: Checks, s: State, client: string, to: Status) {
    && client in s.clients
    && var from := s.clients[client].status;
       || (Legal(from, to) && (to == Active ==> Ready(checks, s, client) && checks.ts5Ok(client)))
       || (from == Offboarded && to == Offboarded)
  }

  /**
    Without a purge fault: success exactly when permitted, with the status at the target;
    any failure leaves the whole state as it was.
   */
  lemma TransitionIsExact(checks: Checks, s: State, client: string, to: Status, actor: string, evidenceRef: string,
                          reason: string)
    ensures var (s', result) := ServiceTransition(checks, s, client, to, actor, evidenceRef, reason, false);
            && (result == Done <==> Permitted(checks, s, client, to))
            && (result == Done ==> client in s'.clients && s'.clients[client].status == to)
            && (result != Done ==> s' == s)
  {
    hide MintedId, Listing, AnyNonRevoked, HasIdentity, Purged;
  }

  /** Success means the target was reached, whether or not a purge would have failed. */
  lemma DoneReachesTarget(checks: Checks, s: State, client: string, to: Status, actor: string, evidenceRef: string,
                          reason: string, purgeFails: bool)
    ensures var (s', result) := ServiceTransition(checks, s, client, to, actor, evidenceRef, reason, purgeFails);
            result == Done ==> client in s'.clients && s'.clients[client].status == to
  {
    hide MintedId, Listing, AnyNonRevoked, HasIdentity, Purged;
  }

  /** Which failure it is: each one exactly when its own condition is the first to fail. */
  lemma RefusalIsExact(checks: Checks, s: State, client: string, to: Status, actor: string, evidenceRef: string,
                       reason: string)
    requires client in s.clients
    ensures var from := s.clients[client].status;
            var activating := Legal(from, to) && to == Active;
            var identified := HasIdentity(checks, s.clients[client]);
            var result := ServiceTransition(checks, s, client, to, actor, evidenceRef, reason, false).1;
            && (result == Failed(RegistrarIdentityRequired) <==> activating && !identified)
            && (result == Failed(IntendedUseRequired) <==>
                activating && identified && !AnyNonRevoked(UsesOf(s, client)))
            && (result == Failed(Ts5CheckFailed) <==> activating && Ready(checks, s, client) && !checks.ts5Ok(client))
            && (result == Failed(StoreError(IllegalTransition)) <==>
                !Legal(from, to) && !(from == Offboarded && to == Offboarded))
            && (result.Failed? && result.failure.StoreError? ==> result.failure.error == IllegalTransition)
  {
    hide MintedId, Listing, AnyNonRevoked, HasIdentity, Purged;
  }

  lemma UnknownClientIsNotFound(checks: Checks, s: State, client: string, to: Status, actor: string,
                                evidenceRef: string, reason: string, purgeFails: bool)
    ensures var result := ServiceTransition(checks, s, client, to, actor, evidenceRef, reason, purgeFails).1;
            result == Failed(StoreError(NotFound)) <==> client !in s.clients
  {
    hide MintedId, Listing, AnyNonRevoked, HasIdentity, Purged;
  }

  /** On an edge the store refuses, the caller sees the store's own verdict, except the offboarded retry. */
  lemma IllegalEdgesGetTheStoresVerdict(checks: Checks, s: State, client: string, to: Status, actor: string,
                                        evidenceRef: string, reason: string, purgeFails: bool)
    requires client in s.clients && !Legal(s.clients[client].status, to)
    requires !(s.clients[client].status == Offboarded && to == Offboarded)
    ensures var store := Transition(s, client, to, actor, evidenceRef, reason);
            && store == (s, Err(IllegalTransition))
            && ServiceTransition(checks, s, client, to, actor, evidenceRef, reason, purgeFails)
                 == (s, Failed(StoreError(IllegalTransition)))
  {
    hide MintedId, Listing, AnyNonRevoked, HasIdentity;
  }

  /** A successful call to offboarded, first or repeated, ends with a purge of the client's evidence. */
  lemma OffboardingPurges(checks: Checks, s: State, client: string, actor: string, evidenceRef: string, reason: string)
    ensures var (s', result) := ServiceTransition(checks, s, client, Offboarded, actor, evidenceRef, reason, false);
            result == Done ==>
              && |s'.auditLog| > |s.auditLog|
              && IsPurgeEntry(s'.auditLog[|s'.auditLog| - 1], client)
              && forall e :: e in s'.evidence && s'.evidence[e].clientId == client ==> s'.evidence[e].content == []
  {
    hide MintedId, Purge, Listing, HasIdentity, AnyNonRevoked;
    PurgeEmpties(s, client, actor);
    PurgeEmpties(Transition(s, client, Offboarded, actor, evidenceRef, reason).0, client, actor);
  }

  lemma PurgeEmpties(s: State, client: string, actor: string)
    ensures var (s', outcome) := Purge(s, client, actor);
            outcome.Ok? ==>
              && |s'.auditLog| == |s.auditLog| + 1
              && IsPurgeEntry(s'.auditLog[|s.auditLog|], client)
              && forall e :: e in s'.evidence && s'.evidence[e].clientId == client ==> s'.evidence[e].content == []
  {
    hide MintedId;
  }

  /**
    A purge fault after the flip: the flip stands, the caller is told, and repeating the
    call purges without a second flip.
   */
  lemma FaultedOffboardingCanBeRetried(checks: Checks, s: State, client: string, actor: string, evidenceRef: string,
                                       reason: string)
    requires Permitted(checks, s, client, Offboarded)
    ensures var (s1, r1) := ServiceTransition(checks, s, client, Offboarded, actor, evidenceRef, reason, true);
            var (s2, r2) := ServiceTransition(checks, s1, client, Offboarded, actor, evidenceRef, reason, false);
            && r1 == Failed(PurgeFault)
            && client in s1.clients && s1.clients[client].status == Offboarded
            && s1.evidence == s.evidence
            && r2 == Done
            && s2.clients == s1.clients
            && s2.auditLog == s1.auditLog + [AuditEntry(MintedId(s2.number), actor, client, ClientPurge, EmptyObject)]
  {
    hide MintedId, Purged;
  }
}
