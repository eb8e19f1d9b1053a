/** What a session may ask of a wallet is what the client last registered, over whole runs. */
module RegisteredScope {
  import opened Api
  import opened ApiRuns
  import opened ApiSafety
  import opened IntendedUses
  import opened Lifecycle
  import opened Registry
  import opened RegistryInvariants
  import opened UseHistories
  import opened Values
  import opened WizardForms
  import opened WizardScope

  predicate Registers(env: Env, w: World, req: Request, client: string) {
    req.SetRegistration? && req.client == client && Serve(env, w.store, w.drawn, req).1 == Success
  }

  /** The last registration request of the client that was answered with success. */
  function LastRegistered(env: Env, reqs: seq<Request>, client: string): Option<RegistrationRequest> {
    if reqs == [] then None
    else
      var front, last := reqs[..|reqs| - 1], reqs[|reqs| - 1];
      if Registers(env, HandleAll(env, front), last, client) then Some(last.body)
      else LastRegistered(env, front, client)
  }

  /** A listed use stands for a requested one: its purpose, and credential by credential its scope. */
  ghost predicate Enforces(r: Row, u: ApiIntendedUse) {
    && r.purpose == PurposeOf(u.purpose)
    && r.revokedAt == ""
    && |r.credentials| == |u.credentials|
    && forall j, format, kind, path :: 0 <= j < |u.credentials| ==>
         (ProjectionAuthorises(r.credentials[j], format, kind, path)
          <==> FormAuthorises(u.credentials[j], format, kind, path))
  }

  ghost predicate EnforcesAll(listed: seq<Row>, body: Option<RegistrationRequest>) {
    match body
    case None => listed == []
    case Some(b) =>
      |listed| == |b.intendedUses| && forall i :: 0 <= i < |listed| ==> Enforces(listed[i], b.intendedUses[i])
  }

  lemma UseProjectionEnforces(u: ApiIntendedUse, id: string, r: Row)
    requires GoodCredentials(UseFormOf(u).credentials)
    requires r.(id := "") == UseProjection(UseFormOf(u), id)
    ensures Enforces(r, u)
  {
    hide ProjectionAuthorises, FormAuthorises, CredentialProjection, FirstCredentialError;
    assert r.(id := "").purpose == r.purpose && r.(id := "").credentials == r.credentials;
    assert r.(id := "").revokedAt == r.revokedAt;
    forall j, format, kind, path | 0 <= j < |u.credentials|
      ensures ProjectionAuthorises(r.credentials[j], format, kind, path)
         <==> FormAuthorises(u.credentials[j], format, kind, path)
    {
      CredentialScopePreserved(u.credentials[j], format, kind, path);
    }
  }

  /** What the builder hands over for a request. */
  lemma IssuedProjections(env: Env, drawn: nat, req: Request)
    requires req.SetRegistration? && Prepare(env, drawn, req).Issue?
    ensures var call := Prepare(env, drawn, req).call;
            && call.SaveWrpDocument? && call.client == req.client
            && |call.uses| == |req.body.intendedUses|
            && forall i :: 0 <= i < |call.uses| ==>
                 && GoodCredentials(UseFormOf(req.body.intendedUses[i]).credentials)
                 && call.uses[i] == UseProjection(UseFormOf(req.body.intendedUses[i]), PendingId(env.ulids, drawn, i))
  {
    hide FirstBadUse, UseFormOf, UseProjection, HeaderError;
    var us := FormOf(req.body).intendedUses;
    NoErrorMeansGoodUses(env.checks.isHttps, us, 0);
    forall i | 0 <= i < |us|
      ensures us[i] == UseFormOf(req.body.intendedUses[i]) && GoodCredentials(us[i].credentials)
    {
    }
  }

  lemma RegisteringIssues(env: Env, w: World, req: Request)
    requires req.SetRegistration? && Registers(env, w, req, req.client)
    ensures Prepare(env, w.drawn, req).Issue?
    ensures Apply(env.text, w.store, Prepare(env, w.drawn, req).call).1.Ok?
  {
    hide Apply, Build, FormOf;
  }

  lemma RegistrationEnforces(env: Env, w: World, req: Request)
    requires FreshUlids(env) && Good(env, w) && Agreeing(env, w)
    requires req.SetRegistration? && Registers(env, w, req, req.client)
    ensures EnforcesAll(UsesOf(Handle(env, w, req).store, req.client), Some(req.body))
  {
    hide Apply, Valid, Run, Clean, Replace, Listing, Prepare, FromBuilder, FreshUlids, Agrees, Enforces, UseProjection,
         UseFormOf, UsesLive, GoodCredentials, DrawnBy;
    RegisteringIssues(env, w, req);
    var client, call := req.client, Prepare(env, w.drawn, req).call;
    IssuedProjections(env, w.drawn, req);
    RegistrationComesFromBuilder(env, w.drawn, req);
    BuilderKeys(env, call, w.drawn, DrawnAfter(env, w.drawn, req) - w.drawn);
    assert ClientGood(env, w.store, client, w.drawn);
    ReplacingCall(env.text, w.store, call);
    ProjectionKeysAreNew(env, w.store, client, w.drawn, call.uses);
    TableIsConsistent(w.store, client);
    FreshReplaceListing(TableOf(w.store, client), call.uses, w.store.number);
    var listed := UsesOf(Handle(env, w, req).store, client);
    forall i | 0 <= i < |listed|
      ensures Enforces(listed[i], req.body.intendedUses[i])
    {
      ProjectionHasNoRowId(UseFormOf(req.body.intendedUses[i]), PendingId(env.ulids, w.drawn, i));
      UseProjectionEnforces(req.body.intendedUses[i], PendingId(env.ulids, w.drawn, i), listed[i]);
    }
  }

  lemma ProjectionHasNoRowId(u: IntendedUseForm, id: string)
    ensures UseProjection(u, id).(id := "") == UseProjection(u, id)
  {
  }

  lemma BuilderKeys(env: Env, call: Call, drawn: nat, count: nat)
    requires FromBuilder(env, call, drawn, count)
    ensures forall i :: 0 <= i < |call.uses| ==> call.uses[i].intendedUseId == PendingId(env.ulids, drawn, i)
  {
    hide SameUse;
  }

  lemma IssueKeepsListing(env: Env, w: World, call: Call, drawn: nat, client: string)
    requires Replaces(call, client) ==> Apply(env.text, w.store, call).1.Err?
    ensures UsesOf(Issued(env, w, call, drawn).store, client) == UsesOf(w.store, client)
  {
    hide Apply, Listing;
    if Replaces(call, client) {
      LogStep(env.text, w.store, call);
    } else {
      OtherCallsKeepTable(env.text, w.store, call, client);
    }
  }

  lemma OtherRequestKeepsListing(env: Env, w: World, req: Request, client: string)
    requires !Registers(env, w, req, client)
    ensures UsesOf(Handle(env, w, req).store, client) == UsesOf(w.store, client)
  {
    hide Apply, Listing, Issued, Build, FormOf, DrawnBy;
    if req.Transit? {
      TransitKeepsListing(env, w, req, client);
    } else if Prepare(env, w.drawn, req).Issue? {
      IssueKeepsListing(env, w, Prepare(env, w.drawn, req).call, DrawnAfter(env, w.drawn, req), client);
    }
  }

  lemma TransitKeepsListing(env: Env, w: World, req: Request, client: string)
    requires req.Transit?
    ensures UsesOf(IssueAll(env, w, TransitCalls(env.checks, w.store, req)).store, client) == UsesOf(w.store, client)
  {
    hide Listing, Issued, IssueAll, Ready;
    var flip := TransitionClient(req.client, req.target, ACTOR, req.evidenceRef, req.reason);
    var purge := PurgeOffboarded(req.client, ACTOR);
    TwoCalls(env, w, flip, purge);
    TwoCalls(env, w, purge, flip);
    IssueKeepsListing(env, w, flip, w.drawn, client);
    IssueKeepsListing(env, w, purge, w.drawn, client);
    IssueKeepsListing(env, Issued(env, w, flip, w.drawn), purge, w.drawn, client);
    DrawnUnchanged(env, w, flip);
  }

  /**
    Main result: after any run of requests, the uses listed for a client authorise exactly
    what its last successful registration request asked for, use by use and credential by
    credential; a client that never registered may ask for nothing.
   */
  lemma {:induction false} ListedScopeIsLastRegistered(env: Env, reqs: seq<Request>, client: string)
    requires FreshUlids(env)
    ensures EnforcesAll(UsesOf(HandleAll(env, reqs).store, client), LastRegistered(env, reqs, client))
  {
    hide Handle, FreshUlids, Good, Agreeing, AllSafe, Listing, Enforces, Registers;
    if reqs != [] {
      var front, last := reqs[..|reqs| - 1], reqs[|reqs| - 1];
      var w := HandleAll(env, front);
      ListedScopeIsLastRegistered(env, front, client);
      RunsKeepAll(env, front);
      RunsAgree(env, front);
      if Registers(env, w, last, client) {
        RegisteringRequest(env, w, last, client);
        RegistrationEnforces(env, w, last);
      } else {
        OtherRequestKeepsListing(env, w, last, client);
      }
    } else {
      NothingListed(client);
    }
  }

  lemma RegisteringRequest(env: Env, w: World, req: Request, client: string)
    requires Registers(env, w, req, client)
    ensures req.SetRegistration? && req.client == client
  {
    hide Serve;
  }

  lemma NothingListed(client: string)
    ensures UsesOf(START.store, client) == []
  {
  }
}
