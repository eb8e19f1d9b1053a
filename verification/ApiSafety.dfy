/** Whole-run theorems for requests served one after the other. */
module ApiSafety {
  import opened Api
  import opened ApiRuns
  import opened AuditChain
  import opened Ids
  import opened IntendedUses
  import opened Lifecycle
  import opened Registry
  import opened RegistryInvariants
  import opened WizardForms

  /** The store calls one service call issues, in order. */
  function TransitCalls(checks: Checks, s: State, req: Request): seq<Call>
    requires req.Transit?
  {
    var flip := TransitionClient(req.client, req.target, ACTOR, req.evidenceRef, req.reason);
    var purge := PurgeOffboarded(req.client, ACTOR);
    if req.target == OtherStatus("") || req.client !in s.clients then []
    else
      var from := s.clients[req.client].status;
      if from == Offboarded && req.target == Offboarded then (if req.purgeFails then [] else [purge])
      else if !Permitted(checks, s, req.client, req.target) then []
      else if req.target == Offboarded && !req.purgeFails then [flip, purge]
      else [flip]
  }

  function IssueAll(env: Env, w: World, calls: seq<Call>): World
    decreases |calls|
  {
    if calls == [] then w else IssueAll(env, Issued(env, w, calls[0], w.drawn), calls[1..])
  }

  /** One request against a world; every store call goes into the history. */
  function Handle(env: Env, w: World, req: Request): World {
    if req.Transit? then IssueAll(env, w, TransitCalls(env.checks, w.store, req))
    else
      match Prepare(env, w.drawn, req)
      case Bounce(_) => w.(drawn := DrawnAfter(env, w.drawn, req))
      case Issue(call) => Issued(env, w, call, DrawnAfter(env, w.drawn, req))
  }

  function HandleAll(env: Env, reqs: seq<Request>): World {
    if reqs == [] then START else Handle(env, HandleAll(env, reqs[..|reqs| - 1]), reqs[|reqs| - 1])
  }

  lemma TwoCalls(env: Env, w: World, a: Call, b: Call)
    ensures IssueAll(env, w, []) == w
    ensures IssueAll(env, w, [a]) == Issued(env, w, a, w.drawn)
    ensures IssueAll(env, w, [a, b]) == Issued(env, Issued(env, w, a, w.drawn), b, w.drawn)
  {
    hide Issued;
    assert [a][1..] == [] && [a, b][1..] == [b] && [b][1..] == [];
    assert IssueAll(env, w, [a]) == IssueAll(env, Issued(env, w, a, w.drawn), []);
    var w1 := Issued(env, w, a, w.drawn);
    assert IssueAll(env, w, [a, b]) == IssueAll(env, w1, [b]);
    assert IssueAll(env, w1, [b]) == IssueAll(env, Issued(env, w1, b, w1.drawn), []);
    DrawnUnchanged(env, w, a);
  }

  lemma DrawnUnchanged(env: Env, w: World, a: Call)
    ensures Issued(env, w, a, w.drawn).drawn == w.drawn
  {
    hide Apply;
  }

  /** Handling a request is serving it: the handlers' own functions, plus the history. */
  lemma HandleIsServe(env: Env, w: World, req: Request)
    ensures Handle(env, w, req).store == Serve(env, w.store, w.drawn, req).0
    ensures Handle(env, w, req).drawn == DrawnAfter(env, w.drawn, req)
  {
    hide MintedId, Apply, Prepare, DrawnBy, IssueAll, ServiceTransition, TransitCalls;
    if req.Transit? {
      TransitIsServe(env, w, req);
    }
  }

  lemma TransitIsServe(env: Env, w: World, req: Request)
    requires req.Transit?
    ensures IssueAll(env, w, TransitCalls(env.checks, w.store, req)).store == Serve(env, w.store, w.drawn, req).0
    ensures IssueAll(env, w, TransitCalls(env.checks, w.store, req)).drawn == w.drawn
  {
    hide MintedId, Transition, Purge, Listing, HasIdentity, AnyNonRevoked, IssueAll, Ready;
    var flip := TransitionClient(req.client, req.target, ACTOR, req.evidenceRef, req.reason);
    TwoCalls(env, w, flip, PurgeOffboarded(req.client, ACTOR));
    TwoCalls(env, w, PurgeOffboarded(req.client, ACTOR), flip);
    FlipVerdict(w.store, flip);
    if req.client in w.store.clients {
      ReadyMeans(env.checks, w.store, req.client);
    }
  }

  lemma FlipVerdict(s: State, flip: Call)
    requires flip.TransitionClient?
    ensures var (s', outcome) := Transition(s, flip.client, flip.to, flip.actor, flip.evidenceRef, flip.reason);
            && (outcome.Ok? <==> flip.client in s.clients && Legal(s.clients[flip.client].status, flip.to))
            && (outcome.Err? ==> s' == s)
  {
    hide MintedId;
  }

  lemma ReadyMeans(checks: Checks, s: State, client: string)
    requires client in s.clients
    ensures Ready(checks, s, client) <==> HasIdentity(checks, s.clients[client]) && AnyNonRevoked(UsesOf(s, client))
  {
    hide HasIdentity, AnyNonRevoked;
  }

  // ---- Invariants over runs ----

  ghost predicate AllSafe(env: Env, s: State) {
    forall c :: Safe(env, s, c)
  }

  lemma IssueKeepsAll(env: Env, w: World, call: Call, drawn: nat)
    requires Good(env, w) && AllSafe(env, w.store) && ApiCall(env, call)
    requires forall c :: Activates(w.store, call, c) ==> Ready(env.checks, w.store, c)
    ensures Good(env, Issued(env, w, call, drawn)) && AllSafe(env, Issued(env, w, call, drawn).store)
  {
    hide Good, ApiCall, Activates, Ready, Issued, Safe;
    IssueKeepsGood(env, w, call, drawn);
    forall c
      ensures Safe(env, Issued(env, w, call, drawn).store, c)
    {
      IssueKeepsSafe(env, w, call, drawn, c);
    }
  }

  lemma BounceKeepsGood(env: Env, w: World, drawn: nat)
    requires Good(env, w)
    ensures Good(env, w.(drawn := drawn))
  {
    hide Valid, Run, Clean, UsesLive;
  }

  lemma BounceKeepsAgreeing(env: Env, w: World, drawn: nat)
    requires Agreeing(env, w) && w.drawn <= drawn
    ensures Agreeing(env, w.(drawn := drawn))
  {
    hide ClientGood;
    forall c
      ensures ClientGood(env, w.store, c, drawn)
    {
      DrawMore(env, w.store, c, w.drawn, drawn);
    }
  }

  lemma PreparedIsPaid(env: Env, w: World, req: Request)
    requires !req.Transit? && Prepare(env, w.drawn, req).Issue?
    ensures Paid(env, w, Prepare(env, w.drawn, req).call, DrawnAfter(env, w.drawn, req))
    ensures !Prepare(env, w.drawn, req).call.TransitionClient?
  {
    hide Build, FromBuilder, FormOf, DrawnBy;
    if req.SetRegistration? {
      RegistrationComesFromBuilder(env, w.drawn, req);
    }
  }

  lemma TransitKeepsAll(env: Env, w: World, req: Request)
    requires Good(env, w) && AllSafe(env, w.store) && req.Transit?
    ensures var w' := IssueAll(env, w, TransitCalls(env.checks, w.store, req));
            Good(env, w') && AllSafe(env, w'.store)
  {
    hide Good, Ready, Issued, Safe, IssueAll;
    var flip := TransitionClient(req.client, req.target, ACTOR, req.evidenceRef, req.reason);
    var purge := PurgeOffboarded(req.client, ACTOR);
    TwoCalls(env, w, flip, purge);
    TwoCalls(env, w, purge, flip);
    var calls := TransitCalls(env.checks, w.store, req);
    if calls != [] {
      IssueKeepsAll(env, w, calls[0], w.drawn);
      if |calls| == 2 {
        var w1 := Issued(env, w, flip, w.drawn);
        DrawnUnchanged(env, w, flip);
        IssueKeepsAll(env, w1, purge, w1.drawn);
      }
    }
  }

  lemma HandleKeepsAll(env: Env, w: World, req: Request)
    requires Good(env, w) && AllSafe(env, w.store)
    ensures Good(env, Handle(env, w, req)) && AllSafe(env, Handle(env, w, req).store)
  {
    hide Good, Ready, Issued, AllSafe, IssueAll, TransitCalls, Prepare, DrawnBy, Paid, ApiCall;
    if req.Transit? {
      TransitKeepsAll(env, w, req);
    } else {
      match Prepare(env, w.drawn, req)
      case Bounce(_) => BounceKeepsGood(env, w, DrawnAfter(env, w.drawn, req));
      case Issue(call) =>
        PreparedIsPaid(env, w, req);
        PreparedIsApiCall(env, w.drawn, req);
        IssueKeepsAll(env, w, call, DrawnAfter(env, w.drawn, req));
    }
  }

  lemma StartIsGood(env: Env)
    ensures Good(env, START) && AllSafe(env, START.store)
  {
    hide Clean;
    RunIsValid(env.text, []);
  }

  lemma {:induction false} RunsKeepAll(env: Env, reqs: seq<Request>)
    ensures Good(env, HandleAll(env, reqs)) && AllSafe(env, HandleAll(env, reqs).store)
  {
    hide Good, Handle, AllSafe;
    if reqs == [] {
      StartIsGood(env);
    } else {
      RunsKeepAll(env, reqs[..|reqs| - 1]);
      HandleKeepsAll(env, HandleAll(env, reqs[..|reqs| - 1]), reqs[|reqs| - 1]);
    }
  }

  // ---- Agreement, when ULIDs never repeat ----

  lemma TransitKeepsAgreeing(env: Env, w: World, req: Request)
    requires FreshUlids(env) && Good(env, w) && Agreeing(env, w) && req.Transit?
    ensures Agreeing(env, IssueAll(env, w, TransitCalls(env.checks, w.store, req)))
  {
    hide Good, Agreeing, FreshUlids, Ready, Issued, IssueAll;
    var flip := TransitionClient(req.client, req.target, ACTOR, req.evidenceRef, req.reason);
    var purge := PurgeOffboarded(req.client, ACTOR);
    TwoCalls(env, w, flip, purge);
    TwoCalls(env, w, purge, flip);
    var calls := TransitCalls(env.checks, w.store, req);
    if calls != [] {
      IssueKeepsAgreeing(env, w, calls[0], w.drawn);
      if |calls| == 2 {
        var w1 := Issued(env, w, flip, w.drawn);
        DrawnUnchanged(env, w, flip);
        IssueKeepsGood(env, w, flip, w.drawn);
        IssueKeepsAgreeing(env, w1, purge, w1.drawn);
      }
    }
  }

  lemma HandleKeepsAgreeing(env: Env, w: World, req: Request)
    requires FreshUlids(env) && Good(env, w) && Agreeing(env, w)
    ensures Agreeing(env, Handle(env, w, req))
  {
    hide Good, Agreeing, FreshUlids, Issued, IssueAll, TransitCalls, Prepare, DrawnBy, Paid, ApiCall;
    if req.Transit? {
      TransitKeepsAgreeing(env, w, req);
    } else {
      match Prepare(env, w.drawn, req)
      case Bounce(_) => BounceKeepsAgreeing(env, w, DrawnAfter(env, w.drawn, req));
      case Issue(call) =>
        PreparedIsPaid(env, w, req);
        PreparedIsApiCall(env, w.drawn, req);
        IssueKeepsAgreeing(env, w, call, DrawnAfter(env, w.drawn, req));
    }
  }

  lemma StartAgrees(env: Env)
    ensures Agreeing(env, START)
  {
  }

  lemma {:induction false} RunsAgree(env: Env, reqs: seq<Request>)
    requires FreshUlids(env)
    ensures Agreeing(env, HandleAll(env, reqs))
  {
    hide Good, Agreeing, FreshUlids, Handle, AllSafe;
    if reqs == [] {
      StartAgrees(env);
    } else {
      RunsAgree(env, reqs[..|reqs| - 1]);
      RunsKeepAll(env, reqs[..|reqs| - 1]);
      HandleKeepsAgreeing(env, HandleAll(env, reqs[..|reqs| - 1]), reqs[|reqs| - 1]);
    }
  }

  // ---- Main results ----

  /** The log records that the client was moved to active. */
  predicate EverActive(log: seq<AuditEntry>, client: string) {
    exists i :: 0 <= i < |log| && IsActivation(log[i], client)
  }

  predicate IsActivation(e: AuditEntry, client: string) {
    IsTransitionOf(e, client) && e.detail.to == Active
  }

  lemma EverActiveAppend(log: seq<AuditEntry>, e: AuditEntry, client: string)
    ensures EverActive(log + [e], client) <==> EverActive(log, client) || IsActivation(e, client)
  {
    var longer := log + [e];
    if i :| 0 <= i < |log| && IsActivation(log[i], client) {
      assert longer[i] == log[i];
    }
    if i :| 0 <= i < |longer| && IsActivation(longer[i], client) {
      assert i < |log| ==> log[i] == longer[i];
    }
    assert longer[|log|] == e;
  }

  lemma ReachesActiveAppend(edges: seq<Edge>, e: Edge)
    ensures ReachesActive(edges + [e]) <==> ReachesActive(edges) || e.to == Active
  {
    var longer := edges + [e];
    if i :| 0 <= i < |edges| && edges[i].to == Active {
      assert longer[i] == edges[i];
    }
    assert longer[|edges|] == e;
  }

  lemma {:induction false} EverActiveInChain(log: seq<AuditEntry>, client: string)
    ensures EverActive(log, client) <==> ReachesActive(Chain(log, client))
  {
    if log == [] {
    } else {
      var front, e := log[..|log| - 1], log[|log| - 1];
      EverActiveInChain(front, client);
      hide Chain, EverActive, ReachesActive;
      assert log == front + [e];
      EverActiveAppend(front, e, client);
      ChainAppend(front, e, client);
      if IsTransitionOf(e, client) {
        ReachesActiveAppend(Chain(front, client), Edge(e.detail.from, e.detail.to));
      } else {
        assert Chain(front, client) + [] == Chain(front, client);
      }
    }
  }

  /** A client whose log holds an activation is past it now, and so is a safe client ready. */
  lemma SafeMeansReady(env: Env, w: World, client: string)
    requires Good(env, w) && Safe(env, w.store, client)
    requires EverActive(w.store.auditLog, client)
    ensures Ready(env.checks, w.store, client)
  {
    hide Valid, Run, Chain, UsesLive, Ready, IsPath, EverActive;
    forall i | 0 <= i < |w.history|
      ensures Honest(w.history[i])
    {
      assert Clean(w.history[i]);
    }
    ChainMatchesState(env.text, w.history, client);
    EverActiveInChain(w.store.auditLog, client);
    EverActiveIffPostActivation(Chain(w.store.auditLog, client));
  }

  /**
    Sequential safety: in every state reached by serving requests one after the other, a
    client that was ever active has a registrar identifier, an absolute-https registrar URL
    and a use that is not revoked.
   */
  lemma SequentialSafety(env: Env, reqs: seq<Request>, client: string)
    requires EverActive(HandleAll(env, reqs).store.auditLog, client)
    ensures Ready(env.checks, HandleAll(env, reqs).store, client)
  {
    hide HandleAll, Good, EverActive, Ready, Safe;
    RunsKeepAll(env, reqs);
    SafeMeansReady(env, HandleAll(env, reqs), client);
  }

  /**
    Agreement: in every such state the intended uses of a client's stored document and the
    listed ones are the same uses in the same order, with the same scope; no document, no uses.
   */
  lemma DocumentAndListingAgree(env: Env, reqs: seq<Request>, client: string)
    requires FreshUlids(env)
    requires client in HandleAll(env, reqs).store.clients
    ensures var s := HandleAll(env, reqs).store;
            Agrees(s.clients[client].document, UsesOf(s, client))
  {
    hide HandleAll, Agrees, Listing, Agreeing;
    RunsAgree(env, reqs);
    AgreeingClient(env, HandleAll(env, reqs), client);
  }

  lemma AgreeingClient(env: Env, w: World, client: string)
    requires Agreeing(env, w) && client in w.store.clients
    ensures Agrees(w.store.clients[client].document, UsesOf(w.store, client))
  {
    hide Agrees, Listing, KeysDrawn;
    assert ClientGood(env, w.store, client, w.drawn);
  }

  /** Every state the API reaches is a state of a run of store calls, none of them dishonest. */
  lemma ApiRunsAreStoreRuns(env: Env, reqs: seq<Request>)
    ensures var w := HandleAll(env, reqs);
            w.store == Run(env.text, w.history) && forall i :: 0 <= i < |w.history| ==> Clean(w.history[i])
  {
    hide HandleAll, AllSafe, Run, Clean, Valid, UsesLive;
    RunsKeepAll(env, reqs);
  }
}
