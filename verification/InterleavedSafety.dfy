/** What holds of every interleaving, and exactly when activation stays safe. */
module InterleavedSafety {
  import opened Api
  import opened ApiRuns
  import opened ApiSafety
  import opened AuditChain
  import opened Ids
  import opened Interleaving
  import opened IntendedUses
  import opened Lifecycle
  import opened Registry
  import opened RegistryInvariants
  import opened Slugs
  import WizardForms

  /** The statuses a call may read for which it skips the readiness check and can still flip later. */
  predicate Early(read: Status) {
    read == Draft || read == EvidenceSubmitted || read == FiledWithRegistrar
  }

  predicate Known(status: Status) {
    !status.OtherStatus?
  }

  // ---- What a thread knows, whatever other calls do ----

  predicate Settled(s: State, client: string, status: Status) {
    && client in s.clients
    && (PostActivation(status) ==> PostActivation(s.clients[client].status))
  }

  ghost predicate ThreadGood(env: Env, s: State, th: Thread) {
    match th.pc
    case ToRead => th.to == Active || th.to == Offboarded
    case ToList(seen) =>
      && th.to == Active && (seen == Registered || seen == Suspended)
      && Settled(s, th.client, seen) && HasIdentity(env.checks, s.clients[th.client])
    case ToFlip(None) => th.to != Active && th.to != Offboarded
    case ToFlip(Some(read)) =>
      && Known(read)
      && Settled(s, th.client, read)
      && (th.to == Active && (read == Registered || read == Suspended) ==> Ready(env.checks, s, th.client))
    case ToPurge => th.to == Offboarded && th.client in s.clients && s.clients[th.client].status == Offboarded
    case Returned(_) => true
  }

  ghost predicate SystemGood(env: Env, sys: System) {
    && Good(env, sys.world)
    && (forall pid :: pid in sys.threads ==> ThreadGood(env, sys.world.store, sys.threads[pid]))
    && (forall c :: c in sys.world.store.clients ==> Known(sys.world.store.clients[c].status))
    && (forall i :: 0 <= i < |sys.activations| ==>
          sys.activations[i].read.Some? && Known(sys.activations[i].read.value))
  }

  lemma KnownStep(t: TextRules, s: State, call: Call, client: string)
    requires Valid(s) && client in Apply(t, s, call).0.clients
    requires client in s.clients ==> Known(s.clients[client].status)
    ensures Known(Apply(t, s, call).0.clients[client].status)
  {
    hide Apply, MintedId, Valid, SetterWrite;
    if client in s.clients {
      RowStep(t, s, call, client);
      if call.TransitionClient? && call.client == client {
        TransitionIsLegal(t, s, call);
        TransitionRow(s, call);
      } else {
        StatusStep(t, s, call, client);
      }
    } else {
      CreatedStartsAtDraft(t, s, call, client);
    }
  }

  lemma OffboardedStays(t: TextRules, s: State, call: Call, client: string)
    requires Valid(s) && client in s.clients && s.clients[client].status == Offboarded
    ensures client in Apply(t, s, call).0.clients && Apply(t, s, call).0.clients[client].status == Offboarded
  {
    hide Apply, MintedId, Valid, SetterWrite;
    RowStep(t, s, call, client);
    if call.TransitionClient? && call.client == client {
      TransitionIsLegal(t, s, call);
    } else {
      StatusStep(t, s, call, client);
    }
  }

  /** No store call of anyone invalidates what a thread knows. */
  lemma ThreadKnowledgeIsStable(env: Env, w: World, call: Call, drawn: nat, th: Thread)
    requires Good(env, w) && ApiCall(env, call)
    requires ThreadGood(env, w.store, th)
    ensures ThreadGood(env, Issued(env, w, call, drawn).store, th)
  {
    hide Apply, MintedId, Valid, UsesLive, FromBuilder, Run, Clean, ApiCall, Ready, HasIdentity,
         SetterWrite, PostActivation;
    match th.pc
    case ToList(seen) =>
      RowStep(env.text, w.store, call, th.client);
      PostActivationStep(env.text, w.store, call, th.client);
      IdentityKept(env, w.store, call, th.client);
    case ToFlip(Some(read)) =>
      PostActivationStep(env.text, w.store, call, th.client);
      if Ready(env.checks, w.store, th.client) {
        IssueKeepsReady(env, w, call, drawn, th.client);
      }
    case ToPurge => OffboardedStays(env.text, w.store, call, th.client);
    case _ =>
  }

  lemma IssueKeepsSystemGood(env: Env, sys: System, call: Call, drawn: nat)
    requires SystemGood(env, sys) && ApiCall(env, call)
    ensures SystemGood(env, sys.(world := Issued(env, sys.world, call, drawn)))
  {
    hide Good, ApiCall, ThreadGood, Known, Apply;
    IssueKeepsGood(env, sys.world, call, drawn);
    var s' := Issued(env, sys.world, call, drawn).store;
    forall pid | pid in sys.threads
      ensures ThreadGood(env, s', sys.threads[pid])
    {
      ThreadKnowledgeIsStable(env, sys.world, call, drawn, sys.threads[pid]);
    }
    GoodIsValid(env, sys.world);
    forall c | c in s'.clients
      ensures Known(s'.clients[c].status)
    {
      KnownStep(env.text, sys.world.store, call, c);
    }
  }

  lemma MoveKeepsSystemGood(env: Env, sys: System, pid: nat, pc: Pc)
    requires SystemGood(env, sys) && pid in sys.threads
    requires ThreadGood(env, sys.world.store, sys.threads[pid].(pc := pc))
    ensures SystemGood(env, sys.(threads := Moved(sys, pid, pc)))
  {
    hide Good, ThreadGood, Known;
  }

  lemma ReadingIsGood(env: Env, s: State, th: Thread)
    requires th.pc == ToRead && (th.to == Active || th.to == Offboarded)
    requires th.client in s.clients ==> Known(s.clients[th.client].status)
    ensures ThreadGood(env, s, th.(pc := AfterRead(env, s, th)))
  {
    hide HasIdentity, Ready, PostActivation;
  }

  lemma ListingIsGood(env: Env, s: State, th: Thread, seen: Status)
    requires th.pc == ToList(seen) && ThreadGood(env, s, th)
    ensures ThreadGood(env, s, th.(pc := AfterList(env, s, th, seen)))
  {
    hide HasIdentity, AnyNonRevoked, Listing;
  }

  lemma FlippingIsGood(env: Env, s: State, th: Thread)
    requires th.pc.ToFlip? && Valid(s)
    ensures var (s', outcome) := Apply(env.text, s, FlipCall(th));
            ThreadGood(env, s', th.(pc := AfterFlip(th, outcome)))
  {
    hide MintedId, Valid;
  }

  lemma FlipKeepsSystemGood(env: Env, sys: System, pid: nat)
    requires SystemGood(env, sys)
    requires pid in sys.threads && sys.threads[pid].pc.ToFlip?
    ensures SystemGood(env, Advanced(env, sys, pid, false))
  {
    hide Good, ThreadGood, Apply, Valid;
    var th, w := sys.threads[pid], sys.world;
    var outcome := Apply(env.text, w.store, FlipCall(th)).1;
    if th.to == Active {
      FlipReadsKnown(env, w.store, th);
    }
    IssueKeepsSystemGood(env, sys, FlipCall(th), w.drawn);
    GoodIsValid(env, w);
    FlippingIsGood(env, w.store, th);
    MoveKeepsSystemGood(env, sys.(world := Issued(env, w, FlipCall(th), w.drawn)), pid, AfterFlip(th, outcome));
  }

  lemma FlipReadsKnown(env: Env, s: State, th: Thread)
    requires th.pc.ToFlip? && ThreadGood(env, s, th) && th.to == Active
    ensures th.pc.read.Some? && Known(th.pc.read.value)
  {
    hide Ready;
  }

  lemma AdvanceKeepsSystemGood(env: Env, sys: System, pid: nat, fault: bool)
    requires SystemGood(env, sys) && pid in sys.threads
    ensures SystemGood(env, Advanced(env, sys, pid, fault))
  {
    hide Good, Apply, AfterRead, AfterList, FlipCall, HasIdentity, Ready, PostActivation;
    var th, w := sys.threads[pid], sys.world;
    match th.pc
    case Returned(_) =>
    case ToRead =>
      ReadingIsGood(env, w.store, th);
      MoveKeepsSystemGood(env, sys, pid, AfterRead(env, w.store, th));
    case ToList(seen) =>
      ListingIsGood(env, w.store, th, seen);
      MoveKeepsSystemGood(env, sys, pid, AfterList(env, w.store, th, seen));
    case ToFlip(_) =>
      if !fault {
        FlipKeepsSystemGood(env, sys, pid);
      }
    case ToPurge =>
      if !fault {
        var purge := PurgeOffboarded(th.client, ACTOR);
        IssueKeepsSystemGood(env, sys, purge, w.drawn);
        MoveKeepsSystemGood(env, sys.(world := Issued(env, w, purge, w.drawn)), pid,
                            AfterPurge(Apply(env.text, w.store, purge).1));
      }
  }

  lemma OtherKeepsSystemGood(env: Env, sys: System, req: Request)
    requires SystemGood(env, sys) && !req.Transit?
    ensures SystemGood(env, sys.(world := Handle(env, sys.world, req)))
  {
    hide Good, Issued, ThreadGood, Known, Prepare, WizardForms.DrawnBy, ApiCall;
    var w := sys.world;
    match Prepare(env, w.drawn, req)
    case Bounce(_) => BounceKeepsGood(env, w, DrawnAfter(env, w.drawn, req));
    case Issue(call) =>
      PreparedIsApiCall(env, w.drawn, req);
      IssueKeepsSystemGood(env, sys, call, DrawnAfter(env, w.drawn, req));
  }

  lemma NextKeepsSystemGood(env: Env, sys: System, step: Step)
    requires SystemGood(env, sys)
    ensures SystemGood(env, Next(env, sys, step))
  {
    hide Good, Advanced, Handle, Known;
    match step
    case Spawn(pid, client, to, evidenceRef, reason) =>
    case Advance(pid, fault) =>
      if pid in sys.threads {
        AdvanceKeepsSystemGood(env, sys, pid, fault);
      }
    case Other(req) =>
      if !req.Transit? {
        OtherKeepsSystemGood(env, sys, req);
      }
  }

  lemma {:induction false} EverySystemIsGood(env: Env, steps: seq<Step>)
    ensures SystemGood(env, RunSteps(env, steps))
  {
    hide Next, Good, ThreadGood, Known;
    if steps == [] {
      StartIsGood(env);
    } else {
      EverySystemIsGood(env, steps[..|steps| - 1]);
      hide SystemGood;
      NextKeepsSystemGood(env, RunSteps(env, steps[..|steps| - 1]), steps[|steps| - 1]);
    }
  }

  lemma AdvanceKeepsAgreeing(env: Env, sys: System, pid: nat, fault: bool)
    requires FreshUlids(env) && SystemGood(env, sys) && Agreeing(env, sys.world) && pid in sys.threads
    ensures Agreeing(env, Advanced(env, sys, pid, fault).world)
  {
    hide Good, Agreeing, FreshUlids, Issued, ThreadGood, Known, Apply, AfterRead, AfterList;
    var th, w := sys.threads[pid], sys.world;
    if th.pc.ToFlip? {
      IssueKeepsAgreeing(env, w, FlipCall(th), w.drawn);
    } else if th.pc.ToPurge? {
      IssueKeepsAgreeing(env, w, PurgeOffboarded(th.client, ACTOR), w.drawn);
    }
  }

  lemma {:induction false} EveryWorldAgrees(env: Env, steps: seq<Step>)
    requires FreshUlids(env)
    ensures Agreeing(env, RunSteps(env, steps).world)
  {
    hide Good, Agreeing, FreshUlids, Advanced, Handle, ThreadGood, Known;
    if steps == [] {
      StartAgrees(env);
    } else {
      var sys := RunSteps(env, steps[..|steps| - 1]);
      EveryWorldAgrees(env, steps[..|steps| - 1]);
      EverySystemIsGood(env, steps[..|steps| - 1]);
      match steps[|steps| - 1]
      case Spawn(_, _, _, _, _) =>
      case Advance(pid, fault) =>
        if pid in sys.threads {
          AdvanceKeepsAgreeing(env, sys, pid, fault);
        }
      case Other(req) => HandleKeepsAgreeing(env, sys.world, req);
    }
  }

  /** Document and listing agree in every interleaving too: the write of both is one store call. */
  lemma AgreementSurvivesInterleaving(env: Env, steps: seq<Step>, client: string)
    requires FreshUlids(env) && client in RunSteps(env, steps).world.store.clients
    ensures var s := RunSteps(env, steps).world.store;
            Agrees(s.clients[client].document, UsesOf(s, client))
  {
    hide RunSteps, Agrees, FreshUlids, Listing, Agreeing;
    EveryWorldAgrees(env, steps);
    AgreeingClient(env, RunSteps(env, steps).world, client);
  }

  // ---- Interleaved safety, with its condition ----

  /** Every activation of the client was made by a call that had read a status in allowed. */
  predicate ActivatedFrom(activations: seq<Activation>, client: string, allowed: set<Status>) {
    forall i :: 0 <= i < |activations| && activations[i].client == client ==>
      activations[i].read.Some? && activations[i].read.value in allowed
  }

  predicate NoEarly(allowed: set<Status>) {
    Draft !in allowed && EvidenceSubmitted !in allowed && FiledWithRegistrar !in allowed
  }

  lemma FlipKeepsSafe(env: Env, sys: System, pid: nat, client: string, allowed: set<Status>)
    requires SystemGood(env, sys) && NoEarly(allowed)
    requires pid in sys.threads && sys.threads[pid].pc.ToFlip?
    requires ActivatedFrom(sys.activations, client, allowed) ==> Safe(env, sys.world.store, client)
    requires ActivatedFrom(Advanced(env, sys, pid, false).activations, client, allowed)
    ensures Safe(env, Advanced(env, sys, pid, false).world.store, client)
  {
    hide Good, Apply, Ready, ApiCall, PostActivation, Issued;
    var th, w := sys.threads[pid], sys.world;
    var outcome := Apply(env.text, w.store, FlipCall(th)).1;
    var now := Advanced(env, sys, pid, false).activations;
    assert sys.activations <= now;
    assert ActivatedFrom(sys.activations, client, allowed);
    if Activates(w.store, FlipCall(th), client) {
      TransitionIsLegal(env.text, w.store, FlipCall(th));
      assert now[|sys.activations|] == Activation(client, th.pc.read);
      FlipperIsReady(env, w.store, th);
    }
    FlipIsApiCall(env, w, th);
    IssueKeepsSafe(env, w, FlipCall(th), w.drawn, client);
  }

  lemma FlipIsApiCall(env: Env, w: World, th: Thread)
    ensures ApiCall(env, FlipCall(th))
  {
  }

  /** The statuses for which a call runs the readiness check. */
  predicate Checked(read: Status) {
    read == Registered || read == Suspended
  }

  /**
    A flip to active finds the client ready if its call ran the readiness check, or read
    another status past the early ones of a client that is safe.
   */
  lemma FlipperIsReady(env: Env, s: State, th: Thread)
    requires th.pc.ToFlip? && ThreadGood(env, s, th) && th.to == Active
    requires th.pc.read.Some? && !Early(th.pc.read.value)
    requires !Checked(th.pc.read.value) ==> Safe(env, s, th.client)
    ensures Ready(env.checks, s, th.client)
  {
    hide Ready;
  }

  lemma NextKeepsSafe(env: Env, sys: System, step: Step, client: string, allowed: set<Status>)
    requires SystemGood(env, sys) && NoEarly(allowed)
    requires ActivatedFrom(sys.activations, client, allowed) ==> Safe(env, sys.world.store, client)
    requires ActivatedFrom(Next(env, sys, step).activations, client, allowed)
    ensures Safe(env, Next(env, sys, step).world.store, client)
  {
    hide Good, Apply, Safe, Known, ThreadGood, Prepare, WizardForms.DrawnBy, AfterRead, AfterList, ApiCall,
         Issued, NoEarly;
    match step
    case Spawn(pid, _, to, _, _) =>
    case Advance(pid, fault) =>
      if pid in sys.threads && !fault {
        var th := sys.threads[pid];
        if th.pc.ToFlip? {
          FlipKeepsSafe(env, sys, pid, client, allowed);
        } else if th.pc.ToPurge? {
          PurgeKeepsSafe(env, sys.world, th.client, client);
        }
      }
    case Other(req) =>
      if !req.Transit? {
        OtherKeepsSafe(env, sys.world, req, client);
      }
  }

  lemma PurgeKeepsSafe(env: Env, w: World, target: string, client: string)
    requires Good(env, w) && Safe(env, w.store, client)
    ensures Safe(env, Issued(env, w, PurgeOffboarded(target, ACTOR), w.drawn).store, client)
  {
    hide Good, Issued, Safe;
    IssueKeepsSafe(env, w, PurgeOffboarded(target, ACTOR), w.drawn, client);
  }

  lemma OtherKeepsSafe(env: Env, w: World, req: Request, client: string)
    requires Good(env, w) && Safe(env, w.store, client) && !req.Transit?
    ensures Safe(env, Handle(env, w, req).store, client)
  {
    hide Good, Issued, Safe, Prepare, WizardForms.DrawnBy, ApiCall, Paid;
    if Prepare(env, w.drawn, req).Issue? {
      PreparedIsPaid(env, w, req);
      PreparedIsApiCall(env, w.drawn, req);
      IssueKeepsSafe(env, w, Prepare(env, w.drawn, req).call, DrawnAfter(env, w.drawn, req), client);
    }
  }

  lemma {:induction false} SafeWhenNoEarlyActivation(env: Env, steps: seq<Step>, client: string, allowed: set<Status>)
    requires NoEarly(allowed)
    requires ActivatedFrom(RunSteps(env, steps).activations, client, allowed)
    ensures Safe(env, RunSteps(env, steps).world.store, client)
  {
    hide Next, SystemGood, Safe, NoEarly, ActivatedFrom;
    if steps == [] {
      IdleIsSafe(env, client);
    } else {
      var front, last := steps[..|steps| - 1], steps[|steps| - 1];
      var sys := RunSteps(env, front);
      EverySystemIsGood(env, front);
      ActivationsGrow(env, sys, last, client, allowed);
      SafeWhenNoEarlyActivation(env, front, client, allowed);
      NextKeepsSafe(env, sys, last, client, allowed);
    }
  }

  lemma ActivationsGrow(env: Env, sys: System, step: Step, client: string, allowed: set<Status>)
    requires ActivatedFrom(Next(env, sys, step).activations, client, allowed)
    ensures ActivatedFrom(sys.activations, client, allowed)
  {
    hide Apply, Issued, AfterRead, AfterList, Handle, Moved;
    var now := Next(env, sys, step).activations;
    assert sys.activations <= now;
    assert forall i :: 0 <= i < |sys.activations| ==> now[i] == sys.activations[i];
  }

  lemma IdleIsSafe(env: Env, client: string)
    ensures Safe(env, IDLE.world.store, client)
  {
  }

  /**
    Interleaved safety: whatever steps of other calls intervene, a client that was ever
    active is ready, provided every call that activated it had read a status other than
    draft, evidence submitted and filed with the registrar.
   */
  lemma ActivationIsSafe(env: Env, steps: seq<Step>, client: string, allowed: set<Status>)
    requires NoEarly(allowed)
    requires ActivatedFrom(RunSteps(env, steps).activations, client, allowed)
    requires EverActive(RunSteps(env, steps).world.store.auditLog, client)
    ensures Ready(env.checks, RunSteps(env, steps).world.store, client)
  {
    hide RunSteps, Good, EverActive, Ready, Safe, NoEarly, ActivatedFrom, ThreadGood, Known;
    EverySystemIsGood(env, steps);
    SafeWhenNoEarlyActivation(env, steps, client, allowed);
    SafeMeansReady(env, RunSteps(env, steps).world, client);
  }

  // ---- What one checked activation guarantees, whatever other calls read ----

  /** Some activation of the client was made by a call that ran the readiness check. */
  predicate CheckedActivation(activations: seq<Activation>, client: string) {
    exists i :: 0 <= i < |activations| && IsCheckedFor(activations[i], client)
  }

  predicate IsCheckedFor(a: Activation, client: string) {
    a.client == client && a.read.Some? && Checked(a.read.value)
  }

  /** No step of any call makes a ready client unready. */
  lemma NextKeepsReady(env: Env, sys: System, step: Step, client: string)
    requires SystemGood(env, sys) && Ready(env.checks, sys.world.store, client)
    ensures Ready(env.checks, Next(env, sys, step).world.store, client)
  {
    hide Good, Apply, Ready, Known, ThreadGood, Prepare, WizardForms.DrawnBy, AfterRead, AfterList, ApiCall, Issued;
    var w := sys.world;
    match step
    case Spawn(_, _, _, _, _) =>
    case Advance(pid, fault) =>
      if pid in sys.threads {
        var th := sys.threads[pid];
        FlipIsApiCall(env, w, th);
        IssueKeepsReady(env, w, FlipCall(th), w.drawn, client);
        PurgeIsApiCall(env, th.client);
        IssueKeepsReady(env, w, PurgeOffboarded(th.client, ACTOR), w.drawn, client);
      }
    case Other(req) =>
      if !req.Transit? && Prepare(env, w.drawn, req).Issue? {
        PreparedIsApiCall(env, w.drawn, req);
        IssueKeepsReady(env, w, Prepare(env, w.drawn, req).call, DrawnAfter(env, w.drawn, req), client);
      }
  }

  lemma PurgeIsApiCall(env: Env, client: string)
    ensures ApiCall(env, PurgeOffboarded(client, ACTOR))
  {
  }

  /** The step that records the first checked activation is the flip of a call that ran the check. */
  lemma FirstCheckedActivation(env: Env, sys: System, step: Step, client: string)
    requires !CheckedActivation(sys.activations, client)
    requires CheckedActivation(Next(env, sys, step).activations, client)
    ensures step.Advance? && step.pid in sys.threads
    ensures var th := sys.threads[step.pid];
            && th.pc.ToFlip? && th.client == client && th.to == Active
            && th.pc.read.Some? && Checked(th.pc.read.value)
  {
    hide Apply, Issued, AfterRead, AfterList, Handle, Moved, Checked;
    var now := Next(env, sys, step).activations;
    var i :| 0 <= i < |now| && IsCheckedFor(now[i], client);
    assert i < |sys.activations| ==> now[i] == sys.activations[i];
  }

  /**
    A client with an activation by a call that ran the readiness check is ready in every
    later state, whatever other calls read, activated or wrote.
   */
  lemma {:induction false} CheckedActivationIsSafe(env: Env, steps: seq<Step>, client: string)
    requires CheckedActivation(RunSteps(env, steps).activations, client)
    ensures Ready(env.checks, RunSteps(env, steps).world.store, client)
  {
    hide Next, SystemGood, Ready, CheckedActivation, ThreadGood;
    if steps == [] {
      NoActivations(client);
    } else {
      var front, last := steps[..|steps| - 1], steps[|steps| - 1];
      var sys := RunSteps(env, front);
      EverySystemIsGood(env, front);
      if CheckedActivation(sys.activations, client) {
        CheckedActivationIsSafe(env, front, client);
      } else {
        FirstCheckedActivation(env, sys, last, client);
        FlippingThreadIsGood(env, sys, last.pid);
        FlipperIsReady(env, sys.world.store, sys.threads[last.pid]);
      }
      NextKeepsReady(env, sys, last, client);
    }
  }

  lemma NoActivations(client: string)
    ensures !CheckedActivation([], client)
  {
  }

  lemma FlippingThreadIsGood(env: Env, sys: System, pid: nat)
    requires SystemGood(env, sys) && pid in sys.threads
    ensures ThreadGood(env, sys.world.store, sys.threads[pid])
  {
    hide Good, ThreadGood, Known;
  }
}
