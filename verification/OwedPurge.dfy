/** An offboarded client's evidence purge is done, owed by a call in flight, or reported as failed. */
module OwedPurge {
  import opened Api
  import opened ApiRuns
  import opened ApiSafety
  import opened AuditChain
  import opened Ids
  import opened Interleaving
  import opened InterleavedSafety
  import opened Lifecycle
  import opened Registry
  import opened RegistryInvariants
  import opened Slugs
  import WizardForms

  predicate FlippedOff(log: seq<AuditEntry>, client: string) {
    exists i :: 0 <= i < |log| && IsOffboarding(log[i], client)
  }

  /** A purge entry of the client follows its flip to offboarded. */
  predicate PurgedAfterFlip(log: seq<AuditEntry>, client: string) {
    exists i, j :: 0 <= i < j < |log| && IsOffboarding(log[i], client) && IsPurgeEntry(log[j], client)
  }

  ghost predicate Owed(sys: System, client: string) {
    exists pid :: pid in sys.threads && sys.threads[pid].client == client && sys.threads[pid].pc == ToPurge
  }

  ghost predicate Reported(sys: System, client: string) {
    exists pid :: pid in sys.threads && sys.threads[pid].client == client
                  && sys.threads[pid].pc == Returned(Failed(PurgeFault))
  }

  ghost predicate DebtTracked(sys: System, client: string) {
    client in sys.world.store.clients && sys.world.store.clients[client].status == Offboarded ==>
      && FlippedOff(sys.world.store.auditLog, client)
      && (PurgedAfterFlip(sys.world.store.auditLog, client) || Owed(sys, client) || Reported(sys, client))
  }

  lemma LogGrowthKeeps(log: seq<AuditEntry>, longer: seq<AuditEntry>, client: string)
    requires log <= longer
    ensures FlippedOff(log, client) ==> FlippedOff(longer, client)
    ensures PurgedAfterFlip(log, client) ==> PurgedAfterFlip(longer, client)
  {
    if i :| 0 <= i < |log| && IsOffboarding(log[i], client) {
      assert longer[i] == log[i];
    }
    if i, j :| 0 <= i < j < |log| && IsOffboarding(log[i], client) && IsPurgeEntry(log[j], client) {
      assert longer[i] == log[i] && longer[j] == log[j];
    }
  }

  lemma PurgeEntryPays(log: seq<AuditEntry>, e: AuditEntry, client: string)
    requires FlippedOff(log, client) && IsPurgeEntry(e, client)
    ensures PurgedAfterFlip(log + [e], client)
  {
    var i :| 0 <= i < |log| && IsOffboarding(log[i], client);
    var longer := log + [e];
    assert longer[i] == log[i] && longer[|log|] == e;
  }

  /** A call other than the client's own offboarding neither offboards it nor loses log entries. */
  lemma CallKeepsDebt(env: Env, sys: System, call: Call, drawn: nat, client: string)
    requires Valid(sys.world.store) && DebtTracked(sys, client)
    requires !(call.TransitionClient? && call.client == client && call.to == Offboarded)
    ensures DebtTracked(sys.(world := Issued(env, sys.world, call, drawn)), client)
  {
    hide Apply, MintedId, Valid, FlippedOff, PurgedAfterFlip, SetterWrite;
    var s := sys.world.store;
    var s' := Apply(env.text, s, call).0;
    LogStep(env.text, s, call);
    assert s.auditLog <= s'.auditLog;
    LogGrowthKeeps(s.auditLog, s'.auditLog, client);
    if client in s.clients {
      OffboardedOnlyByItself(env.text, s, call, client);
    } else if client in s'.clients {
      CreatedStartsAtDraft(env.text, s, call, client);
    }
  }

  lemma OffboardedOnlyByItself(t: TextRules, s: State, call: Call, client: string)
    requires Valid(s) && client in s.clients
    requires !(call.TransitionClient? && call.client == client && call.to == Offboarded)
    ensures var s' := Apply(t, s, call).0;
            client in s'.clients && (s'.clients[client].status == Offboarded ==> s.clients[client].status == Offboarded)
  {
    hide Apply, MintedId, Valid, SetterWrite;
    RowStep(t, s, call, client);
    if call.TransitionClient? && call.client == client {
      TransitionRow(s, call);
    } else {
      StatusStep(t, s, call, client);
    }
  }

  lemma FlipEntry(t: TextRules, s: State, th: Thread)
    ensures var (s', outcome) := Apply(t, s, FlipCall(th));
            if outcome.Err? then s' == s
            else
              && |s'.auditLog| == |s.auditLog| + 1
              && IsTransitionOf(s'.auditLog[|s.auditLog|], th.client)
              && s'.auditLog[|s.auditLog|].detail.to == th.to
  {
    hide MintedId;
  }

  lemma FlipKeepsDebt(env: Env, sys: System, pid: nat, client: string)
    requires Valid(sys.world.store) && DebtTracked(sys, client)
    requires pid in sys.threads && sys.threads[pid].pc.ToFlip?
    ensures DebtTracked(Advanced(env, sys, pid, false), client)
  {
    hide Apply, MintedId, Valid, FlippedOff, PurgedAfterFlip, FlipCall;
    var th, w := sys.threads[pid], sys.world;
    var outcome := Apply(env.text, w.store, FlipCall(th)).1;
    var sys' := Advanced(env, sys, pid, false);
    FlipIsTransition(th);
    FlipEntry(env.text, w.store, th);
    if th.client == client && th.to == Offboarded {
      if outcome.Ok? {
        var log := sys'.world.store.auditLog;
        FlippedByEntry(log, |w.store.auditLog|, client);
        assert sys'.threads[pid].pc == ToPurge;
        assert Owed(sys', client);
      } else {
        ThreadMoveKeepsDebt(sys, pid, AfterFlip(th, outcome), client);
      }
    } else {
      ThreadMoveKeepsDebt(sys, pid, AfterFlip(th, outcome), client);
      CallKeepsDebt(env, sys.(threads := Moved(sys, pid, AfterFlip(th, outcome))), FlipCall(th), w.drawn, client);
      DebtIgnoresActivations(
        sys.(world := Issued(env, w, FlipCall(th), w.drawn), threads := Moved(sys, pid, AfterFlip(th, outcome))),
        sys'.activations, client);
    }
  }

  lemma FlipIsTransition(th: Thread)
    ensures FlipCall(th).TransitionClient? && FlipCall(th).client == th.client && FlipCall(th).to == th.to
  {
  }

  lemma FlippedByEntry(log: seq<AuditEntry>, i: nat, client: string)
    requires i < |log| && IsOffboarding(log[i], client)
    ensures FlippedOff(log, client)
  {
  }

  lemma DebtIgnoresActivations(sys: System, activations: seq<Activation>, client: string)
    requires DebtTracked(sys, client)
    ensures DebtTracked(sys.(activations := activations), client)
  {
    hide FlippedOff, PurgedAfterFlip;
    var sys' := sys.(activations := activations);
    assert Owed(sys, client) ==> Owed(sys', client);
    assert Reported(sys, client) ==> Reported(sys', client);
  }

  /** Moving a thread that owed nothing, or recording its failed purge, keeps the debt tracked. */
  lemma ThreadMoveKeepsDebt(sys: System, pid: nat, pc: Pc, client: string)
    requires DebtTracked(sys, client) && pid in sys.threads
    requires sys.threads[pid].pc == ToPurge ==> pc == Returned(Failed(PurgeFault))
    requires !sys.threads[pid].pc.Returned?
    ensures DebtTracked(sys.(threads := Moved(sys, pid, pc)), client)
  {
    hide FlippedOff, PurgedAfterFlip;
    var sys' := sys.(threads := Moved(sys, pid, pc));
    if p :| p in sys.threads && sys.threads[p].client == client && sys.threads[p].pc == ToPurge {
      assert p in sys'.threads && sys'.threads[p].client == client;
    }
    if p :| p in sys.threads && sys.threads[p].client == client && sys.threads[p].pc == Returned(Failed(PurgeFault)) {
      assert p in sys'.threads && sys'.threads[p] == sys.threads[p];
    }
  }

  lemma PurgeOutcome(t: TextRules, s: State, client: string)
    requires client in s.clients && s.clients[client].status == Offboarded
    ensures var (s', outcome) := Apply(t, s, PurgeOffboarded(client, ACTOR));
            && outcome == DONE
            && s'.clients == s.clients
            && exists e :: s'.auditLog == s.auditLog + [e] && IsPurgeEntry(e, client)
  {
    hide MintedId, Purged;
    var s' := Apply(t, s, PurgeOffboarded(client, ACTOR)).0;
    assert s'.auditLog == s.auditLog + [s'.auditLog[|s.auditLog|]];
  }

  /** A purge that runs pays the debt: it succeeds, the status stays, nothing flips again. */
  lemma PurgeClearsDebt(env: Env, sys: System, pid: nat)
    requires SystemGood(env, sys) && pid in sys.threads && sys.threads[pid].pc == ToPurge
    requires DebtTracked(sys, sys.threads[pid].client)
    ensures var client := sys.threads[pid].client;
            var sys' := Advanced(env, sys, pid, false);
            && pid in sys'.threads && sys'.threads[pid].pc == Returned(Done)
            && PurgedAfterFlip(sys'.world.store.auditLog, client)
            && sys'.world.store.clients == sys.world.store.clients
            && Chain(sys'.world.store.auditLog, client) == Chain(sys.world.store.auditLog, client)
  {
    hide Apply, MintedId, Good, FlippedOff, PurgedAfterFlip, Chain;
    var client, s := sys.threads[pid].client, sys.world.store;
    assert ThreadGood(env, s, sys.threads[pid]);
    PurgeOutcome(env.text, s, client);
    var s' := Apply(env.text, s, PurgeOffboarded(client, ACTOR)).0;
    var e :| s'.auditLog == s.auditLog + [e] && IsPurgeEntry(e, client);
    PurgeEntryPays(s.auditLog, e, client);
    ChainAppend(s.auditLog, e, client);
    assert Chain(s.auditLog, client) + [] == Chain(s.auditLog, client);
  }

  lemma PurgeKeepsDebt(env: Env, sys: System, pid: nat, client: string)
    requires SystemGood(env, sys) && pid in sys.threads && sys.threads[pid].pc == ToPurge
    requires DebtTracked(sys, client)
    ensures DebtTracked(Advanced(env, sys, pid, false), client)
  {
    hide Apply, MintedId, Good, FlippedOff, PurgedAfterFlip, Known, ThreadGood, Valid;
    var th, w := sys.threads[pid], sys.world;
    var purge := PurgeOffboarded(th.client, ACTOR);
    GoodIsValid(env, w);
    CallKeepsDebt(env, sys, purge, w.drawn, client);
    if th.client == client {
      PurgeClearsDebt(env, sys, pid);
    } else {
      var issued := sys.(world := Issued(env, w, purge, w.drawn));
      OtherThreadMoves(issued, pid, AfterPurge(Apply(env.text, w.store, purge).1), client);
    }
  }

  lemma OtherThreadMoves(sys: System, pid: nat, pc: Pc, client: string)
    requires DebtTracked(sys, client) && pid in sys.threads && sys.threads[pid].client != client
    ensures DebtTracked(sys.(threads := Moved(sys, pid, pc)), client)
  {
    hide FlippedOff, PurgedAfterFlip;
    var sys' := sys.(threads := Moved(sys, pid, pc));
    if p :| p in sys.threads && sys.threads[p].client == client && sys.threads[p].pc == ToPurge {
      assert p in sys'.threads && sys'.threads[p] == sys.threads[p];
    }
    if p :| p in sys.threads && sys.threads[p].client == client && sys.threads[p].pc == Returned(Failed(PurgeFault)) {
      assert p in sys'.threads && sys'.threads[p] == sys.threads[p];
    }
  }

  lemma AdvanceKeepsDebt(env: Env, sys: System, pid: nat, fault: bool, client: string)
    requires SystemGood(env, sys) && DebtTracked(sys, client) && pid in sys.threads
    ensures DebtTracked(Advanced(env, sys, pid, fault), client)
  {
    var th, w := sys.threads[pid], sys.world;
    GoodIsValid(env, w);
    if th.pc.ToFlip? && !fault {
      FlipKeepsDebt(env, sys, pid, client);
    } else if th.pc.ToPurge? && !fault {
      PurgeKeepsDebt(env, sys, pid, client);
    } else {
      hide SystemGood, DebtTracked, AfterRead, AfterList, Apply, Issued;
      match th.pc
      case Returned(_) =>
      case ToPurge => ThreadMoveKeepsDebt(sys, pid, Returned(Failed(PurgeFault)), client);
      case ToFlip(_) => ThreadMoveKeepsDebt(sys, pid, Returned(Failed(StoreError(Internal))), client);
      case ToList(seen) =>
        ThreadMoveKeepsDebt(
          sys, pid, if fault then Returned(Failed(StoreError(Internal))) else AfterList(env, w.store, th, seen),
          client);
      case ToRead =>
        ThreadMoveKeepsDebt(
          sys, pid, if fault then Returned(Failed(StoreError(Internal))) else AfterRead(env, w.store, th), client);
    }
  }

  lemma SpawnKeepsDebt(sys: System, pid: nat, th: Thread, client: string)
    requires DebtTracked(sys, client) && pid !in sys.threads
    ensures DebtTracked(sys.(threads := sys.threads[pid := th]), client)
  {
    hide FlippedOff, PurgedAfterFlip;
    var sys' := sys.(threads := sys.threads[pid := th]);
    if p :| p in sys.threads && sys.threads[p].client == client && sys.threads[p].pc == ToPurge {
      assert p in sys'.threads && sys'.threads[p] == sys.threads[p];
    }
    if p :| p in sys.threads && sys.threads[p].client == client && sys.threads[p].pc == Returned(Failed(PurgeFault)) {
      assert p in sys'.threads && sys'.threads[p] == sys.threads[p];
    }
  }

  lemma OtherKeepsDebt(env: Env, sys: System, req: Request, client: string)
    requires Valid(sys.world.store) && DebtTracked(sys, client) && !req.Transit?
    ensures DebtTracked(sys.(world := Handle(env, sys.world, req)), client)
  {
    hide Valid, Issued, Prepare, FlippedOff, PurgedAfterFlip, WizardForms.DrawnBy;
    var w := sys.world;
    match Prepare(env, w.drawn, req)
    case Bounce(_) =>
      var sys' := sys.(world := w.(drawn := DrawnAfter(env, w.drawn, req)));
      assert Owed(sys, client) ==> Owed(sys', client);
      assert Reported(sys, client) ==> Reported(sys', client);
    case Issue(call) =>
      PreparedIsPaid(env, w, req);
      CallKeepsDebt(env, sys, call, DrawnAfter(env, w.drawn, req), client);
  }

  /**
    Main result: in every interleaving, with any purges failing, each offboarded client has a
    purge entry after its flip, or a call in flight that still owes the purge, or a purge
    failure that was returned to a caller.
   */
  lemma {:induction false} PurgeIsNeverForgotten(env: Env, steps: seq<Step>, client: string)
    ensures DebtTracked(RunSteps(env, steps), client)
  {
    hide Next, SystemGood, DebtTracked;
    if steps == [] {
      NothingOwed(client);
    } else {
      var front := steps[..|steps| - 1];
      PurgeIsNeverForgotten(env, front, client);
      EverySystemIsGood(env, front);
      NextKeepsDebt(env, RunSteps(env, front), steps[|steps| - 1], client);
    }
  }

  lemma NothingOwed(client: string)
    ensures DebtTracked(IDLE, client)
  {
  }

  lemma NextKeepsDebt(env: Env, sys: System, step: Step, client: string)
    requires SystemGood(env, sys) && DebtTracked(sys, client)
    ensures DebtTracked(Next(env, sys, step), client)
  {
    hide DebtTracked, Advanced, Handle, Good, ThreadGood, Known, Valid;
    match step
    case Spawn(pid, c, to, evidenceRef, reason) =>
      if pid !in sys.threads && to != OtherStatus("") {
        SpawnKeepsDebt(sys, pid, Thread(c, to, evidenceRef, reason, FirstPc(to)), client);
      }
    case Advance(pid, fault) =>
      if pid in sys.threads {
        AdvanceKeepsDebt(env, sys, pid, fault, client);
      }
    case Other(req) =>
      if !req.Transit? {
        GoodIsValid(env, sys.world);
        OtherKeepsDebt(env, sys, req, client);
      }
  }

  lemma OffboardedReadGoesToPurge(env: Env, sys: System, pid: nat)
    requires pid in sys.threads && sys.threads[pid].pc == ToRead && sys.threads[pid].to == Offboarded
    requires var client := sys.threads[pid].client;
             client in sys.world.store.clients && sys.world.store.clients[client].status == Offboarded
    ensures var sys' := Advanced(env, sys, pid, false);
            sys'.world == sys.world && pid in sys'.threads && sys'.threads[pid] == sys.threads[pid].(pc := ToPurge)
  {
  }

  lemma FinishFromRead(env: Env, sys: System, pid: nat)
    requires pid in sys.threads && sys.threads[pid].pc == ToRead
    requires var reading := Advanced(env, sys, pid, false);
             && pid in reading.threads && reading.threads[pid].pc == ToPurge
             && var purged := Advanced(env, reading, pid, false);
                pid in purged.threads && purged.threads[pid].pc.Returned?
    ensures Finish(env, sys, pid, false) == Advanced(env, Advanced(env, sys, pid, false), pid, false)
  {
    hide Advanced;
    var reading := Advanced(env, sys, pid, false);
    var purged := Advanced(env, reading, pid, false);
    assert Finish(env, purged, pid, false) == purged;
    assert Finish(env, reading, pid, false) == Finish(env, purged, pid, false);
  }

  lemma SpawnedOffboarding(env: Env, sys: System, pid: nat, client: string, evidenceRef: string, reason: string)
    requires pid !in sys.threads
    ensures var spawned := Next(env, sys, Spawn(pid, client, Offboarded, evidenceRef, reason));
            && spawned.world == sys.world
            && pid in spawned.threads && spawned.threads[pid] == Thread(client, Offboarded, evidenceRef, reason, ToRead)
  {
  }

  /**
    A later offboarding of an offboarded client goes straight to the purge; left alone, it
    pays the debt and the recorded lifecycle is unchanged.
   */
  lemma RetryPaysWithoutSecondFlip(env: Env, steps: seq<Step>, pid: nat, client: string, evidenceRef: string,
                                   reason: string)
    requires var sys := RunSteps(env, steps);
             && pid !in sys.threads
             && client in sys.world.store.clients && sys.world.store.clients[client].status == Offboarded
    ensures var sys := RunSteps(env, steps);
            var sys' := Finish(env, Next(env, sys, Spawn(pid, client, Offboarded, evidenceRef, reason)), pid, false);
            && pid in sys'.threads && sys'.threads[pid].pc == Returned(Done)
            && PurgedAfterFlip(sys'.world.store.auditLog, client)
            && Chain(sys'.world.store.auditLog, client) == Chain(sys.world.store.auditLog, client)
  {
    hide RunSteps, SystemGood, DebtTracked, Chain, PurgedAfterFlip, Next, Advanced, Finish;
    var sys := RunSteps(env, steps);
    var spawn := Spawn(pid, client, Offboarded, evidenceRef, reason);
    var spawned := Next(env, sys, spawn);
    EverySystemIsGood(env, steps);
    PurgeIsNeverForgotten(env, steps, client);
    SpawnedOffboarding(env, sys, pid, client, evidenceRef, reason);
    NextKeepsSystemGood(env, sys, spawn);
    NextKeepsDebt(env, sys, spawn, client);
    OffboardedReadGoesToPurge(env, spawned, pid);
    AdvanceKeepsSystemGood(env, spawned, pid, false);
    AdvanceKeepsDebt(env, spawned, pid, false, client);
    PurgeClearsDebt(env, Advanced(env, spawned, pid, false), pid);
    FinishFromRead(env, spawned, pid);
  }

  // ---- The same with any steps of other calls in between ----

  /** In any interleaving, a call that owes the purge pays by taking its step: success, no second flip. */
  lemma PurgeStepPays(env: Env, steps: seq<Step>, pid: nat)
    requires pid in RunSteps(env, steps).threads && RunSteps(env, steps).threads[pid].pc == ToPurge
    ensures var sys, sys' := RunSteps(env, steps), RunSteps(env, steps + [Advance(pid, false)]);
            var client := sys.threads[pid].client;
            && pid in sys'.threads && sys'.threads[pid].pc == Returned(Done)
            && PurgedAfterFlip(sys'.world.store.auditLog, client)
            && sys'.world.store.clients == sys.world.store.clients
            && Chain(sys'.world.store.auditLog, client) == Chain(sys.world.store.auditLog, client)
  {
    hide SystemGood, DebtTracked, Chain, PurgedAfterFlip, Advanced;
    var sys := RunSteps(env, steps);
    assert (steps + [Advance(pid, false)])[..|steps|] == steps;
    EverySystemIsGood(env, steps);
    PurgeIsNeverForgotten(env, steps, sys.threads[pid].client);
    PurgeClearsDebt(env, sys, pid);
  }

  /** An offboarding call that returned success has its client's purge in the log, after the flip. */
  ghost predicate PaidWhenDone(sys: System, pid: nat) {
    pid in sys.threads && sys.threads[pid].to == Offboarded && sys.threads[pid].pc == Returned(Done) ==>
      PurgedAfterFlip(sys.world.store.auditLog, sys.threads[pid].client)
  }

  lemma IssueGrowsLog(env: Env, w: World, call: Call, drawn: nat)
    ensures w.store.auditLog <= Issued(env, w, call, drawn).store.auditLog
  {
    hide Apply;
    LogStep(env.text, w.store, call);
  }

  lemma NextGrowsLog(env: Env, sys: System, step: Step)
    ensures sys.world.store.auditLog <= Next(env, sys, step).world.store.auditLog
  {
    hide Issued, Apply, AfterRead, AfterList, FlipCall, Prepare, DrawnAfter;
    match step
    case Spawn(_, _, _, _, _) =>
    case Advance(pid, fault) =>
      if pid in sys.threads {
        IssueGrowsLog(env, sys.world, FlipCall(sys.threads[pid]), sys.world.drawn);
        IssueGrowsLog(env, sys.world, PurgeOffboarded(sys.threads[pid].client, ACTOR), sys.world.drawn);
      }
    case Other(req) =>
      if !req.Transit? && Prepare(env, sys.world.drawn, req).Issue? {
        IssueGrowsLog(env, sys.world, Prepare(env, sys.world.drawn, req).call, DrawnAfter(env, sys.world.drawn, req));
      }
  }

  /** The only way an offboarding call comes to return success is its purge step. */
  lemma DoneByPurging(env: Env, sys: System, step: Step, pid: nat)
    requires pid in Next(env, sys, step).threads
    requires var th := Next(env, sys, step).threads[pid]; th.to == Offboarded && th.pc == Returned(Done)
    ensures pid in sys.threads && sys.threads[pid].to == Offboarded
    ensures sys.threads[pid].client == Next(env, sys, step).threads[pid].client
    ensures sys.threads[pid].pc == Returned(Done) || (sys.threads[pid].pc == ToPurge && step == Advance(pid, false))
  {
    hide Issued, Apply, HasIdentity, AnyNonRevoked, Handle;
  }

  lemma NextKeepsPaid(env: Env, sys: System, step: Step, pid: nat)
    requires SystemGood(env, sys) && PaidWhenDone(sys, pid)
    requires forall client :: DebtTracked(sys, client)
    ensures PaidWhenDone(Next(env, sys, step), pid)
  {
    hide SystemGood, DebtTracked, PurgedAfterFlip, Next;
    var sys' := Next(env, sys, step);
    if pid in sys'.threads && sys'.threads[pid].to == Offboarded && sys'.threads[pid].pc == Returned(Done) {
      DoneByPurging(env, sys, step, pid);
      if sys.threads[pid].pc == ToPurge {
        PurgeClearsDebt(env, sys, pid);
        NextIsAdvanced(env, sys, pid);
      } else {
        NextGrowsLog(env, sys, step);
        LogGrowthKeeps(sys.world.store.auditLog, sys'.world.store.auditLog, sys.threads[pid].client);
      }
    }
  }

  lemma NextIsAdvanced(env: Env, sys: System, pid: nat)
    requires pid in sys.threads
    ensures Next(env, sys, Advance(pid, false)) == Advanced(env, sys, pid, false)
  {
    hide Advanced;
  }

  lemma {:induction false} DoneCallsHavePaid(env: Env, steps: seq<Step>, pid: nat)
    ensures PaidWhenDone(RunSteps(env, steps), pid)
  {
    hide Next, SystemGood, DebtTracked, PaidWhenDone;
    if steps == [] {
      NobodyIsDone(pid);
    } else {
      var front := steps[..|steps| - 1];
      DoneCallsHavePaid(env, front, pid);
      EverySystemIsGood(env, front);
      forall client
        ensures DebtTracked(RunSteps(env, front), client)
      {
        PurgeIsNeverForgotten(env, front, client);
      }
      NextKeepsPaid(env, RunSteps(env, front), steps[|steps| - 1], pid);
    }
  }

  lemma NobodyIsDone(pid: nat)
    ensures PaidWhenDone(IDLE, pid)
  {
  }

  lemma GoodLogIsPath(env: Env, w: World, client: string)
    requires Good(env, w)
    ensures IsPath(Chain(w.store.auditLog, client))
  {
    hide Valid, Run, Chain, UsesLive, IsPath;
    forall i | 0 <= i < |w.history|
      ensures Honest(w.history[i])
    {
      assert Clean(w.history[i]);
    }
    ChainMatchesState(env.text, w.history, client);
  }

  /**
    Whatever steps of other calls intervened and whatever failed, an offboarding call that
    returned success, first or repeated, has a purge of its client after the flip in the
    log, and the log holds no other flip.
   */
  lemma SuccessfulOffboardingIsPurgedOnce(env: Env, steps: seq<Step>, pid: nat)
    requires var threads := RunSteps(env, steps).threads;
             pid in threads && threads[pid].to == Offboarded && threads[pid].pc == Returned(Done)
    ensures var log := RunSteps(env, steps).world.store.auditLog;
            var client := RunSteps(env, steps).threads[pid].client;
            && PurgedAfterFlip(log, client)
            && forall i, j :: 0 <= i < j < |log| && IsOffboarding(log[i], client) ==> !IsOffboarding(log[j], client)
  {
    hide RunSteps, Good, ThreadGood, Known, Chain, IsPath, PurgedAfterFlip, IsOffboarding;
    var sys := RunSteps(env, steps);
    var log, client := sys.world.store.auditLog, sys.threads[pid].client;
    DoneCallsHavePaid(env, steps, pid);
    EverySystemIsGood(env, steps);
    GoodLogIsPath(env, sys.world, client);
    forall i, j | 0 <= i < j < |log| && IsOffboarding(log[i], client)
      ensures !IsOffboarding(log[j], client)
    {
      OffboardedOnce(log, client, i, j);
    }
  }
}
