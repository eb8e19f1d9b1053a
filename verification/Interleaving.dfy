/**
  Any number of transition calls in flight, each store call one atomic step, any step able
  to fail, and the other handlers' writes in between.
 */
module Interleaving {
  import opened Api
  import opened ApiRuns
  import opened ApiSafety
  import opened Ids
  import opened IntendedUses
  import opened Lifecycle
  import opened Registry
  import opened Values

  /** The next store call of an in-flight transition, with the status it read, if it read one. */
  datatype Pc =
    | ToRead
    | ToList(seen: Status)
    | ToFlip(read: Option<Status>)
    | ToPurge
    | Returned(result: Result)

  datatype Thread = Thread(client: string, to: Status, evidenceRef: string, reason: string, pc: Pc)

  /** A flip to active that took effect, with the status its call had read. */
  datatype Activation = Activation(client: string, read: Option<Status>)

  datatype System = System(world: World, threads: map<nat, Thread>, activations: seq<Activation>)

  datatype Step =
    | Spawn(pid: nat, client: string, to: Status, evidenceRef: string, reason: string)
    | Advance(pid: nat, fault: bool)
    | Other(req: Request)

  const IDLE := System(START, map[], [])

  function FirstPc(to: Status): Pc {
    if to == Active || to == Offboarded then ToRead else ToFlip(None)
  }

  function AfterRead(env: Env, s: State, th: Thread): Pc {
    if th.client !in s.clients then Returned(Failed(StoreError(NotFound)))
    else
      var row := s.clients[th.client];
      if th.to == Active && (row.status == Registered || row.status == Suspended) then
        if HasIdentity(env.checks, row) then ToList(row.status) else Returned(Failed(RegistrarIdentityRequired))
      else if th.to == Offboarded && row.status == Offboarded then ToPurge
      else ToFlip(Some(row.status))
  }

  function AfterList(env: Env, s: State, th: Thread, seen: Status): Pc {
    if !AnyNonRevoked(UsesOf(s, th.client)) then Returned(Failed(IntendedUseRequired))
    else if !env.checks.ts5Ok(th.client) then Returned(Failed(Ts5CheckFailed))
    else ToFlip(Some(seen))
  }

  function FlipCall(th: Thread): Call {
    TransitionClient(th.client, th.to, ACTOR, th.evidenceRef, th.reason)
  }

  function AfterFlip(th: Thread, outcome: Outcome): Pc {
    if outcome.Err? then Returned(Failed(StoreError(outcome.error)))
    else if th.to == Offboarded then ToPurge
    else Returned(Done)
  }

  function AfterPurge(outcome: Outcome): Pc {
    Returned(if outcome.Ok? then Done else Failed(StoreError(outcome.error)))
  }

  function Moved(sys: System, pid: nat, pc: Pc): map<nat, Thread>
    requires pid in sys.threads
  {
    sys.threads[pid := sys.threads[pid].(pc := pc)]
  }

  /** One store call of one thread; a fault is a store call that fails without effect. */
  function Advanced(env: Env, sys: System, pid: nat, fault: bool): System
    requires pid in sys.threads
  {
    var th := sys.threads[pid];
    var w := sys.world;
    match th.pc
    case Returned(_) => sys
    case ToPurge =>
      if fault then sys.(threads := Moved(sys, pid, Returned(Failed(PurgeFault))))
      else
        var purge := PurgeOffboarded(th.client, ACTOR);
        sys.(world := Issued(env, w, purge, w.drawn),
             threads := Moved(sys, pid, AfterPurge(Apply(env.text, w.store, purge).1)))
    case ToFlip(read) =>
      if fault then sys.(threads := Moved(sys, pid, Returned(Failed(StoreError(Internal)))))
      else
        var outcome := Apply(env.text, w.store, FlipCall(th)).1;
        System(Issued(env, w, FlipCall(th), w.drawn), Moved(sys, pid, AfterFlip(th, outcome)),
               if outcome.Ok? && th.to == Active then sys.activations + [Activation(th.client, read)]
               else sys.activations)
    case ToList(seen) =>
      if fault then sys.(threads := Moved(sys, pid, Returned(Failed(StoreError(Internal)))))
      else sys.(threads := Moved(sys, pid, AfterList(env, w.store, th, seen)))
    case ToRead =>
      if fault then sys.(threads := Moved(sys, pid, Returned(Failed(StoreError(Internal)))))
      else sys.(threads := Moved(sys, pid, AfterRead(env, w.store, th)))
  }

  function Next(env: Env, sys: System, step: Step): System {
    match step
    case Spawn(pid, client, to, evidenceRef, reason) =>
      if pid in sys.threads || to == OtherStatus("") then sys
      else sys.(threads := sys.threads[pid := Thread(client, to, evidenceRef, reason, FirstPc(to))])
    case Advance(pid, fault) => if pid in sys.threads then Advanced(env, sys, pid, fault) else sys
    case Other(req) => if req.Transit? then sys else sys.(world := Handle(env, sys.world, req))
  }

  function RunSteps(env: Env, steps: seq<Step>): System {
    if steps == [] then IDLE else Next(env, RunSteps(env, steps[..|steps| - 1]), steps[|steps| - 1])
  }

  // ---- A call nobody interrupts is the service's transition ----

  function Rank(pc: Pc): nat {
    match pc case ToRead => 4 case ToList(_) => 3 case ToFlip(_) => 2 case ToPurge => 1 case Returned(_) => 0
  }

  lemma AdvanceLowersRank(env: Env, sys: System, pid: nat, fault: bool)
    requires pid in sys.threads && !sys.threads[pid].pc.Returned?
    ensures var sys' := Advanced(env, sys, pid, fault);
            pid in sys'.threads && Rank(sys'.threads[pid].pc) < Rank(sys.threads[pid].pc)
  {
    hide Apply, Issued, AnyNonRevoked, HasIdentity;
  }

  /** Runs one thread to its end, faulting its purge if asked to. */
  function Finish(env: Env, sys: System, pid: nat, purgeFails: bool): System
    requires pid in sys.threads
    decreases Rank(sys.threads[pid].pc)
  {
    var pc := sys.threads[pid].pc;
    if pc.Returned? then sys
    else
      var fault := pc.ToPurge? && purgeFails;
      AdvanceLowersRank(env, sys, pid, fault);
      Finish(env, Advanced(env, sys, pid, fault), pid, purgeFails)
  }

  /** The store and result a thread's remaining calls lead to when nothing intervenes. */
  function Remaining(env: Env, s: State, th: Thread, purgeFails: bool): (State, Result) {
    match th.pc
    case ToRead => ServiceTransition(env.checks, s, th.client, th.to, ACTOR, th.evidenceRef, th.reason, purgeFails)
    case ToList(seen) =>
      if AfterList(env, s, th, seen).Returned? then (s, AfterList(env, s, th, seen).result)
      else FlipAndPurge(s, th.client, th.to, ACTOR, th.evidenceRef, th.reason, purgeFails)
    case ToFlip(_) => FlipAndPurge(s, th.client, th.to, ACTOR, th.evidenceRef, th.reason, purgeFails)
    case ToPurge => PurgeWith(s, th.client, ACTOR, purgeFails)
    case Returned(result) => (s, result)
  }

  lemma AdvanceKeepsRemaining(env: Env, sys: System, pid: nat, purgeFails: bool)
    requires pid in sys.threads && !sys.threads[pid].pc.Returned?
    requires sys.threads[pid].pc.ToRead? ==> sys.threads[pid].to == Active || sys.threads[pid].to == Offboarded
    ensures var th := sys.threads[pid];
            var sys' := Advanced(env, sys, pid, th.pc.ToPurge? && purgeFails);
            && pid in sys'.threads
            && !sys'.threads[pid].pc.ToRead?
            && Remaining(env, sys'.world.store, sys'.threads[pid], purgeFails)
                 == Remaining(env, sys.world.store, th, purgeFails)
  {
    hide MintedId, Transition, Purge, AnyNonRevoked, HasIdentity, Listing;
  }

  lemma {:induction false} FinishReachesRemaining(env: Env, sys: System, pid: nat, purgeFails: bool)
    requires pid in sys.threads
    requires sys.threads[pid].pc.ToRead? ==> sys.threads[pid].to == Active || sys.threads[pid].to == Offboarded
    ensures var sys' := Finish(env, sys, pid, purgeFails);
            && pid in sys'.threads && sys'.threads[pid].pc.Returned?
            && Remaining(env, sys.world.store, sys.threads[pid], purgeFails)
                 == (sys'.world.store, sys'.threads[pid].pc.result)
    decreases Rank(sys.threads[pid].pc)
  {
    hide Advanced, ServiceTransition, FlipAndPurge, PurgeWith, AfterList;
    var pc := sys.threads[pid].pc;
    if pc.Returned? {
    } else {
      var fault := pc.ToPurge? && purgeFails;
      AdvanceLowersRank(env, sys, pid, fault);
      AdvanceKeepsRemaining(env, sys, pid, purgeFails);
      FinishReachesRemaining(env, Advanced(env, sys, pid, fault), pid, purgeFails);
    }
  }

  /** So the interleaved protocol refines the sequential one: uninterrupted, it is the same call. */
  lemma UninterruptedCallIsServiceTransition(env: Env, sys: System, spawn: Step, purgeFails: bool)
    requires spawn.Spawn? && spawn.pid !in sys.threads && spawn.to != OtherStatus("")
    ensures var sys' := Finish(env, Next(env, sys, spawn), spawn.pid, purgeFails);
            && spawn.pid in sys'.threads && sys'.threads[spawn.pid].pc.Returned?
            && (sys'.world.store, sys'.threads[spawn.pid].pc.result)
                 == ServiceTransition(env.checks, sys.world.store, spawn.client, spawn.to, ACTOR, spawn.evidenceRef,
                                      spawn.reason, purgeFails)
  {
    hide Finish, FlipAndPurge, PurgeWith, CheckActivation, HasIdentity;
    FinishReachesRemaining(env, Next(env, sys, spawn), spawn.pid, purgeFails);
  }
}
