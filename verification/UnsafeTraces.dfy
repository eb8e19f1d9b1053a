/**
  Interleaved activation is safe exactly when no activating call read an early status: for
  each early status there is a run that leaves an active client without any identity.
 */
module UnsafeTraces {
  import opened Api
  import opened ApiSafety
  import opened AuditChain
  import opened Ids
  import opened Interleaving
  import opened InterleavedSafety
  import opened Lifecycle
  import opened Registry
  import opened Slugs
  import opened Values

  predicate Onboarding(status: Status) {
    Early(status) || status == Registered
  }

  /** The position of an onboarding status, also used as the id of the call that reaches it. */
  function Position(status: Status): nat
    requires Onboarding(status)
  {
    match status case Draft => 0 case EvidenceSubmitted => 1 case FiledWithRegistrar => 2 case Registered => 3
  }

  function Previous(status: Status): (p: Status)
    requires Onboarding(status) && status != Draft
    ensures Early(p) && Position(p) + 1 == Position(status) && Legal(p, status)
  {
    match status
    case EvidenceSubmitted => Draft
    case FiledWithRegistrar => EvidenceSubmitted
    case Registered => FiledWithRegistrar
  }

  /**
    Creates one client and moves it to status; if waiting is a status, call 0 starts an
    activation and reads while the client is there, and then waits.
   */
  function TraceTo(status: Status, waiting: Option<Status>): seq<Step>
    requires Onboarding(status)
    decreases Position(status), if waiting == Some(status) then 1 else 0
  {
    if waiting == Some(status) then
      TraceTo(status, None) + [Spawn(0, MintedId(1), Active, "", "")] + [Advance(0, false)]
    else if status == Draft then [Other(CreateClient("client", ""))]
    else
      TraceTo(Previous(status), waiting)
        + [Spawn(Position(status), MintedId(1), status, "", "")] + [Advance(Position(status), false)]
  }

  /** The waiting call flips only now, past the registered client's missing identity. */
  function UnsafeTrace(read: Status): seq<Step> {
    TraceTo(Registered, Some(read)) + [Advance(0, false)]
  }

  ghost predicate At(sys: System, id: string, status: Status, waiting: Option<Status>)
    requires Onboarding(status)
  {
    && id in sys.world.store.clients
    && sys.world.store.clients[id].status == status
    && sys.world.store.clients[id].clientIdentifier == ""
    && sys.activations == []
    && (forall pid :: pid in sys.threads ==> pid <= Position(status))
    && (waiting.None? ==> 0 !in sys.threads)
    && (waiting.Some? ==> 0 in sys.threads && sys.threads[0] == Thread(id, Active, "", "", ToFlip(waiting)))
  }

  lemma StepAppend(env: Env, steps: seq<Step>, step: Step)
    ensures RunSteps(env, steps + [step]) == Next(env, RunSteps(env, steps), step)
  {
    hide Next;
    assert (steps + [step])[..|steps + [step]| - 1] == steps;
  }

  lemma CreateAt(env: Env)
    ensures At(RunSteps(env, [Other(CreateClient("client", ""))]), MintedId(1), Draft, None)
  {
    hide MintedId, Slugify, Next;
    StepAppend(env, [], Other(CreateClient("client", "")));
    assert [] + [Other(CreateClient("client", ""))] == [Other(CreateClient("client", ""))];
    CreateFromIdle(env);
  }

  lemma CreateFromIdle(env: Env)
    ensures At(Next(env, IDLE, Other(CreateClient("client", ""))), MintedId(1), Draft, None)
  {
    hide MintedId, Slugify;
    assert RunSteps(env, []) == IDLE;
  }

  lemma FlipRow(t: TextRules, s: State, th: Thread)
    requires th.client in s.clients && Legal(s.clients[th.client].status, th.to)
    ensures var (s', outcome) := Apply(t, s, FlipCall(th));
            && outcome == DONE
            && s'.clients == s.clients[th.client := s.clients[th.client].(status := th.to)]
            && |s'.auditLog| == |s.auditLog| + 1
            && IsTransitionOf(s'.auditLog[|s.auditLog|], th.client)
            && s'.auditLog[|s.auditLog|].detail.to == th.to
  {
    hide MintedId;
  }

  lemma PushAt(env: Env, sys: System, id: string, from: Status, to: Status, waiting: Option<Status>)
    requires Onboarding(to) && to != Draft && from == Previous(to)
    requires At(sys, id, from, waiting)
    ensures var spawned := Next(env, sys, Spawn(Position(to), id, to, "", ""));
            At(Next(env, spawned, Advance(Position(to), false)), id, to, waiting)
  {
    hide MintedId, Apply, FlipCall;
    FlipRow(env.text, sys.world.store, Thread(id, to, "", "", ToFlip(None)));
  }

  lemma WaitAt(env: Env, sys: System, id: string, status: Status)
    requires Early(status) && At(sys, id, status, None)
    ensures var spawned := Next(env, sys, Spawn(0, id, Active, "", ""));
            At(Next(env, spawned, Advance(0, false)), id, status, Some(status))
  {
    hide MintedId, HasIdentity;
  }

  lemma {:induction false} TraceReaches(env: Env, status: Status, waiting: Option<Status>)
    requires Onboarding(status)
    requires waiting.Some? ==> Early(waiting.value) && Position(waiting.value) <= Position(status)
    ensures At(RunSteps(env, TraceTo(status, waiting)), MintedId(1), status, waiting)
    decreases Position(status), if waiting == Some(status) then 1 else 0
  {
    hide MintedId, Next, At, RunSteps;
    var id := MintedId(1);
    if waiting == Some(status) {
      var front := TraceTo(status, None);
      TraceReaches(env, status, None);
      StepAppend(env, front, Spawn(0, id, Active, "", ""));
      StepAppend(env, front + [Spawn(0, id, Active, "", "")], Advance(0, false));
      WaitAt(env, RunSteps(env, front), id, status);
    } else if status == Draft {
      CreateAt(env);
    } else {
      var front := TraceTo(Previous(status), waiting);
      TraceReaches(env, Previous(status), waiting);
      StepAppend(env, front, Spawn(Position(status), id, status, "", ""));
      StepAppend(env, front + [Spawn(Position(status), id, status, "", "")], Advance(Position(status), false));
      PushAt(env, RunSteps(env, front), id, Previous(status), status, waiting);
    }
  }

  lemma LateFlip(env: Env, sys: System, id: string, read: Status)
    requires At(sys, id, Registered, Some(read))
    ensures var after := Next(env, sys, Advance(0, false));
            && after.activations == [Activation(id, Some(read))]
            && EverActive(after.world.store.auditLog, id)
            && !Ready(env.checks, after.world.store, id)
  {
    hide MintedId, Apply, FlipCall;
    var th := sys.threads[0];
    FlipRow(env.text, sys.world.store, th);
    var after := Next(env, sys, Advance(0, false));
    var log := after.world.store.auditLog;
    assert IsTransitionOf(log[|sys.world.store.auditLog|], id);
    NoIdentityNotReady(env.checks, after.world.store, id);
  }

  lemma NoIdentityNotReady(checks: Checks, s: State, client: string)
    requires client in s.clients && s.clients[client].clientIdentifier == ""
    ensures !Ready(checks, s, client)
  {
  }

  /** The race is real: for each early status, a concrete run activates a client that is not ready. */
  lemma EarlyReadCanActivateUnready(env: Env, read: Status)
    requires Early(read)
    ensures var sys := RunSteps(env, UnsafeTrace(read));
            && sys.activations == [Activation(MintedId(1), Some(read))]
            && EverActive(sys.world.store.auditLog, MintedId(1))
            && !Ready(env.checks, sys.world.store, MintedId(1))
  {
    hide MintedId, Next, At, RunSteps, TraceTo, EverActive, Ready;
    TraceReaches(env, Registered, Some(read));
    StepAppend(env, TraceTo(Registered, Some(read)), Advance(0, false));
    LateFlip(env, RunSteps(env, TraceTo(Registered, Some(read))), MintedId(1), read);
  }

  /** In every run, a client activated only by calls that read an allowed status stays ready. */
  ghost predicate SafeUnder(env: Env, allowed: set<Status>) {
    forall steps, client ::
      ActivatedFrom(RunSteps(env, steps).activations, client, allowed)
      && EverActive(RunSteps(env, steps).world.store.auditLog, client)
      ==> Ready(env.checks, RunSteps(env, steps).world.store, client)
  }

  /** Main result: safe under exactly the sets of statuses that leave the early ones out. */
  lemma InterleavedSafetyIff(env: Env, allowed: set<Status>)
    ensures SafeUnder(env, allowed) <==> NoEarly(allowed)
  {
    hide RunSteps, EverActive, Ready, MintedId, UnsafeTrace;
    if NoEarly(allowed) {
      forall steps, client | ActivatedFrom(RunSteps(env, steps).activations, client, allowed)
                          && EverActive(RunSteps(env, steps).world.store.auditLog, client)
        ensures Ready(env.checks, RunSteps(env, steps).world.store, client)
      {
        ActivationIsSafe(env, steps, client, allowed);
      }
    } else {
      var read := if Draft in allowed then Draft
                  else if EvidenceSubmitted in allowed then EvidenceSubmitted
                  else FiledWithRegistrar;
      EarlyReadCanActivateUnready(env, read);
      assert ActivatedFrom(RunSteps(env, UnsafeTrace(read)).activations, MintedId(1), allowed);
    }
  }
}
