/** The signed-request flag inside a client's stored policy. */
module PolicyRuns {
  import opened Ids
  import opened Registry
  import opened RegistryInvariants
  import opened Slugs
  import opened Values

  predicate IsMode(mode: string) {
    mode == SIGNED || mode == UNSIGNED
  }

  /** The merge succeeds exactly on a missing policy or an object; null panics, the rest is refused. */
  lemma MergeSucceedsIff(policy: RawJson, mode: string)
    requires IsMode(mode)
    ensures MergeMode(policy, mode).1 == DONE <==> policy.NoText? || (policy.Parsed? && policy.value.Object?)
    ensures MergeMode(policy, mode).1 == Err(Panic) <==> policy == Parsed(Null)
    ensures MergeMode(policy, mode).1 == DONE ==> StoredMode(MergeMode(policy, mode).0) == mode
  {
  }

  /** A sequence of merges, each on the result of the one before. */
  function MergeAll(policy: RawJson, modes: seq<string>): RawJson {
    if modes == [] then policy else MergeMode(MergeAll(policy, modes[..|modes| - 1]), modes[|modes| - 1]).0
  }

  /**
    From any object policy, any sequence of mode calls keeps an object, keeps every other
    key, and reads back as the last mode set.
   */
  lemma {:induction false} MergesTouchOnlyTheFlag(fields: map<string, Json>, modes: seq<string>)
    requires forall i :: 0 <= i < |modes| ==> IsMode(modes[i])
    ensures var result := MergeAll(Parsed(Object(fields)), modes);
            && result.Parsed? && result.value.Object?
            && result.value.fields - {SIGNED_FLAG} == fields - {SIGNED_FLAG}
            && (modes != [] ==> StoredMode(result) == modes[|modes| - 1])
  {
    if modes == [] {
    } else {
      MergesTouchOnlyTheFlag(fields, modes[..|modes| - 1]);
    }
  }

  /** The last mode a run set on one client. */
  function LastMode(t: TextRules, calls: seq<Call>, client: string): Option<string> {
    if calls == [] then None
    else
      var front, last := calls[..|calls| - 1], calls[|calls| - 1];
      if last.SetClientDcapiMode? && last.client == client && Apply(t, Run(t, front), last).1.Ok? then Some(last.mode)
      else LastMode(t, front, client)
  }

  function PolicyFor(mode: Option<string>): RawJson {
    Parsed(Object(if mode.None? then map[] else map["require_signed_dcapi" := Bool(mode.value == "signed")]))
  }

  ghost predicate PolicyMatches(s: State, client: string, mode: Option<string>) {
    && (client in s.clients ==> s.clients[client].policy == PolicyFor(mode))
    && (mode.Some? ==> IsMode(mode.value))
    && (client !in s.clients ==> mode.None?)
  }

  lemma PolicyStep(t: TextRules, s: State, call: Call, client: string, mode: Option<string>)
    requires PolicyMatches(s, client, mode) && Valid(s)
    ensures var (s', outcome) := Apply(t, s, call);
            PolicyMatches(s', client,
              if call.SetClientDcapiMode? && call.client == client && outcome.Ok? then Some(call.mode) else mode)
  {
    hide Apply, MintedId, Valid, SetterWrite, IsMode;
    if client in s.clients {
      RowStep(t, s, call, client);
      if IsSetter(call) && call.client == client {
        SetterPolicy(t, s, call, mode);
      }
    } else {
      if call.SetClientDcapiMode? && call.client == client {
        ModeCallNeedsClient(t, s, call);
      }
      if client in Apply(t, s, call).0.clients {
        NewRowStep(t, s, call, client);
        NewClientPolicy(t, client, call.name, call.email);
      }
    }
  }

  lemma NewClientPolicy(t: TextRules, id: string, name: string, email: string)
    ensures NewClient(t, id, name, email).policy == PolicyFor(None)
  {
    hide Slugify;
  }

  lemma ModeCallNeedsClient(t: TextRules, s: State, call: Call)
    requires call.SetClientDcapiMode? && call.client !in s.clients
    ensures Apply(t, s, call).1.Err?
  {
  }

  lemma SetterPolicy(t: TextRules, s: State, call: Call, mode: Option<string>)
    requires IsSetter(call) && call.client in s.clients && PolicyMatches(s, call.client, mode)
    ensures SetterWrite(s, call).0.policy
         == if call.SetClientDcapiMode? then PolicyFor(Some(call.mode)) else PolicyFor(mode)
    ensures call.SetClientDcapiMode? && Apply(t, s, call).1.Ok? ==> IsMode(call.mode)
  {
    hide MintedId;
    if call.SetClientDcapiMode? {
      assert PolicyFor(mode).value.fields[SIGNED_FLAG := Bool(call.mode == SIGNED)]
          == PolicyFor(Some(call.mode)).value.fields;
    }
  }

  /**
    In every run a client's policy is an object that holds the flag exactly when some mode
    call succeeded; the mode read back is the last one set, or signed if there was none.
   */
  lemma {:induction false} PolicyFollowsModeCalls(t: TextRules, calls: seq<Call>, client: string)
    ensures PolicyMatches(Run(t, calls), client, LastMode(t, calls, client))
    ensures client in Run(t, calls).clients ==>
              StoredMode(Run(t, calls).clients[client].policy)
                == match LastMode(t, calls, client) case Some(mode) => mode case None => SIGNED
  {
    hide Apply, Valid;
    if calls == [] {
    } else {
      var front, last := calls[..|calls| - 1], calls[|calls| - 1];
      PolicyFollowsModeCalls(t, front, client);
      RunIsValid(t, front);
      PolicyStep(t, Run(t, front), last, client, LastMode(t, front, client));
    }
  }

  /** So the merge's error branches are unreachable: a mode call fails only on its arguments. */
  lemma ModeCallFailsOnlyOnArguments(t: TextRules, calls: seq<Call>, client: string, mode: string, actor: string)
    ensures var s := Run(t, calls);
            SetDcapiMode(s, client, mode, actor).1
              == if !IsMode(mode) then Err(Invalid) else if client !in s.clients then Err(NotFound) else DONE
  {
    hide Run, LastMode, Audit;
    PolicyFollowsModeCalls(t, calls, client);
  }
}
