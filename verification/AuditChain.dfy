/**
  The lifecycle as the audit log records it: the transition entries of a client form one
  legal path from draft to its current status, and the paths that occur are exactly the
  words of a small language.
 */
module AuditChain {
  import opened Ids
  import opened Registry
  import opened RegistryInvariants
  import opened Slugs

  datatype Edge = Edge(from: Status, to: Status)

  predicate IsTransitionOf(e: AuditEntry, client: string) {
    e.clientId == client && e.action == ClientTransition && e.detail.TransitionDetail?
  }

  /** The edges the log records for one client, oldest first. */
  function Chain(log: seq<AuditEntry>, client: string): seq<Edge> {
    if log == [] then []
    else
      var before, e := Chain(log[..|log| - 1], client), log[|log| - 1];
      if IsTransitionOf(e, client) then before + [Edge(e.detail.from, e.detail.to)] else before
  }

  function EndOf(edges: seq<Edge>): Status {
    if edges == [] then Draft else edges[|edges| - 1].to
  }

  /** A connected path of legal edges that starts at draft. */
  predicate IsPath(edges: seq<Edge>) {
    && (forall i :: 0 <= i < |edges| ==> Legal(edges[i].from, edges[i].to))
    && (forall i :: 0 <= i < |edges| ==> edges[i].from == EndOf(edges[..i]))
  }

  /** The log agrees with the stored statuses. */
  ghost predicate ChainMatches(s: State, client: string) {
    && IsPath(Chain(s.auditLog, client))
    && (client in s.clients ==> s.clients[client].status == EndOf(Chain(s.auditLog, client)))
    && (client !in s.clients ==> Chain(s.auditLog, client) == [])
  }

  /** The free-form append does not pose as the store's own transition entry. */
  predicate Honest(call: Call) {
    call.AppendAuditEntry? ==> call.action != ClientTransition
  }

  lemma ChainAppend(log: seq<AuditEntry>, e: AuditEntry, client: string)
    ensures Chain(log + [e], client)
         == Chain(log, client) + (if IsTransitionOf(e, client) then [Edge(e.detail.from, e.detail.to)] else [])
  {
    assert (log + [e])[..|log + [e]| - 1] == log;
  }

  lemma PathAppend(edges: seq<Edge>, e: Edge)
    requires IsPath(edges) && e.from == EndOf(edges) && Legal(e.from, e.to)
    ensures IsPath(edges + [e]) && EndOf(edges + [e]) == e.to
  {
    var longer := edges + [e];
    forall i | 0 <= i < |longer|
      ensures longer[i].from == EndOf(longer[..i])
    {
      assert longer[..i] == edges[..i];
      assert i == |edges| ==> edges[..i] == edges;
    }
  }

  /** Only a transition call changes the status of a stored client, and only its own. */
  lemma StatusStep(t: TextRules, s: State, call: Call, client: string)
    requires Valid(s) && client in s.clients
    requires call.TransitionClient? ==> call.client != client
    ensures var s' := Apply(t, s, call).0;
            client in s'.clients && s'.clients[client].status == s.clients[client].status
  {
    hide Apply, MintedId, Valid;
    RowStep(t, s, call, client);
  }

  lemma TransitionStep(s: State, client: string, to: Status, actor: string, evidenceRef: string, reason: string)
    requires ChainMatches(s, client)
    ensures ChainMatches(Transition(s, client, to, actor, evidenceRef, reason).0, client)
  {
    hide MintedId, Chain;
    var (s', outcome) := Transition(s, client, to, actor, evidenceRef, reason);
    if outcome.Ok? {
      var e := s'.auditLog[|s.auditLog|];
      assert s'.auditLog == s.auditLog + [e];
      ChainAppend(s.auditLog, e, client);
      PathAppend(Chain(s.auditLog, client), Edge(s.clients[client].status, to));
    }
  }

  lemma OtherCallStep(t: TextRules, s: State, call: Call, client: string)
    requires Valid(s) && ChainMatches(s, client) && Honest(call)
    requires !(call.TransitionClient? && call.client == client)
    ensures ChainMatches(Apply(t, s, call).0, client)
  {
    hide Apply, MintedId, Valid, Chain, IsPath;
    NextIdIsFresh(s);
    LogStep(t, s, call);
    if client in s.clients {
      StatusStep(t, s, call, client);
    } else if client in Apply(t, s, call).0.clients {
      CreatedStartsAtDraft(t, s, call, client);
    }
    var s' := Apply(t, s, call).0;
    if s'.auditLog != s.auditLog {
      var e := s'.auditLog[|s.auditLog|];
      assert s'.auditLog == s.auditLog + [e];
      ChainAppend(s.auditLog, e, client);
      assert !IsTransitionOf(e, client);
      assert Chain(s'.auditLog, client) == Chain(s.auditLog, client);
    }
  }

  /** A client that appears is a draft. */
  lemma CreatedStartsAtDraft(t: TextRules, s: State, call: Call, client: string)
    requires client !in s.clients && client in Apply(t, s, call).0.clients
    ensures Apply(t, s, call).0.clients[client].status == Draft
  {
    hide Apply, MintedId;
    NewRowStep(t, s, call, client);
    NewClientIsDraft(t, client, call.name, call.email);
  }

  lemma NewClientIsDraft(t: TextRules, id: string, name: string, email: string)
    ensures NewClient(t, id, name, email).status == Draft
  {
    hide Slugify;
  }

  /** Main result: in every run, every client's entries are a legal path to its status. */
  lemma {:induction false} ChainMatchesState(t: TextRules, calls: seq<Call>, client: string)
    requires forall i :: 0 <= i < |calls| ==> Honest(calls[i])
    ensures ChainMatches(Run(t, calls), client)
  {
    hide Apply, ChainMatches, Valid, Chain;
    if calls == [] {
      EmptyChain(client);
    } else {
      var front, last := calls[..|calls| - 1], calls[|calls| - 1];
      ChainMatchesState(t, front, client);
      RunIsValid(t, front);
      assert calls == front + [last];
      RunStep(t, front, last);
      ChainStep(t, Run(t, front), last, client);
    }
  }

  lemma EmptyChain(client: string)
    ensures ChainMatches(EMPTY, client)
  {
  }

  lemma ChainStep(t: TextRules, s: State, call: Call, client: string)
    requires Valid(s) && ChainMatches(s, client) && Honest(call)
    ensures ChainMatches(Apply(t, s, call).0, client)
  {
    hide Valid, ChainMatches, Transition;
    if call.TransitionClient? && call.client == client {
      TransitionStep(s, client, call.to, call.actor, call.evidenceRef, call.reason);
    } else {
      OtherCallStep(t, s, call, client);
    }
  }

  /** The log before any later point of a run is a prefix of the log after it. */
  lemma {:induction false} LogOnlyGrows(t: TextRules, before: seq<Call>, after: seq<Call>)
    ensures Run(t, before).auditLog <= Run(t, before + after).auditLog
  {
    hide Apply, Run;
    if after == [] {
      assert before + after == before;
    } else {
      var front, last := after[..|after| - 1], after[|after| - 1];
      LogOnlyGrows(t, before, front);
      assert before + after == before + front + [last];
      RunStep(t, before + front, last);
      LogStep(t, Run(t, before + front), last);
    }
  }

  // ---- The language of lifecycles ----

  /** The statuses a path visits, draft first. */
  function Visited(edges: seq<Edge>): (w: seq<Status>)
    ensures |w| == |edges| + 1
  {
    [Draft] + seq(|edges|, i requires 0 <= i < |edges| => edges[i].to)
  }

  /** The i-th status of a lifecycle that is not offboarded. */
  function Onboarded(i: nat): Status {
    if i == 0 then Draft
    else if i == 1 then EvidenceSubmitted
    else if i == 2 then FiledWithRegistrar
    else if i == 3 then Registered
    else if i % 2 == 0 then Active
    else Suspended
  }

  /**
    A prefix of draft, evidence submitted, filed, registered, active, suspended, active, ...;
    after the first activation it may instead end with one offboarded.
   */
  predicate InLanguage(w: seq<Status>) {
    && w != []
    && forall i :: 0 <= i < |w| ==> w[i] == Onboarded(i) || (i == |w| - 1 && i >= 5 && w[i] == Offboarded)
  }

  predicate IsWalk(w: seq<Status>) {
    && w != []
    && w[0] == Draft
    && forall i :: 0 <= i < |w| - 1 ==> Legal(w[i], w[i + 1])
  }

  lemma {:induction false} WalksAreTheLanguage(w: seq<Status>)
    ensures IsWalk(w) <==> InLanguage(w)
  {
    if IsWalk(w) {
      forall i | 0 <= i < |w|
        ensures w[i] == Onboarded(i) || (i == |w| - 1 && i >= 5 && w[i] == Offboarded)
      {
        WalkPosition(w, i);
      }
    }
    if InLanguage(w) {
      forall i | 0 <= i < |w| - 1
        ensures Legal(w[i], w[i + 1])
      {
        assert w[i] == Onboarded(i);
        assert w[i + 1] == Onboarded(i + 1) || (i + 1 >= 5 && w[i + 1] == Offboarded);
      }
    }
  }

  lemma {:induction false} WalkPosition(w: seq<Status>, i: nat)
    requires IsWalk(w) && i < |w|
    ensures w[i] == Onboarded(i) || (i == |w| - 1 && i >= 5 && w[i] == Offboarded)
    decreases i
  {
    if i == 0 {
    } else {
      WalkPosition(w, i - 1);
      assert Legal(w[i - 1], w[i]);
      assert i < |w| - 1 ==> Legal(w[i], w[i + 1]);
    }
  }

  lemma PathIsWalk(edges: seq<Edge>)
    requires IsPath(edges)
    ensures IsWalk(Visited(edges)) && Visited(edges)[|edges|] == EndOf(edges)
  {
    var w := Visited(edges);
    forall i | 0 <= i < |edges|
      ensures Legal(w[i], w[i + 1])
    {
      assert edges[i].from == EndOf(edges[..i]);
    }
  }

  /** Every lifecycle a run records is a word of the language. */
  lemma RecordedLifecyclesAreWords(t: TextRules, calls: seq<Call>, client: string)
    requires forall i :: 0 <= i < |calls| ==> Honest(calls[i])
    ensures var chain := Chain(Run(t, calls).auditLog, client);
            InLanguage(Visited(chain)) && Visited(chain)[|chain|] == EndOf(chain)
  {
    ChainMatchesState(t, calls, client);
    var chain := Chain(Run(t, calls).auditLog, client);
    PathIsWalk(chain);
    WalksAreTheLanguage(Visited(chain));
  }

  /** Creates one client and drives it along w. */
  function Drive(w: seq<Status>): seq<Call>
    requires w != []
  {
    if |w| == 1 then [CreateDraftClient("client", "", "api")]
    else Drive(w[..|w| - 1]) + [TransitionClient(MintedId(1), w[|w| - 1], "api", "", "")]
  }

  ghost predicate Records(s: State, client: string, w: seq<Status>) {
    && ChainMatches(s, client)
    && client in s.clients
    && Visited(Chain(s.auditLog, client)) == w
  }

  /** And every word of the language is recorded by some run of honest calls. */
  lemma {:induction false} EveryWordIsRecorded(t: TextRules, w: seq<Status>)
    requires InLanguage(w)
    ensures forall i :: 0 <= i < |Drive(w)| ==> Honest(Drive(w)[i])
    ensures Records(Run(t, Drive(w)), MintedId(1), w)
  {
    hide Records, InLanguage, Run, Drive, MintedId;
    WordNotEmpty(w);
    DriveIsHonest(w);
    if |w| == 1 {
      FirstStepRecorded(t, w);
    } else {
      FrontOfWord(w);
      EveryWordIsRecorded(t, w[..|w| - 1]);
      NextStepRecorded(t, w[..|w| - 1], w[|w| - 1]);
      assert w[..|w| - 1] + [w[|w| - 1]] == w;
    }
  }

  lemma FirstStepRecorded(t: TextRules, w: seq<Status>)
    requires InLanguage(w) && |w| == 1
    ensures Records(Run(t, Drive(w)), MintedId(1), w)
  {
    hide MintedId, Records, InLanguage, Run, Drive;
    WordStartsAtDraft(w);
    DriveOneStep([], Draft);
    assert [] + [Draft] == [Draft];
    FirstClientIsRecorded(t);
  }

  lemma NextStepRecorded(t: TextRules, front: seq<Status>, to: Status)
    requires front != [] && Legal(front[|front| - 1], to)
    requires Records(Run(t, Drive(front)), MintedId(1), front)
    ensures Records(Run(t, Drive(front + [to])), MintedId(1), front + [to])
  {
    hide MintedId, Apply, Records, Run, Drive;
    DriveOneStep(front, to);
    RunStep(t, Drive(front), TransitionClient(MintedId(1), to, "api", "", ""));
    DriveStep(t, Run(t, Drive(front)), MintedId(1), front, to);
  }

  lemma WordNotEmpty(w: seq<Status>)
    requires InLanguage(w)
    ensures w != []
  {
  }

  lemma DriveOneStep(front: seq<Status>, to: Status)
    ensures Drive(front + [to]) == if front == [] then [CreateDraftClient("client", "", "api")]
                                   else Drive(front) + [TransitionClient(MintedId(1), to, "api", "", "")]
  {
    hide MintedId;
    assert (front + [to])[..|front + [to]| - 1] == front;
  }

  lemma FirstClientIsRecorded(t: TextRules)
    ensures Records(Run(t, [CreateDraftClient("client", "", "api")]), MintedId(1), [Draft])
  {
    hide MintedId, Apply, Records, Run;
    var create := CreateDraftClient("client", "", "api");
    assert [create] == [] + [create];
    RunStep(t, [], create);
    EmptyRun(t);
    FirstClient(t, "client");
  }

  lemma {:induction false} DriveIsHonest(w: seq<Status>)
    requires w != []
    ensures forall i :: 0 <= i < |Drive(w)| ==> Honest(Drive(w)[i])
  {
    hide MintedId;
    if |w| <= 1 {
    } else {
      DriveIsHonest(w[..|w| - 1]);
    }
  }

  lemma WordStartsAtDraft(w: seq<Status>)
    requires InLanguage(w) && |w| == 1
    ensures w == [Draft]
  {
    assert w[0] == Onboarded(0);
  }

  lemma FrontOfWord(w: seq<Status>)
    requires InLanguage(w) && |w| > 1
    ensures InLanguage(w[..|w| - 1]) && Legal(w[|w| - 2], w[|w| - 1])
  {
    WalksAreTheLanguage(w);
    var front := w[..|w| - 1];
    forall i | 0 <= i < |front| - 1
      ensures Legal(front[i], front[i + 1])
    {
      assert front[i] == w[i] && front[i + 1] == w[i + 1];
    }
    WalksAreTheLanguage(front);
  }

  lemma FirstClient(t: TextRules, name: string)
    ensures Records(Apply(t, EMPTY, CreateDraftClient(name, "", "api")).0, MintedId(1), [Draft])
  {
    hide MintedId, NewClient, Chain;
    NewClientIsDraft(t, MintedId(1), name, "");
    var e := AuditEntry(MintedId(2), "api", MintedId(1), ClientCreate, NameDetail(name));
    assert Apply(t, EMPTY, CreateDraftClient(name, "", "api")).0.auditLog == [] + [e];
    ChainAppend([], e, MintedId(1));
    EmptyChain(MintedId(1));
  }

  lemma DriveStep(t: TextRules, s: State, id: string, w: seq<Status>, to: Status)
    requires Records(s, id, w) && Legal(w[|w| - 1], to)
    ensures Records(Apply(t, s, TransitionClient(id, to, "api", "", "")).0, id, w + [to])
  {
    hide MintedId, Chain, IsPath;
    var chain := Chain(s.auditLog, id);
    var from := s.clients[id].status;
    assert Visited(chain)[|chain|] == EndOf(chain) == from;
    var e := AuditEntry(MintedId(s.number + 1), "api", id, ClientTransition, TransitionDetail(from, to, "", ""));
    ChainAppend(s.auditLog, e, id);
    TransitionStep(s, id, to, "api", "", "");
    assert Visited(chain + [Edge(from, to)]) == w + [to];
  }

  // ---- Consequences of the language ----

  function Count(edges: seq<Edge>, e: Edge): nat {
    if edges == [] then 0
    else Count(edges[..|edges| - 1], e) + (if edges[|edges| - 1] == e then 1 else 0)
  }

  const SUSPENSION := Edge(Active, Suspended)
  const REACTIVATION := Edge(Suspended, Active)

  /**
    Suspensions equal reactivations while active and exceed them by one while suspended;
    before the first activation there are neither.
   */
  lemma {:induction false} SuspensionsBalance(edges: seq<Edge>)
    requires IsPath(edges)
    ensures var more := Count(edges, SUSPENSION) - Count(edges, REACTIVATION);
            match EndOf(edges)
            case Active => more == 0
            case Suspended => more == 1
            case Offboarded => more == 0 || more == 1
            case _ => Count(edges, SUSPENSION) == 0 == Count(edges, REACTIVATION)
  {
    if edges == [] {
    } else {
      var front, last := edges[..|edges| - 1], edges[|edges| - 1];
      forall i | 0 <= i < |front|
        ensures Legal(front[i].from, front[i].to) && front[i].from == EndOf(front[..i])
      {
        assert front[i] == edges[i] && front[..i] == edges[..i];
      }
      SuspensionsBalance(front);
      assert last.from == EndOf(front) && Legal(last.from, last.to);
    }
  }

  /** Offboarded is final: it is only ever the end of the last edge. */
  lemma OffboardedIsFinal(edges: seq<Edge>, i: nat)
    requires IsPath(edges) && i < |edges| && edges[i].to == Offboarded
    ensures i == |edges| - 1
  {
    forall j | 0 <= j < |edges| - 1
      ensures edges[j].to != Offboarded
    {
      assert edges[j + 1].from == EndOf(edges[..j + 1]);
    }
  }

  lemma {:induction false} ChainOfPrefix(log: seq<AuditEntry>, n: nat, client: string)
    requires n <= |log|
    ensures Chain(log[..n], client) <= Chain(log, client)
  {
    if n == |log| {
      assert log[..n] == log;
    } else {
      var front := log[..|log| - 1];
      assert front[..n] == log[..n];
      ChainOfPrefix(front, n, client);
    }
  }

  lemma PathOfPrefix(edges: seq<Edge>, prefix: seq<Edge>)
    requires IsPath(edges) && prefix <= edges
    ensures IsPath(prefix)
  {
    forall i | 0 <= i < |prefix|
      ensures prefix[i].from == EndOf(prefix[..i])
    {
      assert prefix[i] == edges[i] && prefix[..i] == edges[..i];
    }
  }

  predicate IsOffboarding(e: AuditEntry, client: string) {
    IsTransitionOf(e, client) && e.detail.to == Offboarded
  }

  /** A log whose chain is a path holds at most one offboarding of a client. */
  lemma OffboardedOnce(log: seq<AuditEntry>, client: string, i: nat, j: nat)
    requires IsPath(Chain(log, client))
    requires i < j < |log| && IsOffboarding(log[i], client)
    ensures !IsOffboarding(log[j], client)
  {
    hide IsPath, Chain;
    if IsOffboarding(log[j], client) {
      var first, before, after := log[..i], log[..j], log[..j + 1];
      assert log[..i + 1] == first + [log[i]] && after == before + [log[j]];
      ChainAppend(first, log[i], client);
      ChainAppend(before, log[j], client);
      assert before[..i + 1] == log[..i + 1];
      ChainOfPrefix(before, i + 1, client);
      ChainOfPrefix(log, j + 1, client);
      PathOfPrefix(Chain(log, client), Chain(after, client));
      var p := |Chain(first, client)|;
      assert Chain(after, client)[p] == Chain(before, client)[p] == Chain(log[..i + 1], client)[p];
      OffboardedIsFinal(Chain(after, client), p);
    }
  }

  predicate PostActivation(status: Status) {
    status == Active || status == Suspended || status == Offboarded
  }

  predicate ReachesActive(edges: seq<Edge>) {
    exists i :: 0 <= i < |edges| && edges[i].to == Active
  }

  /** A client was ever active exactly when it now is active, suspended or offboarded. */
  lemma {:induction false} EverActiveIffPostActivation(edges: seq<Edge>)
    requires IsPath(edges)
    ensures ReachesActive(edges) <==> PostActivation(EndOf(edges))
  {
    PathIsWalk(edges);
    var w := Visited(edges);
    WalksAreTheLanguage(w);
    var n := |edges|;
    assert w[n] == EndOf(edges);
    if PostActivation(EndOf(edges)) {
      assert n >= 4;
      assert w[4] == Onboarded(4) == Active;
      assert edges[3].to == w[4];
    }
    if i :| 0 <= i < n && edges[i].to == Active {
      assert w[i + 1] == Active && w[i + 1] == Onboarded(i + 1);
      assert i + 1 >= 4;
    }
  }
}
