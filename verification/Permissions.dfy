/** Asking the user before a tool runs: the executor's branches, the callback that asks, and
    the manager's pending map of one-slot channels, as steps of concurrent calls and
    responses. Request ids are never generated twice. */
module Permissions {
  import opened Wrappers

  datatype Response = Response(approved: bool, always: bool)

  datatype Policy = Allow | Deny | Confirm | PolicyError

  /** Where a tool call is, from its policy check to its handler. */
  datatype PC =
    | Announcing      // the request is about to be logged for clients
    | Registering     // about to store its channel in the pending map
    | Loading         // about to look its channel up
    | Waiting         // receiving on the channel
    | Leaving         // deferred: about to take the channel out of the map
    | Ready           // about to look the handler up
    | Refused         // returned without reaching the lookup
    | Unhandled       // no handler
    | Handled         // the handler was called

  /** What a call was started with, whether it asks the user and under which request, and what
      the wait returned, if it returned a response. */
  datatype Call = Call(
    known: bool, policy: Policy, callback: bool,
    asked: bool, request: string, decided: Option<Response>, pc: PC)

  datatype System = System(
    calls: seq<Call>,
    announced: set<string>,                       // requests in the event log
    pending: set<string>,                         // keys of the pending map
    slots: map<string, Option<Response>>,         // every channel ever stored, and what it holds
    sending: seq<(string, Response)>,             // responders that have loaded a channel
    accepted: seq<(string, Response)>)            // responses that went into a channel

  datatype Action =
    | Start(known: bool, policy: Policy, callback: bool, request: string)
    | Announce(i: nat, logged: bool) | Register(i: nat) | Load(i: nat)
    | Receive(i: nat) | GiveUp(i: nat) | Leave(i: nat) | Dispatch(i: nat, found: bool)
    | Find(request: string, response: Response)
    | Send(k: nat)

  const INITIAL := System([], {}, {}, map[], [], [])

  /** The executor's first branches: refused, asked about, or let through. Without a callback
      a call to be confirmed is let through. */
  function Admit(known: bool, policy: Policy, callback: bool, request: string): Call {
    if !known || policy == PolicyError || policy == Deny then Call(known, policy, callback, false, "", None, Refused)
    else if policy == Confirm && callback then Call(known, policy, callback, true, request, None, Announcing)
    else Call(known, policy, callback, false, "", None, Ready)
  }

  predicate Unused(s: System, request: string) {
    forall i :: 0 <= i < |s.calls| && s.calls[i].asked ==> s.calls[i].request != request
  }

  predicate At(s: System, i: nat, pc: PC) {
    i < |s.calls| && s.calls[i].pc == pc
  }

  predicate Enabled(s: System, a: Action) {
    match a
    case Start(_, _, _, request) => Unused(s, request) && request !in s.slots
    case Announce(i, _) => At(s, i, Announcing)
    case Register(i) => At(s, i, Registering)
    case Load(i) => At(s, i, Loading)
    case Receive(i) =>
      At(s, i, Waiting) && s.calls[i].request in s.slots && s.slots[s.calls[i].request].Some?
    case GiveUp(i) => At(s, i, Waiting)
    case Leave(i) => At(s, i, Leaving)
    case Dispatch(i, _) => At(s, i, Ready)
    case Find(_, _) => true
    case Send(k) => k < |s.sending| && s.sending[k].0 in s.slots
  }

  /** After the wait: go on when approved, return otherwise. */
  function AfterWait(decided: Option<Response>): PC {
    if decided.Some? && decided.value.approved then Ready else Refused
  }

  function Do(s: System, a: Action): System
    requires Enabled(s, a)
  {
    match a
    case Start(known, policy, callback, request) =>
      s.(calls := s.calls + [Admit(known, policy, callback, request)])
    case Announce(i, logged) =>
      var c := s.calls[i];
      s.(calls := s.calls[i := c.(pc := Registering)], announced := s.announced + if logged then {c.request} else {})
    case Register(i) =>
      var c := s.calls[i];
      s.(calls := s.calls[i := c.(pc := Loading)], pending := s.pending + {c.request}, slots := s.slots[c.request := None])
    case Load(i) =>
      var c := s.calls[i];
      s.(calls := s.calls[i := c.(pc := if c.request in s.pending then Waiting else Refused)])
    case Receive(i) =>
      var c := s.calls[i];
      s.(calls := s.calls[i := c.(pc := Leaving, decided := s.slots[c.request])], slots := s.slots[c.request := None])
    case GiveUp(i) => s.(calls := s.calls[i := s.calls[i].(pc := Leaving)])
    case Leave(i) =>
      var c := s.calls[i];
      s.(calls := s.calls[i := c.(pc := AfterWait(c.decided))], pending := s.pending - {c.request})
    case Dispatch(i, found) => s.(calls := s.calls[i := s.calls[i].(pc := if found then Handled else Unhandled)])
    case Find(request, response) =>
      if request in s.pending then s.(sending := s.sending + [(request, response)]) else s
    case Send(k) =>
      var (request, response) := s.sending[k];
      var rest := s.(sending := s.sending[..k] + s.sending[k + 1..]);
      if s.slots[request].None? then
        rest.(slots := s.slots[request := Some(response)], accepted := s.accepted + [(request, response)])
      else rest
  }

  ghost predicate Execution(trace: seq<System>, actions: seq<Action>) {
    && |trace| == |actions| + 1 && trace[0] == INITIAL
    && forall i :: 0 <= i < |actions| ==> Enabled(trace[i], actions[i]) && trace[i + 1] == Do(trace[i], actions[i])
  }

  // ---------------------------------------------------------------------------
  // The first accepted response
  // ---------------------------------------------------------------------------

  function First(accepted: seq<(string, Response)>, request: string): Option<Response> {
    if accepted == [] then None
    else if accepted[0].0 == request then Some(accepted[0].1)
    else First(accepted[1..], request)
  }

  lemma {:induction false} FirstSnoc(accepted: seq<(string, Response)>, more: (string, Response), request: string)
    ensures First(accepted + [more], request) ==
      if First(accepted, request).None? && more.0 == request then Some(more.1) else First(accepted, request)
  {
    if accepted == [] {
      assert [] + [more] == [more] && [more][1..] == [];
    } else {
      assert (accepted + [more])[1..] == accepted[1..] + [more];
      FirstSnoc(accepted[1..], more, request);
    }
  }

  // ---------------------------------------------------------------------------
  // The invariant
  // ---------------------------------------------------------------------------

  /** A call and its channel: before the wait is over the channel holds the first accepted
      response, if there is one; what the wait returned is that response. */
  predicate Fits(s: System, c: Call) {
    && (c.asked <==> c.known && c.policy == Confirm && c.callback)
    && if !c.asked then
      && c.decided.None?
      && (if c.known && (c.policy == Allow || c.policy == Confirm) then c.pc.Ready? || c.pc.Unhandled? || c.pc.Handled?
          else c.pc.Refused?)
    else
      && (c.decided.Some? ==> c.decided == First(s.accepted, c.request))
      && match c.pc
         case Announcing => c.decided.None? && c.request !in s.slots && First(s.accepted, c.request).None?
         case Registering => c.decided.None? && c.request !in s.slots && First(s.accepted, c.request).None?
         case Loading => c.decided.None? && Holds(s, c.request)
         case Waiting => c.decided.None? && Holds(s, c.request)
         case Leaving => c.request in s.slots
         case Refused => AfterWait(c.decided) == Refused && c.request in s.slots
         case _ => AfterWait(c.decided) == Ready && c.request in s.slots
  }

  /** The call's channel is in the pending map. */
  predicate Listed(c: Call) {
    c.asked && (c.pc.Loading? || c.pc.Waiting? || c.pc.Leaving?)
  }

  predicate Holds(s: System, request: string) {
    request in s.slots && request in s.pending && s.slots[request] == First(s.accepted, request)
  }

  ghost predicate Valid(s: System) {
    && (forall i :: 0 <= i < |s.calls| ==> Fits(s, s.calls[i]))
    && (forall i, j :: 0 <= i < j < |s.calls| && s.calls[i].asked && s.calls[j].asked ==>
          s.calls[i].request != s.calls[j].request)
    && (forall r :: r in s.pending ==> r in s.slots)
    && (forall i :: 0 <= i < |s.calls| && s.calls[i].asked ==> (s.calls[i].request in s.pending <==> Listed(s.calls[i])))
    && (forall k :: 0 <= k < |s.sending| ==> s.sending[k].0 in s.slots)
    && (forall r :: r !in s.slots ==> First(s.accepted, r).None?)
  }

  /** A step of one call touches at most its own channel. */
  lemma OneCallMoves(s: System, n: System, i: nat)
    requires Valid(s) && i < |s.calls| && |n.calls| == |s.calls| && n.accepted == s.accepted && n.sending == s.sending
    requires forall k :: 0 <= k < |s.calls| && k != i ==> n.calls[k] == s.calls[k]
    requires n.calls[i].asked == s.calls[i].asked && n.calls[i].request == s.calls[i].request && Fits(n, n.calls[i])
    requires n.calls[i].asked ==> (n.calls[i].request in n.pending <==> Listed(n.calls[i]))
    requires forall r :: r in s.slots ==> r in n.slots
    requires forall r :: r in n.pending ==> r in n.slots
    requires forall r :: !s.calls[i].asked || r != s.calls[i].request ==>
      && (r in n.slots <==> r in s.slots) && (r in n.pending <==> r in s.pending)
      && (r in s.slots ==> n.slots[r] == s.slots[r])
    ensures Valid(n)
  {
    forall k | 0 <= k < |n.calls| ensures Fits(n, n.calls[k]) {
      if k != i {
        assert Fits(s, s.calls[k]);
        assert s.calls[i].asked && s.calls[k].asked ==> s.calls[k].request != s.calls[i].request;
      }
    }
  }

  lemma CallStepKeepsValid(s: System, a: Action)
    requires Enabled(s, a) && Valid(s) && !a.Send? && !a.Start? && !a.Find?
    ensures Valid(Do(s, a))
  {
    assert Fits(s, s.calls[a.i]);
    OneCallMoves(s, Do(s, a), a.i);
  }

  lemma FindKeepsValid(s: System, request: string, response: Response)
    requires Valid(s)
    ensures Valid(Do(s, Find(request, response)))
  {
    var n := Do(s, Find(request, response));
    forall i | 0 <= i < |n.calls| ensures Fits(n, n.calls[i]) {
      assert Fits(s, s.calls[i]);
    }
  }

  lemma StartKeepsValid(s: System, a: Action)
    requires Enabled(s, a) && Valid(s) && a.Start?
    ensures Valid(Do(s, a))
  {
  }

  lemma SendKeepsValid(s: System, k: nat)
    requires Enabled(s, Send(k)) && Valid(s)
    ensures Valid(Do(s, Send(k)))
  {
    var n := Do(s, Send(k));
    forall r ensures First(n.accepted, r) ==
      if n.accepted != s.accepted && First(s.accepted, r).None? && s.sending[k].0 == r then Some(s.sending[k].1)
      else First(s.accepted, r)
    {
      FirstSnoc(s.accepted, s.sending[k], r);
    }
    forall i | 0 <= i < |n.calls| ensures Fits(n, n.calls[i]) {
      assert Fits(s, s.calls[i]);
    }
  }

  lemma StepKeepsValid(s: System, a: Action)
    requires Enabled(s, a) && Valid(s)
    ensures Valid(Do(s, a))
  {
    match a
    case Send(k) => SendKeepsValid(s, k);
    case Start(_, _, _, _) => StartKeepsValid(s, a);
    case Find(request, response) => FindKeepsValid(s, request, response);
    case _ => CallStepKeepsValid(s, a);
  }

  lemma {:induction false} Reachable(trace: seq<System>, actions: seq<Action>, i: nat)
    requires Execution(trace, actions) && i < |trace|
    ensures Valid(trace[i])
  {
    if i > 0 {
      Reachable(trace, actions, i - 1);
      StepKeepsValid(trace[i - 1], actions[i - 1]);
    }
  }

  // ---------------------------------------------------------------------------
  // Main results
  // ---------------------------------------------------------------------------

  /** The call got as far as looking its handler up. */
  predicate Proceeded(c: Call) {
    c.pc.Ready? || c.pc.Handled? || c.pc.Unhandled?
  }

  /** Under any interleaving of calls, responses, timeouts and cancellations, a call that was
      asked about gets past the question exactly when its wait returned a response and that
      response, the first one accepted for its own request, approved it. */
  lemma ApprovedIff(trace: seq<System>, actions: seq<Action>, i: nat, k: nat)
    requires Execution(trace, actions) && i < |trace| && k < |trace[i].calls| && trace[i].calls[k].asked
    requires Proceeded(trace[i].calls[k]) || trace[i].calls[k].pc.Refused?
    ensures var c := trace[i].calls[k]; var first := First(trace[i].accepted, c.request);
      && (Proceeded(c) <==> c.decided.Some? && c.decided.value.approved)
      && (c.decided.Some? ==> c.decided == first)
      && (Proceeded(c) ==> first.Some? && first.value.approved)
  {
    Reachable(trace, actions, i);
  }

  lemma StepKeepsDecision(s: System, a: Action, k: nat)
    requires Enabled(s, a) && k < |s.calls|
    ensures var n := Do(s, a);
      && |n.calls| >= |s.calls|
      && n.calls[k].known == s.calls[k].known && n.calls[k].policy == s.calls[k].policy
      && n.calls[k].callback == s.calls[k].callback
      && n.calls[k].asked == s.calls[k].asked && n.calls[k].request == s.calls[k].request
      && (!s.calls[k].pc.Waiting? ==> n.calls[k].decided == s.calls[k].decided)
      && (s.calls[k].pc.Leaving? || s.calls[k].pc.Refused? || Proceeded(s.calls[k]) ==>
            n.calls[k].pc.Leaving? || n.calls[k].pc.Refused? || Proceeded(n.calls[k]))
  {
  }

  /** What a call was started with stays with it. */
  lemma {:induction false} CallRemembers(trace: seq<System>, actions: seq<Action>, b: nat, i: nat)
    requires Execution(trace, actions) && b < i < |trace| && actions[b].Start?
    ensures |trace[b].calls| < |trace[i].calls|
    ensures var c, start := trace[i].calls[|trace[b].calls|], actions[b];
      && c.known == start.known && c.policy == start.policy && c.callback == start.callback
      && (c.asked ==> c.request == start.request)
  {
    if b + 1 < i {
      CallRemembers(trace, actions, b, i - 1);
      StepKeepsDecision(trace[i - 1], actions[i - 1], |trace[b].calls|);
    }
  }

  lemma {:induction false} FirstIsFirst(accepted: seq<(string, Response)>, request: string) returns (n: nat)
    requires First(accepted, request).Some?
    ensures n < |accepted| && accepted[n] == (request, First(accepted, request).value)
    ensures forall m :: 0 <= m < n ==> accepted[m].0 != request
  {
    if accepted[0].0 == request {
      n := 0;
    } else {
      var k := FirstIsFirst(accepted[1..], request);
      n := k + 1;
      assert forall m :: 0 < m < n ==> accepted[m] == accepted[1..][m - 1];
    }
  }

  /** The first response that went into this request's channel approved. */
  /** Whatever the state of a call, its next step is possible; a wait can end at any time
      without a decision, and a response can come at any time, for any request. */
  lemma NeverStuck(trace: seq<System>, actions: seq<Action>, i: nat, k: nat)
    requires Execution(trace, actions) && i < |trace| && k < |trace[i].calls|
    ensures var s := trace[i];
      && (match s.calls[k].pc
          case Announcing => Enabled(s, Announce(k, true)) && Enabled(s, Announce(k, false))
          case Registering => Enabled(s, Register(k))
          case Loading => Enabled(s, Load(k))
          case Waiting => Enabled(s, GiveUp(k)) && (First(s.accepted, s.calls[k].request).Some? ==> Enabled(s, Receive(k)))
          case Leaving => Enabled(s, Leave(k))
          case Ready => Enabled(s, Dispatch(k, true)) && Enabled(s, Dispatch(k, false))
          case _ => true)
      && (forall request, response :: Enabled(s, Find(request, response)))
      && forall j: nat :: j < |s.sending| ==> Enabled(s, Send(j))
  {
    Reachable(trace, actions, i);
    assert Fits(trace[i], trace[i].calls[k]);
  }

  ghost predicate FirstApproved(accepted: seq<(string, Response)>, request: string) {
    exists n :: 0 <= n < |accepted| && accepted[n].0 == request && accepted[n].1.approved
      && forall m :: 0 <= m < n ==> accepted[m].0 != request
  }

  /** The policy decides, under any interleaving. A call of an unknown tool, one that is denied
      and one whose policy check fails never proceed. One that is allowed, or to be confirmed
      with nobody to ask, always proceeds and is never announced. One to be confirmed proceeds
      only after the first response accepted for its request approved it. */
  lemma PolicyDecides(trace: seq<System>, actions: seq<Action>, b: nat, i: nat)
    requires Execution(trace, actions) && b < i < |trace| && actions[b].Start?
    ensures |trace[b].calls| < |trace[i].calls|
    ensures var k, start := |trace[b].calls|, actions[b];
      var pc := trace[i].calls[k].pc;
      var proceeds := pc == Ready || pc == Handled || pc == Unhandled;
      && (!start.known || start.policy == Deny || start.policy == PolicyError ==> pc == Refused)
      && (start.known && (start.policy == Allow || (start.policy == Confirm && !start.callback)) ==>
            proceeds && forall j :: 0 <= j < i ==> actions[j] != Announce(k, true) && actions[j] != Announce(k, false))
      && (start.known && start.policy == Confirm && start.callback && proceeds ==>
            FirstApproved(trace[i].accepted, start.request))
  {
    var k, start := |trace[b].calls|, actions[b];
    CallRemembers(trace, actions, b, i);
    Reachable(trace, actions, i);
    var c := trace[i].calls[k];
    assert Fits(trace[i], c);
    if start.known && (start.policy == Allow || (start.policy == Confirm && !start.callback)) {
      forall j | 0 <= j < i ensures actions[j] != Announce(k, true) && actions[j] != Announce(k, false) {
        NeverAnnounced(trace, actions, b, j);
      }
    }
    if c.asked && (c.pc == Ready || c.pc == Handled || c.pc == Unhandled) {
      var n := FirstIsFirst(trace[i].accepted, start.request);
    }
  }

  lemma NeverAnnounced(trace: seq<System>, actions: seq<Action>, b: nat, j: nat)
    requires Execution(trace, actions) && b < |actions| && j < |actions| && actions[b].Start?
    requires !(actions[b].known && actions[b].policy == Confirm && actions[b].callback)
    ensures actions[j].Announce? ==> actions[j].i != |trace[b].calls|
  {
    if b < j {
      CallRemembers(trace, actions, b, j);
      Reachable(trace, actions, j);
      assert Fits(trace[j], trace[j].calls[|trace[b].calls|]);
    } else {
      CallsOnlyGrow(trace, actions, j, b);
    }
  }

  lemma {:induction false} CallsOnlyGrow(trace: seq<System>, actions: seq<Action>, i: nat, j: nat)
    requires Execution(trace, actions) && i <= j < |trace|
    ensures |trace[i].calls| <= |trace[j].calls|
    decreases j - i
  {
    if i < j {
      CallsOnlyGrow(trace, actions, i, j - 1);
    }
  }

  /** A call reached its handler exactly if one was found when it was looked up, and has none
      exactly if none was. */
  lemma {:induction false} HandledIff(trace: seq<System>, actions: seq<Action>, i: nat, k: nat)
    requires Execution(trace, actions) && i < |trace| && k < |trace[i].calls|
    ensures trace[i].calls[k].pc == Handled <==> exists j :: 0 <= j < i && actions[j] == Dispatch(k, true)
    ensures trace[i].calls[k].pc == Unhandled <==> exists j :: 0 <= j < i && actions[j] == Dispatch(k, false)
  {
    if i > 0 {
      var s, a := trace[i - 1], actions[i - 1];
      assert Enabled(s, a) && trace[i] == Do(s, a);
      HandledStep(s, a, k);
      if k < |s.calls| {
        HandledIff(trace, actions, i - 1, k);
      } else {
        forall j | 0 <= j < i ensures !(actions[j].Dispatch? && actions[j].i == k) {
          CallsOnlyGrow(trace, actions, j, i - 1);
        }
      }
    }
  }

  lemma HandledStep(s: System, a: Action, k: nat)
    requires Enabled(s, a) && k < |Do(s, a).calls|
    ensures Do(s, a).calls[k].pc == Handled <==> (k < |s.calls| && s.calls[k].pc == Handled) || a == Dispatch(k, true)
    ensures Do(s, a).calls[k].pc == Unhandled <==> (k < |s.calls| && s.calls[k].pc == Unhandled) || a == Dispatch(k, false)
  {
  }

  /** The log holds exactly the requests whose announcement was logged. */
  lemma {:induction false} AnnouncedIff(trace: seq<System>, actions: seq<Action>, i: nat, request: string)
    requires Execution(trace, actions) && i < |trace|
    ensures request in trace[i].announced <==>
      exists j: nat, k: nat :: j < i && actions[j] == Announce(k, true)
        && k < |trace[j].calls| && trace[j].calls[k].request == request
  {
    if i > 0 {
      AnnouncedIff(trace, actions, i - 1, request);
      var s, a := trace[i - 1], actions[i - 1];
      assert Enabled(s, a) && trace[i] == Do(s, a);
    }
  }

  /** The wait is over, whether by a response, a timeout or a cancellation. */
  predicate Over(c: Call) {
    c.pc.Leaving? || c.pc.Refused? || Proceeded(c)
  }

  /** What a waiter returned never changes, whatever is responded later. */
  lemma {:induction false} DecisionIsFinal(trace: seq<System>, actions: seq<Action>, i: nat, j: nat, k: nat)
    requires Execution(trace, actions) && i <= j < |trace| && k < |trace[i].calls| && Over(trace[i].calls[k])
    ensures k < |trace[j].calls| && Over(trace[j].calls[k])
    ensures trace[j].calls[k].asked == trace[i].calls[k].asked && trace[j].calls[k].request == trace[i].calls[k].request
    ensures trace[j].calls[k].decided == trace[i].calls[k].decided
    decreases j - i
  {
    if i < j {
      DecisionIsFinal(trace, actions, i, j - 1, k);
      StepKeepsDecision(trace[j - 1], actions[j - 1], k);
    }
  }

  /** A call that stopped waiting without a response never reaches its handler, and neither
      does one whose response denied it, even if an approval is accepted afterwards. */
  lemma LateApprovalIsIgnored(trace: seq<System>, actions: seq<Action>, i: nat, j: nat, k: nat)
    requires Execution(trace, actions) && i <= j < |trace| && k < |trace[i].calls|
    requires trace[i].calls[k].asked && trace[i].calls[k].pc.Leaving?
    requires trace[i].calls[k].decided.None? || !trace[i].calls[k].decided.value.approved
    ensures k < |trace[j].calls| && !Proceeded(trace[j].calls[k])
  {
    DecisionIsFinal(trace, actions, i, j, k);
    Reachable(trace, actions, j);
    assert Fits(trace[j], trace[j].calls[k]);
  }

  /** A response to a call that was asked about is found exactly while the call is registered:
      not before, and not once it has left its wait. Otherwise the response is told that
      there is no such request, and nothing changes. */
  lemma ResponseIsFoundIff(trace: seq<System>, actions: seq<Action>, i: nat, k: nat, response: Response)
    requires Execution(trace, actions) && i < |trace| && k < |trace[i].calls| && trace[i].calls[k].asked
    ensures var c := trace[i].calls[k]; var n := Do(trace[i], Find(c.request, response));
      && (n != trace[i] <==> c.pc.Loading? || c.pc.Waiting? || c.pc.Leaving?)
      && (n != trace[i] ==> n == trace[i].(sending := trace[i].sending + [(c.request, response)]))
  {
    Reachable(trace, actions, i);
    var n := Do(trace[i], Find(trace[i].calls[k].request, response));
    assert n != trace[i] ==> |n.sending| > |trace[i].sending|;
  }

  /** Once a call has left its wait, its request is gone from the pending map: another response
      is told that there is no such request. */
  lemma LateResponseIsRefused(trace: seq<System>, actions: seq<Action>, i: nat, k: nat, response: Response)
    requires Execution(trace, actions) && i < |trace| && k < |trace[i].calls| && trace[i].calls[k].asked
    requires trace[i].calls[k].pc.Refused? || Proceeded(trace[i].calls[k])
    ensures Do(trace[i], Find(trace[i].calls[k].request, response)) == trace[i]
  {
    Reachable(trace, actions, i);
    assert !Listed(trace[i].calls[k]);
  }

  /** The request is announced before it is registered: a client that answers at once is told
      that there is no such request, and the call keeps waiting. */
  lemma EarlyAnswerIsLost(trace: seq<System>, actions: seq<Action>, i: nat, k: nat, response: Response)
    requires Execution(trace, actions) && i < |trace| && k < |trace[i].calls| && trace[i].calls[k].pc.Registering?
    ensures Do(trace[i], Find(trace[i].calls[k].request, response)) == trace[i]
    ensures Enabled(trace[i], Register(k))
    ensures var c := trace[i].calls[k]; var n := Do(trace[i], Register(k)); n.slots[c.request] == None
  {
    Reachable(trace, actions, i);
    assert Fits(trace[i], trace[i].calls[k]);
  }
}
