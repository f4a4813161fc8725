/** The life of a session: `Create`, `Message`, `Cancel` and the runs they start, as steps of
    concurrent threads. A run counts from the moment it is decided on until it has written
    its final status. */
module Sessions {
  datatype Status = Idle | Running | Completed | Failed | Cancelled

  /** How far `Create` has come: the session is listed, marked as running, or returned. */
  datatype Creation = Listed(prompt: bool) | Marked | Returned

  datatype Session = Session(
    status: Status, creation: Creation, cancelled: bool,
    starting: nat,            // goroutines about to enter `Run`
    running: nat,             // goroutines inside `Run`
    ending: seq<Status>)      // goroutines out of `Run`, about to write this status

  datatype Action =
    | PromptFails | Mark | Return | Launch      // Create
    | Deliver                                   // Message, after its ingest
    | CancelContext | CancelStatus              // Cancel, in two steps
    | Begin | End(result: Status) | Settle(k: nat)   // runSession

  function NewSession(prompt: bool): Session {
    Session(Idle, Listed(prompt), false, 0, 0, [])
  }

  function Runs(s: Session): nat {
    s.starting + s.running + |s.ending|
  }

  predicate Restartable(status: Status) {
    status == Idle || status == Completed
  }

  predicate Enabled(s: Session, a: Action) {
    match a
    case PromptFails => !s.creation.Returned?
    case Mark => s.creation == Listed(true)
    case Return => s.creation == Listed(false)
    case Launch => s.creation == Marked
    case Begin => s.starting > 0
    case End(result) => s.running > 0 && (result == Completed || result == Failed || result == Cancelled)
    case Settle(k) => k < |s.ending|
    case _ => true
  }

  function Do(s: Session, a: Action): Session
    requires Enabled(s, a)
  {
    match a
    case PromptFails => s.(creation := Returned)
    case Mark => s.(status := Running, creation := Marked)
    case Return => s.(creation := Returned)
    case Launch => s.(starting := s.starting + 1, creation := Returned)
    case Deliver => if Restartable(s.status) then s.(status := Running, starting := s.starting + 1) else s
    case CancelContext => s.(cancelled := true)
    case CancelStatus => s.(status := Cancelled)
    case Begin => s.(starting := s.starting - 1, running := s.running + 1)
    case End(result) => s.(running := s.running - 1, ending := s.ending + [result])
    case Settle(k) => s.(status := s.ending[k], ending := s.ending[..k] + s.ending[k + 1..])
  }

  ghost predicate Execution(trace: seq<Session>, actions: seq<Action>) {
    && |trace| == |actions| + 1
    && (trace[0] == NewSession(true) || trace[0] == NewSession(false))
    && forall i :: 0 <= i < |actions| ==> Enabled(trace[i], actions[i]) && trace[i + 1] == Do(trace[i], actions[i])
  }

  /** At most one run, and none in a session at rest. */
  predicate AtMostOne(s: Session) {
    Runs(s) <= 1 && (s.status == Idle || s.status == Completed || s.status == Failed ==> Runs(s) == 0)
  }

  /** What every other step needs: the run that `Create` will start counts as well. */
  predicate Exclusive(s: Session) {
    && AtMostOne(s)
    && (forall r :: r in s.ending ==> r == Completed || r == Failed || r == Cancelled)
    && (s.creation == Listed(true) ==> Runs(s) == 0)
    && (s.creation == Marked ==> Runs(s) == 0 && (s.status == Running || s.status == Cancelled))
  }

  /** A message is accepted before `Create` marked the session as running. */
  predicate Hasty(s: Session, a: Action) {
    a == Deliver && s.creation == Listed(true) && Restartable(s.status)
  }

  lemma StepKeepsExclusive(s: Session, a: Action)
    requires Enabled(s, a) && Exclusive(s) && !Hasty(s, a)
    ensures Exclusive(Do(s, a))
  {
    if a.Settle? {
      assert s.ending[a.k] in s.ending && |s.ending| == 1;
      assert s.ending[..a.k] + s.ending[a.k + 1..] == [];
    }
  }

  /** If no message is accepted before `Create` has marked the session, then in every state
      of every interleaving at most one run exists, and none while the status is idle,
      completed or error. */
  lemma {:induction false} SingleRunner(trace: seq<Session>, actions: seq<Action>, i: nat)
    requires Execution(trace, actions) && i < |trace|
    requires forall k :: 0 <= k < i ==> !Hasty(trace[k], actions[k])
    ensures AtMostOne(trace[i]) && Exclusive(trace[i])
  {
    if i > 0 {
      SingleRunner(trace, actions, i - 1);
      StepKeepsExclusive(trace[i - 1], actions[i - 1]);
    }
  }

  /** The condition is needed: after any hasty message `Create` goes on to give the session a
      second run. Nobody notices: the status reads completed as soon as one of them ends, and
      the next message adds another beside the one still going. */
  lemma HastyMessageDoubles(s: Session)
    requires Exclusive(s) && Hasty(s, Deliver)
    ensures Enabled(Do(s, Deliver), Mark) && Enabled(Do(Do(s, Deliver), Mark), Launch)
    ensures var two := Do(Do(Do(s, Deliver), Mark), Launch);
      && Runs(two) == 2 && Enabled(two, Begin)
      && var one := Do(two, Begin);
      && Enabled(one, End(Completed)) && Enabled(Do(one, End(Completed)), Settle(0))
      && var rest := Do(Do(one, End(Completed)), Settle(0));
      rest.status == Completed && Runs(rest) == 1 && Runs(Do(rest, Deliver)) == 2
  {
    var one := Do(Do(Do(Do(s, Deliver), Mark), Launch), Begin);
    assert Do(one, End(Completed)).ending == [Completed];
  }

  // ---------------------------------------------------------------------------
  // The status a run leaves
  // ---------------------------------------------------------------------------

  /** No message is accepted before `Create` has marked the session, up to here. */
  ghost predicate Patient(trace: seq<Session>, actions: seq<Action>, i: nat)
    requires i <= |actions| <= |trace|
  {
    forall k :: 0 <= k < i ==> !Hasty(trace[k], actions[k])
  }

  /** This step is the first to write a status after that one. */
  ghost predicate FirstSettle(actions: seq<Action>, i: nat, j: nat) {
    i < j < |actions| && actions[j].Settle? && forall k :: i < k < j ==> !actions[k].Settle?
  }

  /** A run that is about to write its status is the only one, until it has written it. */
  lemma {:induction false} EndWaits(trace: seq<Session>, actions: seq<Action>, i: nat, j: nat, r: Status)
    requires Execution(trace, actions) && i < j < |trace| && actions[i] == End(r) && Patient(trace, actions, j)
    requires forall k :: i < k < j ==> !actions[k].Settle?
    ensures trace[j].ending == [r] && Runs(trace[j]) == 1
    decreases j - i
  {
    SingleRunner(trace, actions, j - 1);
    SingleRunner(trace, actions, j);
    if i + 1 < j {
      EndWaits(trace, actions, i, j - 1, r);
    }
  }

  /** The status a run leaves is how it ended: completed, error or cancelled. */
  lemma StatusIsHowItEnded(trace: seq<Session>, actions: seq<Action>, i: nat, j: nat, r: Status)
    requires Execution(trace, actions) && i < |actions| && actions[i] == End(r)
    requires FirstSettle(actions, i, j) && Patient(trace, actions, j)
    ensures trace[j + 1].status == r && Runs(trace[j + 1]) == 0
    ensures r == Completed || r == Failed || r == Cancelled
  {
    EndWaits(trace, actions, i, j, r);
    assert trace[j + 1] == Do(trace[j], actions[j]);
  }

  lemma EndingStep(s: Session, a: Action)
    requires Enabled(s, a) && Exclusive(s) && !Hasty(s, a)
    ensures Do(s, a).ending == [] ||
      if a.End? then Do(s, a).ending == [a.result] else s.ending == Do(s, a).ending && !a.Settle?
  {
    if a.Settle? {
      assert s.ending[..a.k] + s.ending[a.k + 1..] == [];
    }
  }

  lemma StepAt(trace: seq<Session>, actions: seq<Action>, i: nat)
    requires Execution(trace, actions) && i < |actions| && Patient(trace, actions, i + 1)
    ensures Enabled(trace[i], actions[i]) && !Hasty(trace[i], actions[i]) && trace[i + 1] == Do(trace[i], actions[i])
    ensures Exclusive(trace[i])
  {
    SingleRunner(trace, actions, i);
  }

  lemma StatusStep(s: Session, a: Action)
    requires Enabled(s, a) && Exclusive(s) && (Do(s, a).status == Completed || Do(s, a).status == Failed)
    ensures if a.Settle? then s.ending == [Do(s, a).status] else s.status == Do(s, a).status
  {
  }

  lemma EndingAt(trace: seq<Session>, actions: seq<Action>, m: nat)
    requires Execution(trace, actions) && m < |trace| && trace[m].ending != [] && Patient(trace, actions, m)
    ensures m > 0
    ensures if actions[m - 1].End? then trace[m].ending == [actions[m - 1].result]
      else trace[m - 1].ending == trace[m].ending && !actions[m - 1].Settle?
  {
    StepAt(trace, actions, m - 1);
    EndingStep(trace[m - 1], actions[m - 1]);
  }

  /** A run that is about to write its status ended, and nothing was written since. */
  lemma {:induction false} EndedBefore(trace: seq<Session>, actions: seq<Action>, m: nat) returns (i: nat)
    requires Execution(trace, actions) && m < |trace| && trace[m].ending != [] && Patient(trace, actions, m)
    ensures i < m && actions[i] == End(trace[m].ending[0]) && forall k :: i < k < m ==> !actions[k].Settle?
  {
    EndingAt(trace, actions, m);
    if actions[m - 1].End? {
      i := m - 1;
    } else {
      i := EndedBefore(trace, actions, m - 1);
    }
  }

  lemma FinalStep(trace: seq<Session>, actions: seq<Action>, m: nat)
    requires Execution(trace, actions) && m < |trace| && Patient(trace, actions, m)
    requires trace[m].status == Completed || trace[m].status == Failed
    ensures m > 0
    ensures if actions[m - 1].Settle? then trace[m - 1].ending == [trace[m].status]
      else trace[m - 1].status == trace[m].status
  {
    StepAt(trace, actions, m - 1);
    StatusStep(trace[m - 1], actions[m - 1]);
  }

  /** A session reads completed, or error, exactly because the last status written was that of
      a run that ended so. */
  lemma {:induction false} FinalStatusIsTheLastRuns(trace: seq<Session>, actions: seq<Action>, m: nat)
    returns (i: nat, j: nat)
    requires Execution(trace, actions) && m < |trace| && Patient(trace, actions, m)
    requires trace[m].status == Completed || trace[m].status == Failed
    ensures i < j < m && actions[i] == End(trace[m].status) && FirstSettle(actions, i, j)
    ensures forall k :: j < k < m ==> !actions[k].Settle?
  {
    FinalStep(trace, actions, m);
    if actions[m - 1].Settle? {
      i := EndedBefore(trace, actions, m - 1);
      j := m - 1;
    } else {
      i, j := FinalStatusIsTheLastRuns(trace, actions, m - 1);
    }
  }

  /** After a run that failed or was cancelled has written so in a created session, no later
      step starts a run; after one that completed, the next message does. */
  lemma NoRunAfterFailure(trace: seq<Session>, actions: seq<Action>, i: nat, j: nat, r: Status, l: nat)
    requires Execution(trace, actions) && i < |actions| && actions[i] == End(r)
    requires FirstSettle(actions, i, j) && Patient(trace, actions, j) && trace[j].creation == Returned
    ensures (r == Failed || r == Cancelled) && j < l < |actions| ==>
      actions[l] != Launch && Runs(trace[l + 1]) == 0
    ensures r == Completed ==> Do(trace[j + 1], Deliver).status == Running && Do(trace[j + 1], Deliver).starting == 1
  {
    StatusIsHowItEnded(trace, actions, i, j, r);
    assert trace[j + 1] == Do(trace[j], actions[j]);
    if (r == Failed || r == Cancelled) && j < l < |actions| {
      DeadIsFinal(trace, actions, j + 1, l);
      DeadIsFinal(trace, actions, j + 1, l + 1);
    }
  }

  /** A message starts a run exactly in a session that is idle or completed, and only then
      changes anything. */
  lemma MessageStartsIff(s: Session)
    ensures Do(s, Deliver).starting == s.starting + 1 <==> s.status == Idle || s.status == Completed
    ensures s.status == Idle || s.status == Completed ==> Do(s, Deliver) == s.(status := Running, starting := s.starting + 1)
    ensures s.status != Idle && s.status != Completed ==> Do(s, Deliver) == s
  {
  }

  /** Whatever the state of a session: a message or a cancellation can come at any time; each run
      can go on, end in any of three ways, in any order, and write its status; and `Create` can
      go on, or lose its prompt, until it has returned. */
  lemma NeverStuck(s: Session, k: nat)
    ensures Enabled(s, Deliver) && Enabled(s, CancelContext) && Enabled(s, CancelStatus)
    ensures s.starting > 0 ==> Enabled(s, Begin)
    ensures s.running > 0 ==> Enabled(s, End(Completed)) && Enabled(s, End(Failed)) && Enabled(s, End(Cancelled))
    ensures k < |s.ending| ==> Enabled(s, Settle(k))
    ensures match s.creation
      case Listed(prompt) => Enabled(s, PromptFails) && Enabled(s, if prompt then Mark else Return)
      case Marked => Enabled(s, PromptFails) && Enabled(s, Launch)
      case Returned => true
  {
  }

  // ---------------------------------------------------------------------------
  // Cancelling
  // ---------------------------------------------------------------------------

  /** At rest with a status that no message restarts. */
  predicate Dead(s: Session) {
    !Restartable(s.status) && Runs(s) == 0 && s.creation == Returned
  }

  lemma DeadStaysDead(s: Session, a: Action)
    requires Enabled(s, a) && Dead(s)
    ensures Dead(Do(s, a))
  {
  }

  /** A session at rest that failed, was cancelled, or whose prompt could not be ingested never
      runs again, whatever is sent to it. */
  lemma {:induction false} DeadIsFinal(trace: seq<Session>, actions: seq<Action>, i: nat, j: nat)
    requires Execution(trace, actions) && i <= j < |trace| && Dead(trace[i])
    ensures Dead(trace[j])
    decreases j - i
  {
    if i < j {
      DeadIsFinal(trace, actions, i, j - 1);
      DeadStaysDead(trace[j - 1], actions[j - 1]);
    }
  }

  /** These steps can be taken one after the other. */
  predicate Path(s: Session, actions: seq<Action>)
    decreases |actions|
  {
    actions == [] || (Enabled(s, actions[0]) && Path(Do(s, actions[0]), actions[1..]))
  }

  function DoAll(s: Session, actions: seq<Action>): Session
    requires Path(s, actions)
    decreases |actions|
  {
    if actions == [] then s else DoAll(Do(s, actions[0]), actions[1..])
  }

  /** This step starts a run. */
  predicate Starts(s: Session, a: Action) {
    a == Launch || (a == Deliver && Restartable(s.status))
  }

  /** Whatever steps follow, none of them starts a run. */
  ghost predicate NeverStarts(s: Session) {
    forall actions, a :: Path(s, actions) && Enabled(DoAll(s, actions), a) ==> !Starts(DoAll(s, actions), a)
  }

  /** Whatever steps follow, no run is about to begin or under way. */
  ghost predicate NeverRuns(s: Session) {
    forall actions :: Path(s, actions) ==> DoAll(s, actions).starting == 0 && DoAll(s, actions).running == 0
  }

  function Cancel(s: Session): Session {
    Do(Do(s, CancelContext), CancelStatus)
  }

  /** `Create` has no run left to launch, and what is left of other runs only has to write a
      status that no message restarts. */
  predicate Over(s: Session) {
    && s.creation != Listed(true) && s.creation != Marked
    && s.starting == 0 && s.running == 0
    && forall r :: r in s.ending ==> !Restartable(r)
  }

  lemma {:induction false} OverStaysOver(s: Session, actions: seq<Action>)
    requires Path(s, actions) && Over(s) && !Restartable(s.status)
    ensures Over(DoAll(s, actions)) && !Restartable(DoAll(s, actions).status)
    decreases |actions|
  {
    if actions != [] {
      OverStaysOver(Do(s, actions[0]), actions[1..]);
    }
  }

  lemma {:induction false} PathOn(s: Session, actions: seq<Action>, a: Action)
    requires Path(s, actions) && Enabled(DoAll(s, actions), a)
    ensures Path(s, actions + [a]) && DoAll(s, actions + [a]) == Do(DoAll(s, actions), a)
    decreases |actions|
  {
    if actions == [] {
      assert [] + [a] == [a] && [a][1..] == [];
    } else {
      assert (actions + [a])[1..] == actions[1..] + [a];
      PathOn(Do(s, actions[0]), actions[1..], a);
    }
  }

  /** A run that ends can write that the session completed. */
  lemma EndsCompleted(s: Session, actions: seq<Action>) returns (way: seq<Action>)
    requires Path(s, actions) && DoAll(s, actions).running > 0
    ensures Path(s, way) && DoAll(s, way).status == Completed
  {
    var t := DoAll(s, actions);
    PathOn(s, actions, End(Completed));
    PathOn(s, actions + [End(Completed)], Settle(|t.ending|));
    way := actions + [End(Completed)] + [Settle(|t.ending|)];
  }

  /** A session that is not over can come to start a run. */
  lemma StartsAgain(s: Session) returns (way: seq<Action>, a: Action)
    requires !Over(s)
    ensures Path(s, way) && Enabled(DoAll(s, way), a) && Starts(DoAll(s, way), a)
  {
    way, a := [], Deliver;
    if s.creation == Listed(true) {
      PathOn(s, [], Mark);
      way, a := [] + [Mark], Launch;
    } else if s.creation == Marked {
      a := Launch;
    } else if s.starting > 0 {
      PathOn(s, [], Begin);
      way := EndsCompleted(s, [] + [Begin]);
    } else if s.running > 0 {
      way := EndsCompleted(s, []);
    } else {
      var k :| 0 <= k < |s.ending| && Restartable(s.ending[k]);
      PathOn(s, [], Settle(k));
      way := [] + [Settle(k)];
    }
  }

  /** Cancelling is final exactly when the session is over but for its status: no step after
      it starts a run, and none is ever under way. Otherwise the run still there overwrites
      the status when it ends: after a clean shutdown it writes that the session completed,
      and the next message starts a run again. */
  lemma CancelIsFinalIff(s: Session)
    ensures NeverStarts(Cancel(s)) <==> Over(s)
    ensures NeverRuns(Cancel(s)) <==> Over(s)
    ensures Cancel(s).status == Cancelled && Cancel(s).cancelled
    ensures Exclusive(s) && s.creation == Returned ==>
      (Over(s) <==> Runs(s) == 0 || s.ending == [Failed] || s.ending == [Cancelled])
  {
    var c := Cancel(s);
    assert Over(c) <==> Over(s);
    if Over(s) {
      forall actions | Path(c, actions) ensures Over(DoAll(c, actions)) && !Restartable(DoAll(c, actions).status) {
        OverStaysOver(c, actions);
      }
    } else {
      var way, a := StartsAgain(c);
      PathOn(c, way, a);
      assert DoAll(c, way + [a]).starting > 0;
    }
    if |s.ending| == 1 {
      assert s.ending == [s.ending[0]] && s.ending[0] in s.ending;
    }
  }

  /** A prompt that cannot be ingested leaves a session that reads running, unless someone
      cancelled it meanwhile, and never will. */
  lemma FailedCreateIsDead(s: Session)
    requires Exclusive(s) && s.creation == Marked
    ensures Dead(Do(s, PromptFails))
    ensures Do(s, PromptFails).status == if s.status == Cancelled then Cancelled else Running
  {
  }
}
