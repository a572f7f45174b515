/**
 * What each step of debugging a tab does to the sessions, and what Pause comes to
 * (packages/browser-extension/src/debuggee.ts).
 */
module DebuggingSteps {
  import opened Debugging

  /** At most session `i` differs, and nothing but sessions and releases. */
  ghost predicate OnlySession(s: State, t: State, i: nat) {
    && |t.records| == |s.records| && t.sessions == s.sessions && t.closed == s.closed && t.commands == s.commands
    && forall k :: 0 <= k < |s.records| && k != i ==> t.records[k] == s.records[k]
  }

  ghost predicate SameWorld(s: State, t: State) {
    t.chrome == s.chrome && t.releases == s.releases
  }

  // ---- Steps that queue ----

  /** A command is in flight, waits at the end of its tab's queue, and stops the idle timer. */
  lemma SendQueues(s: State, tab: int)
    requires Safe(s)
    ensures var t := Next(s, Send(tab));
            && tab in t.sessions && t.commands == s.commands + 1
            && t.chrome == s.chrome && t.closed == s.closed && t.releases == s.releases
            && (forall k :: 0 <= k < |s.records| && k != t.sessions[tab] ==> t.records[k] == s.records[k])
            && t.sessions == s.sessions[tab := t.sessions[tab]]
            && (if tab in s.sessions then t.sessions[tab] == s.sessions[tab] && |t.records| == |s.records|
                else t.sessions[tab] == |s.records| && |t.records| == |s.records| + 1)
    ensures var t := Next(s, Send(tab));
            var r := if tab in s.sessions then s.records[s.sessions[tab]] else NewSession(tab);
            var q := t.records[t.sessions[tab]];
            && q.queue == r.queue + [AttachFor(s.commands)] && q.running == r.running && q.tab == tab
            && q.inflight == r.inflight + 1 && q.live == r.live + {s.commands} && !q.idle
            && s.commands in q.phases && q.phases[s.commands].Waiting?
            && q.attached == r.attached && q.detaching == r.detaching && q.drops == r.drops
            && forall c :: c != s.commands ==>
                 (c in q.phases <==> c in r.phases) && (c in r.phases ==> q.phases[c] == r.phases[c])
  {
    hide SessionSafe, Dead;
  }

  /** The idle timer, and forgetting a tab, queue a detach after what is queued, and leave no timer. */
  lemma DetachQueues(s: State, step: Step)
    requires Safe(s) && Enabled(s, step) && (step.IdleFires? || (step.Forget? && step.tab in s.sessions))
    ensures var t, i := Next(s, step), if step.IdleFires? then step.session else s.sessions[step.tab];
            && OnlySession(s, t, i) && SameWorld(s, t)
            && t.records[i] == s.records[i].(idle := false, queue := s.records[i].queue + [DetachStep(step.Forget?)])
  {
    hide SessionSafe, Dead;
  }

  lemma ForgetUnknown(s: State, tab: int)
    requires Safe(s) && tab !in s.sessions
    ensures Next(s, Forget(tab)) == s
  {
  }

  /** Pause: no timer is left, and each attached session has a detach after what is queued. */
  lemma PauseQueues(s: State)
    ensures var t := Next(s, DetachAll);
            && t == s.(records := t.records) && |t.records| == |s.records|
            && forall i :: 0 <= i < |s.records| ==>
                 if !Mapped(s, i) then t.records[i] == s.records[i]
                 else if s.records[i].attached then
                   t.records[i] == s.records[i].(idle := false, queue := s.records[i].queue + [DetachStep(false)])
                 else t.records[i] == s.records[i].(idle := false)
  {
  }

  // ---- Steps of a queue ----

  /**
   * The head of the queue: a command whose tab is attached is ready at once, and any other asks for
   * its tab; a detach begins if the session is attached and nothing is in flight, and ends otherwise.
   */
  lemma BeginTakes(s: State, i: nat)
    requires Enabled(s, Begin(i))
    ensures var t := Next(s, Begin(i));
            var r, q := s.records[i], t.records[i];
            && OnlySession(s, t, i) && SameWorld(s, t) && q.queue == r.queue[1..]
            && match r.queue[0]
               case AttachFor(c) =>
                 if r.attached then q == r.(queue := q.queue, phases := r.phases[c := Ready(r.drops)])
                 else q == r.(queue := q.queue, running := Looking(c))
               case DetachStep(forgetting) =>
                 if r.attached && r.inflight <= 0 then q == r.(queue := q.queue, detaching := true, running := Detaching(forgetting))
                 else q == r.(queue := q.queue, running := if forgetting then Finalizing else Nothing)
  {
  }

  /** A tab that is gone, or is a page we may not debug, fails the command; the page is released, too. */
  lemma LookAnswers(s: State, i: nat, look: Look)
    requires Enabled(s, Looked(i, look))
    ensures var t := Next(s, Looked(i, look));
            var r, c := s.records[i], s.records[i].running.command;
            && OnlySession(s, t, i) && t.chrome == s.chrome
            && t.records[i] == (if look == Debuggable then r.(running := Attaching(c))
                                else r.(running := Nothing, phases := r.phases[c := Failed]))
            && t.releases == s.releases + if look == RestrictedPage then [ReleaseTab(r.tab, Restricted)] else []
  {
  }

  /**
   * An attachment that was made, or found made, attaches the session and readies its command; any
   * other answer fails the command, and a refusal releases the tab.
   */
  lemma AttachAnswers(s: State, i: nat, answer: AttachAnswer)
    requires Enabled(s, Attached(i, answer))
    ensures var t := Next(s, Attached(i, answer));
            var r, c, made := s.records[i], s.records[i].running.command, answer in {Made, Found};
            && OnlySession(s, t, i)
            && t.records[i] == (if made then r.(running := Nothing, attached := true, phases := r.phases[c := Ready(r.drops)])
                                else r.(running := Nothing, phases := r.phases[c := Failed]))
            && t.chrome == (if made then s.chrome + {r.tab} else s.chrome)
            && t.releases == s.releases + if answer == Refused then [ReleaseTab(r.tab, Restricted)] else []
  {
  }

  /** However Chrome answers a detach, the session is detached; what forgets it has its say next. */
  lemma DetachAnswers(s: State, i: nat)
    requires Enabled(s, Detached(i))
    ensures var t := Next(s, Detached(i));
            var r := s.records[i];
            && OnlySession(s, t, i) && t.releases == s.releases && t.chrome == s.chrome - {r.tab}
            && t.records[i] == r.(attached := false, detaching := false,
                                  running := if r.running.forgetting then Finalizing else Nothing)
  {
  }

  /** A forgotten session is dropped exactly if it is still its tab's, detached and unused. */
  lemma ForgottenIsDropped(s: State, i: nat)
    requires Enabled(s, Finally(i))
    ensures var t := Next(s, Finally(i));
            var r := s.records[i];
            && t == s.(sessions := t.sessions, records := t.records)
            && |t.records| == |s.records| && t.records[i] == r.(running := Nothing)
            && (forall k :: 0 <= k < |s.records| && k != i ==> t.records[k] == s.records[k])
            && t.sessions == if r.tab in s.sessions && s.sessions[r.tab] == i && !r.attached && r.inflight == 0
                             then s.sessions - {r.tab} else s.sessions
  {
  }

  // ---- Steps of a command ----

  lemma CommandGoes(s: State, i: nat, c: int)
    requires Enabled(s, Issue(i, c))
    ensures var t := Next(s, Issue(i, c));
            && OnlySession(s, t, i) && SameWorld(s, t)
            && t.records[i] == s.records[i].(phases := s.records[i].phases[c := Issued(s.records[i].phases[c].drops)])
  {
  }

  /** A command that is over is no longer in flight; the last one arms the idle timer of an attached session. */
  lemma CommandEnds(s: State, i: nat, c: int)
    requires Enabled(s, Finish(i, c))
    ensures var t := Next(s, Finish(i, c));
            var r := s.records[i];
            && OnlySession(s, t, i) && SameWorld(s, t)
            && t.records[i] == r.(inflight := r.inflight - 1, live := r.live - {c},
                                  idle := r.idle || (r.inflight == 1 && r.attached))
  {
  }

  // ---- What Chrome reports ----

  /** A session that Chrome ended: detached, without a timer, and one attachment fewer. */
  function Ended(r: Session): Session {
    r.(attached := false, idle := false, drops := r.drops + 1)
  }

  /**
   * Chrome's own detach: nothing new while we detach the tab ourselves; a Cancel ends every session
   * and releases all tabs; a closed target ends its own and asks for the tab; any other reason ends
   * its own and releases the tab.
   */
  lemma ChromeDetaches(s: State, tab: int, reason: DropReason)
    requires Safe(s)
    ensures var t := Next(s, Dropped(tab, reason));
            var ours := tab in s.sessions && s.records[s.sessions[tab]].detaching;
            && t.sessions == s.sessions && t.closed == s.closed && t.commands == s.commands && |t.records| == |s.records|
            && t.chrome == (if !ours && reason == CanceledByUser then {} else s.chrome - {tab})
            && t.releases == s.releases + (if ours || reason == TargetClosed then []
                                           else if reason == CanceledByUser then [ReleaseAll(ByUser)]
                                           else [ReleaseTab(tab, DetachedReason)])
            && forall i :: 0 <= i < |s.records| ==>
                 t.records[i] == if !ours && Mapped(s, i) && (reason == CanceledByUser || s.records[i].tab == tab)
                                 then Ended(s.records[i]) else s.records[i]
  {
    hide SessionSafe, Dead;
  }

  /** What became of a closed target: the tab is gone, and its session with it, or it is on a page we may not debug. */
  lemma TargetIsLooked(s: State, tab: int, look: Look)
    ensures var t := Next(s, TargetLooked(tab, look));
            && t == s.(sessions := t.sessions, closed := t.closed, releases := t.releases)
            && t.sessions == (if look == Missing then s.sessions - {tab} else s.sessions)
            && t.closed == (if look == Missing then s.closed + {tab} else s.closed)
            && t.releases == s.releases + if look == RestrictedPage then [ReleaseTab(tab, Restricted)] else []
  {
  }

  // ---- Pause ----

  /** Steps that follow each other, and where they lead. */
  ghost predicate IsPath(s: State, steps: seq<Step>)
    decreases |steps|
  {
    steps == [] || (Enabled(s, steps[0]) && IsPath(Next(s, steps[0]), steps[1..]))
  }

  ghost function After(s: State, steps: seq<Step>): State
    requires IsPath(s, steps)
    decreases |steps|
  {
    if steps == [] then s else After(Next(s, steps[0]), steps[1..])
  }

  ghost predicate NoSend(steps: seq<Step>) {
    forall k :: 0 <= k < |steps| ==> !steps[k].Send?
  }

  /** The session runs nothing, and has nothing left to run. */
  predicate Dry(r: Session) {
    r.queue == [] && r.running == Nothing
  }

  /** Nothing is in flight, no timer is armed, and an attached session is on its way to be detached. */
  ghost predicate Leaving(r: Session) {
    && r.inflight == 0 && r.live == {} && !r.idle
    && (forall k :: 0 <= k < |r.queue| ==> r.queue[k].DetachStep?)
    && !r.running.Looking? && !r.running.Attaching?
    && (r.attached ==> r.running.Detaching? || HasDetach(r.queue))
  }

  lemma PauseLeaves(s: State, i: nat)
    requires Safe(s) && Mapped(s, i) && s.records[i].inflight == 0
    ensures Leaving(Next(s, DetachAll).records[i])
  {
    var r, q := s.records[i], Next(s, DetachAll).records[i];
    PauseQueues(s);
    assert SessionSafe(r, s.commands);
    assert r.live == {};
    forall k | 0 <= k < |r.queue|
      ensures r.queue[k].DetachStep?
    {
      assert r.queue[k].AttachFor? ==> StillWaits(r, r.queue[k].command);
    }
    if r.attached {
      assert q.queue[|r.queue|] == DetachStep(false);
    }
  }

  /** No step but a new command keeps a session from leaving. */
  lemma StepLeaves(s: State, i: nat, step: Step)
    requires Enabled(s, step) && !step.Send? && i < |s.records| && Leaving(s.records[i])
    requires Safe(s)
    ensures i < |Next(s, step).records| && Leaving(Next(s, step).records[i])
  {
    var r := s.records[i];
    hide Safe, Next, HasDetach;
    match step
    case Begin(k) =>
      BeginTakes(s, k);
      if k == i {
        BeginLeaves(r);
        assert Next(s, step).records[i] == Beginning(r) by {
          BeginIs(s, i);
        }
      }
    case Looked(k, look) => LookAnswers(s, k, look);
    case Attached(k, answer) => AttachAnswers(s, k, answer);
    case Detached(k) => DetachAnswers(s, k);
    case Finally(k) => ForgottenIsDropped(s, k);
    case Issue(k, c) => CommandGoes(s, k, c);
    case Finish(k, c) => CommandEnds(s, k, c);
    case IdleFires(k) => DetachQueues(s, step);
    case Forget(tab) =>
      if tab in s.sessions {
        DetachQueues(s, step);
        MoreLeaves(r, true);
      } else {
        ForgetUnknown(s, tab);
      }
    case DetachAll =>
      PauseQueues(s);
      MoreLeaves(r, false);
    case Dropped(tab, reason) => ChromeDetaches(s, tab, reason);
    case TargetLooked(tab, look) => TargetIsLooked(s, tab, look);
  }

  lemma BeginIs(s: State, i: nat)
    requires Enabled(s, Begin(i))
    ensures Next(s, Begin(i)).records[i] == Beginning(s.records[i])
  {
  }

  lemma BeginLeaves(r: Session)
    requires Leaving(r) && r.queue != [] && r.running.Nothing?
    ensures Leaving(Beginning(r))
  {
    var q := Beginning(r);
    assert r.queue[0].DetachStep? && forall k :: 0 <= k < |q.queue| ==> q.queue[k] == r.queue[k + 1];
  }

  lemma MoreLeaves(r: Session, forgetting: bool)
    requires Leaving(r)
    ensures Leaving(r.(queue := r.queue + [DetachStep(forgetting)]))
  {
    var q := r.queue + [DetachStep(forgetting)];
    assert q[|r.queue|] == DetachStep(forgetting);
  }

  lemma {:induction false} PathLeaves(s: State, i: nat, steps: seq<Step>)
    requires Safe(s) && IsPath(s, steps) && NoSend(steps) && i < |s.records| && Leaving(s.records[i])
    ensures i < |After(s, steps).records| && Leaving(After(s, steps).records[i])
    decreases |steps|
  {
    if steps != [] {
      StepLeaves(s, i, steps[0]);
      StepSafe(s, steps[0]);
      hide Leaving, Safe, Next, Enabled;
      PathLeaves(Next(s, steps[0]), i, steps[1..]);
    }
  }

  /**
   * After Pause, whatever happens but a new command: a tab that had nothing in flight is detached as
   * soon as its queue has run dry.
   */
  lemma PauseDetaches(run: Run, i: nat, steps: seq<Step>)
    requires IsRun(run) && Mapped(StateOf(run), i) && StateOf(run).records[i].inflight == 0
    requires IsPath(StateOf(run), [DetachAll] + steps) && NoSend(steps)
    ensures var t := After(StateOf(run), [DetachAll] + steps);
            i < |t.records| && (Dry(t.records[i]) ==> !t.records[i].attached && !t.records[i].idle)
  {
    var s := StateOf(run);
    RunSafe(run);
    PauseLeaves(s, i);
    StepSafe(s, DetachAll);
    assert ([DetachAll] + steps)[1..] == steps;
    hide StateOf, IsRun, Safe, Mapped;
    PathLeaves(Next(s, DetachAll), i, steps);
  }

  /**
   * "Now" is not for a tab with a command in flight: its detach ends at once and leaves it attached.
   * Pause detaches an attached tab whose queue is empty exactly if nothing is in flight.
   */
  lemma PauseSparesBusy(run: Run, i: nat)
    requires IsRun(run) && Mapped(StateOf(run), i) && Dry(StateOf(run).records[i]) && StateOf(run).records[i].attached
    ensures var s, steps := StateOf(run), [DetachAll, Begin(i)];
            && IsPath(s, steps) && i < |After(s, steps).records|
            && var r := After(s, steps).records[i];
               r.attached && (r.running == Detaching(false) <==> s.records[i].inflight == 0)
               && (s.records[i].inflight > 0 ==> Dry(r))
  {
    var s := StateOf(run);
    RunSafe(run);
    hide StateOf, IsRun;
    PausedBegins(s, i);
    assert Enabled(s, DetachAll);
    hide *;
    TwoSteps(s, DetachAll, Begin(i));
  }

  lemma PausedBegins(s: State, i: nat)
    requires Safe(s) && Mapped(s, i) && Dry(s.records[i]) && s.records[i].attached
    ensures Enabled(Next(s, DetachAll), Begin(i))
    ensures var t := Next(Next(s, DetachAll), Begin(i));
            && i < |t.records| && t.records[i].attached
            && (t.records[i].running == Detaching(false) <==> s.records[i].inflight == 0)
            && (s.records[i].inflight > 0 ==> Dry(t.records[i]))
  {
    assert s.records[i].inflight >= 0 by {
      assert SessionSafe(s.records[i], s.commands);
    }
    PauseQueues(s);
    hide Safe, Next;
    var t := Next(s, DetachAll);
    assert t.records[i].queue == [DetachStep(false)] && t.records[i].queue[1..] == [];
    BeginTakes(t, i);
  }

  lemma TwoSteps(s: State, a: Step, b: Step)
    requires Enabled(s, a) && Enabled(Next(s, a), b)
    ensures IsPath(s, [a, b]) && After(s, [a, b]) == Next(Next(s, a), b)
  {
    hide Enabled, Next;
    assert [a, b][1..] == [b] && [b][1..] == [];
    var t := Next(s, a);
    assert IsPath(Next(t, b), []) && IsPath(t, [b]) && After(t, [b]) == Next(t, b);
  }
}
