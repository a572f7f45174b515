/**
 * Debugging driven tabs (packages/browser-extension/src/debuggee.ts): attaches and detaches queued
 * per tab, commands in flight, an idle timer, and detaches that Chrome makes on its own. Every
 * stretch of code between two awaits is one step; any steps may follow each other.
 */
module Debugging {
  /** A step of a session's queue. `forgetting`: the one whose end may drop the session. */
  datatype Task = AttachFor(command: int) | DetachStep(forgetting: bool)

  /**
   * The queue step under way: asking for the tab, or waiting for Chrome to attach or detach; or one
   * that has ended, while what `forget` does after it is still to come.
   */
  datatype Running = Nothing | Looking(command: int) | Attaching(command: int) | Detaching(forgetting: bool) | Finalizing

  /**
   * A command: its attach step is still ahead, or done when Chrome had ended `drops` of the
   * session's attachments (not sent yet, or sent), or over.
   */
  datatype Phase = Waiting | Ready(drops: nat) | Issued(drops: nat) | Failed

  datatype Session = Session(
    tab: int,
    attached: bool,
    detaching: bool,
    inflight: int,
    idle: bool,
    queue: seq<Task>,
    running: Running,
    live: set<int>,
    phases: map<int, Phase>,
    drops: nat)

  datatype Reason = ByUser | Restricted | DetachedReason

  /** What the class asks of its owner: that the agent may no longer drive a tab, or any. */
  datatype Release = ReleaseTab(tab: int, reason: Reason) | ReleaseAll(reason: Reason)

  /** `sessions` by tab; `records` keeps dropped sessions too: their queue may still hold steps. */
  datatype State = State(
    sessions: map<int, nat>,
    records: seq<Session>,
    chrome: set<int>,
    closed: set<int>,
    commands: nat,
    releases: seq<Release>)

  datatype DropReason = CanceledByUser | TargetClosed | OtherReason

  /** What `chrome.tabs.get` says of a tab. */
  datatype Look = Debuggable | Missing | RestrictedPage

  /** What `chrome.debugger.attach` says; an attachment from before a worker restart is ours too. */
  datatype AttachAnswer = Made | Found | Refused | NoTab | OtherError

  datatype Step =
    | Send(tab: int)
    | Begin(session: nat)
    | Looked(session: nat, look: Look)
    | Attached(session: nat, answer: AttachAnswer)
    | Detached(session: nat)
    | Finally(session: nat)
    | Issue(session: nat, command: int)
    | Finish(session: nat, command: int)
    | IdleFires(session: nat)
    | Forget(tab: int)
    | DetachAll
    | Dropped(tab: int, reason: DropReason)
    | TargetLooked(tab: int, look: Look)

  // ---- Sessions ----

  function NewSession(tab: int): Session {
    Session(tab, false, false, 0, false, [], Nothing, {}, map[], 0)
  }

  function Enqueue(r: Session, task: Task): Session {
    r.(queue := r.queue + [task])
  }

  /** `send`, up to its first await. */
  function Sending(r: Session, command: int): Session {
    Enqueue(r.(inflight := r.inflight + 1, idle := false, live := r.live + {command}, phases := r.phases[command := Waiting]),
            AttachFor(command))
  }

  function Move(r: Session, command: int, phase: Phase): Session {
    r.(phases := r.phases[command := phase])
  }

  function AfterDetach(forgetting: bool): Running {
    if forgetting then Finalizing else Nothing
  }

  /** The head of the queue starts; a step with nothing to do ends at once. */
  function Beginning(r: Session): Session
    requires r.queue != []
  {
    var rest := r.(queue := r.queue[1..]);
    match r.queue[0]
    case AttachFor(c) => if r.attached then Move(rest, c, Ready(r.drops)) else rest.(running := Looking(c))
    case DetachStep(forgetting) =>
      if !r.attached || r.inflight > 0 then rest.(running := AfterDetach(forgetting))
      else rest.(detaching := true, running := Detaching(forgetting))
  }

  function LookEnds(r: Session, look: Look): Session
    requires r.running.Looking?
  {
    var c := r.running.command;
    if look.Debuggable? then r.(running := Attaching(c)) else Move(r, c, Failed).(running := Nothing)
  }

  function AttachEnds(r: Session, answer: AttachAnswer): Session
    requires r.running.Attaching?
  {
    var c := r.running.command;
    if answer.Made? || answer.Found? then Move(r, c, Ready(r.drops)).(attached := true, running := Nothing)
    else Move(r, c, Failed).(running := Nothing)
  }

  function DetachEnds(r: Session): Session
    requires r.running.Detaching?
  {
    r.(detaching := false, attached := false, running := AfterDetach(r.running.forgetting))
  }

  /** The `finally` of `send`. */
  function Finishing(r: Session, command: int): Session {
    r.(inflight := r.inflight - 1, live := r.live - {command},
       idle := if r.inflight - 1 == 0 && r.attached then true else r.idle)
  }

  function Dropping(r: Session): Session {
    r.(attached := false, idle := false, drops := r.drops + 1)
  }

  // ---- The whole ----

  predicate Mapped(s: State, i: nat) {
    i < |s.records| && s.records[i].tab in s.sessions && s.sessions[s.records[i].tab] == i
  }

  function Put(s: State, i: nat, r: Session): State
    requires i < |s.records|
  {
    s.(records := s.records[i := r])
  }

  /** `session(tabId)`: the tab's session, made when there is none. */
  function WithSession(s: State, tab: int): State {
    if tab in s.sessions then s
    else s.(sessions := s.sessions[tab := |s.records|], records := s.records + [NewSession(tab)])
  }

  /** What `forget` does after its detach step: a session that is detached and unused is dropped. */
  function Ended(s: State, i: nat): State
    requires i < |s.records|
  {
    var r := s.records[i];
    if Mapped(s, i) && !r.attached && r.inflight == 0 then s.(sessions := s.sessions - {r.tab}) else s
  }

  function Releasing(s: State, release: Release): State {
    s.(releases := s.releases + [release])
  }

  function DetachingAll(s: State): State {
    s.(records := seq(|s.records|, i requires 0 <= i < |s.records| =>
      if !Mapped(s, i) then s.records[i]
      else
        var r := s.records[i].(idle := false);
        if r.attached then Enqueue(r, DetachStep(false)) else r))
  }

  function DroppingAll(s: State): State {
    s.(chrome := {}, records := seq(|s.records|, i requires 0 <= i < |s.records| =>
      if Mapped(s, i) then Dropping(s.records[i]) else s.records[i]))
  }

  /** What a step needs: the code is at that point. */
  predicate Enabled(s: State, step: Step) {
    match step
    case Begin(i) => i < |s.records| && s.records[i].running.Nothing? && s.records[i].queue != []
    case Looked(i, _) => i < |s.records| && s.records[i].running.Looking?
    case Attached(i, _) => i < |s.records| && s.records[i].running.Attaching?
    case Detached(i) => i < |s.records| && s.records[i].running.Detaching?
    case Finally(i) => i < |s.records| && s.records[i].running.Finalizing?
    case Issue(i, c) => i < |s.records| && c in s.records[i].live && c in s.records[i].phases && s.records[i].phases[c].Ready?
    case Finish(i, c) =>
      i < |s.records| && c in s.records[i].live && c in s.records[i].phases
      && (s.records[i].phases[c].Issued? || s.records[i].phases[c].Failed?)
    case IdleFires(i) => i < |s.records| && s.records[i].idle
    case Forget(tab) => tab in s.sessions ==> s.sessions[tab] < |s.records|
    case Send(tab) => tab in s.sessions ==> s.sessions[tab] < |s.records|
    case Dropped(tab, _) => tab in s.sessions ==> s.sessions[tab] < |s.records|
    case _ => true
  }

  function Next(s: State, step: Step): State
    requires Enabled(s, step)
  {
    match step
    case Send(tab) =>
      var t := WithSession(s, tab);
      var i := t.sessions[tab];
      Put(t, i, Sending(t.records[i], t.commands)).(commands := t.commands + 1)
    case Begin(i) => Put(s, i, Beginning(s.records[i]))
    case Looked(i, look) =>
      var t := if look.RestrictedPage? then Releasing(s, ReleaseTab(s.records[i].tab, Restricted)) else s;
      Put(t, i, LookEnds(s.records[i], look))
    case Attached(i, answer) =>
      var r := s.records[i];
      var t := Put(s, i, AttachEnds(r, answer));
      if answer.Made? || answer.Found? then t.(chrome := t.chrome + {r.tab})
      else if answer.Refused? then Releasing(t, ReleaseTab(r.tab, Restricted))
      else t
    case Detached(i) => Put(s, i, DetachEnds(s.records[i])).(chrome := s.chrome - {s.records[i].tab})
    case Finally(i) => Ended(Put(s, i, s.records[i].(running := Nothing)), i)
    case Issue(i, c) => Put(s, i, Move(s.records[i], c, Issued(s.records[i].phases[c].drops)))
    case Finish(i, c) => Put(s, i, Finishing(s.records[i], c))
    case IdleFires(i) => Put(s, i, Enqueue(s.records[i].(idle := false), DetachStep(false)))
    case Forget(tab) =>
      if tab !in s.sessions then s
      else
        var i := s.sessions[tab];
        Put(s, i, Enqueue(s.records[i].(idle := false), DetachStep(true)))
    case DetachAll => DetachingAll(s)
    case Dropped(tab, reason) =>
      var t := s.(chrome := s.chrome - {tab});
      if tab in s.sessions && s.records[s.sessions[tab]].detaching then t
      else if reason.CanceledByUser? then Releasing(DroppingAll(t), ReleaseAll(ByUser))
      else
        var u := if tab in s.sessions then Put(t, s.sessions[tab], Dropping(s.records[s.sessions[tab]])) else t;
        if reason.TargetClosed? then u else Releasing(u, ReleaseTab(tab, DetachedReason))
    case TargetLooked(tab, look) =>
      match look
      case Missing => s.(sessions := s.sessions - {tab}, closed := s.closed + {tab})
      case RestrictedPage => Releasing(s, ReleaseTab(tab, Restricted))
      case Debuggable => s
  }

  // ---- What every step keeps ----

  predicate HasDetach(queue: seq<Task>) {
    exists k :: 0 <= k < |queue| && queue[k].DetachStep?
  }

  /** Queued attach steps are of different commands that still wait for them. */
  ghost predicate QueueSafe(r: Session) {
    && (forall k :: 0 <= k < |r.queue| && r.queue[k].AttachFor? ==> StillWaits(r, r.queue[k].command))
    && (forall k, m :: 0 <= k < m < |r.queue| && r.queue[k].AttachFor? && r.queue[m].AttachFor? ==>
          r.queue[k].command != r.queue[m].command)
    && (r.running.Looking? || r.running.Attaching? ==>
          && StillWaits(r, r.running.command)
          && forall k :: 0 <= k < |r.queue| && r.queue[k].AttachFor? ==> r.queue[k].command != r.running.command)
  }

  predicate StillWaits(r: Session, c: int) {
    c in r.live && c in r.phases && r.phases[c].Waiting?
  }

  /** Past its attach step and not over yet. */
  predicate Underway(r: Session, c: int) {
    c in r.live && c in r.phases && (r.phases[c].Ready? || r.phases[c].Issued?)
  }

  /** No attachment of the session was ended by Chrome since the command's attach step. */
  predicate Undisturbed(r: Session, c: int)
    requires Underway(r, c)
  {
    r.phases[c].drops == r.drops
  }

  ghost predicate SessionSafe(r: Session, commands: nat) {
    && r.inflight == |r.live|
    && (forall c :: c in r.live ==> c in r.phases && c < commands)
    && (r.detaching <==> r.running.Detaching?)
    && (r.running.Detaching? ==> forall c :: c in r.live ==> StillWaits(r, c))
    && (forall c :: Underway(r, c) ==> r.phases[c].drops <= r.drops)
    && (forall c :: Underway(r, c) && Undisturbed(r, c) ==> r.attached)
    && (r.attached && r.inflight == 0 ==> r.idle || r.running.Detaching? || HasDetach(r.queue))
    && QueueSafe(r)
  }

  /** A dropped session: all it can still do is skip detach steps. */
  ghost predicate Dead(r: Session) {
    !r.attached && r.live == {} && (r.running.Nothing? || r.running.Finalizing?) && forall k :: 0 <= k < |r.queue| ==> r.queue[k].DetachStep?
  }

  ghost predicate Safe(s: State) {
    && (forall tab :: tab in s.sessions ==> s.sessions[tab] < |s.records| && s.records[s.sessions[tab]].tab == tab)
    && (forall i :: 0 <= i < |s.records| ==> SessionSafe(s.records[i], s.commands))
    && (forall i :: 0 <= i < |s.records| && s.records[i].tab !in s.closed ==> Mapped(s, i) || Dead(s.records[i]))
    && (forall i :: 0 <= i < |s.records| && s.records[i].tab !in s.closed && s.records[i].attached && !s.records[i].detaching ==>
          s.records[i].tab in s.chrome)
  }

  lemma SendingSafe(r: Session, commands: nat)
    requires SessionSafe(r, commands)
    ensures SessionSafe(Sending(r, commands), commands + 1)
  {
    var t := Sending(r, commands);
    assert commands !in r.live;
    assert |t.live| == |r.live| + 1;
    forall k | 0 <= k < |t.queue| && t.queue[k].AttachFor?
      ensures StillWaits(t, t.queue[k].command)
      ensures k < |r.queue| ==> t.queue[k].command < commands
    {
      if k < |r.queue| {
        assert t.queue[k] == r.queue[k] && StillWaits(r, r.queue[k].command);
      }
    }
    assert r.running.Looking? || r.running.Attaching? ==> StillWaits(r, r.running.command);
  }

  lemma EnqueueDetachSafe(r: Session, forgetting: bool, commands: nat)
    requires SessionSafe(r, commands)
    ensures SessionSafe(Enqueue(r.(idle := false), DetachStep(forgetting)), commands)
  {
    var t := Enqueue(r.(idle := false), DetachStep(forgetting));
    assert t.queue[|r.queue|] == DetachStep(forgetting);
    forall k | 0 <= k < |t.queue| && t.queue[k].AttachFor?
      ensures k < |r.queue| && t.queue[k] == r.queue[k] && StillWaits(t, t.queue[k].command)
    {
      assert StillWaits(r, r.queue[k].command);
    }
    assert forall c :: c in r.live && StillWaits(r, c) ==> StillWaits(t, c);
    assert forall c :: Underway(t, c) ==> Underway(r, c) && (Undisturbed(t, c) ==> Undisturbed(r, c));
    assert HasDetach(t.queue);
  }

  lemma BeginningSafe(r: Session, commands: nat)
    requires SessionSafe(r, commands) && r.running.Nothing? && r.queue != []
    ensures SessionSafe(Beginning(r), commands)
  {
    var t := Beginning(r);
    assert t.queue == r.queue[1..];
    if r.queue[0].AttachFor? {
      assert StillWaits(r, r.queue[0].command);
      assert r.live != {};
      forall k | 0 <= k < |t.queue| && t.queue[k].AttachFor?
        ensures StillWaits(t, t.queue[k].command) && t.queue[k].command != r.queue[0].command
      {
        assert t.queue[k] == r.queue[k + 1];
        assert StillWaits(r, r.queue[k + 1].command);
      }
    } else {
      forall k | 0 <= k < |t.queue| && t.queue[k].AttachFor?
        ensures StillWaits(t, t.queue[k].command)
      {
        assert t.queue[k] == r.queue[k + 1];
        assert StillWaits(r, r.queue[k + 1].command);
      }
    }
    assert forall c :: Underway(t, c) ==> Underway(r, c) || t.attached;
  }

  /** The queue and its waiting commands, when one other command's phase changes. */
  lemma OthersWait(r: Session, t: Session, c: int)
    requires QueueSafe(r) && t.queue == r.queue && t.running.Nothing?
    requires forall d :: d != c && StillWaits(r, d) ==> StillWaits(t, d)
    requires forall k :: 0 <= k < |r.queue| && r.queue[k].AttachFor? ==> r.queue[k].command != c
    ensures QueueSafe(t)
  {
    forall k | 0 <= k < |t.queue| && t.queue[k].AttachFor?
      ensures StillWaits(t, t.queue[k].command)
    {
      assert StillWaits(r, r.queue[k].command);
    }
  }

  lemma LookEndsSafe(r: Session, look: Look, commands: nat)
    requires SessionSafe(r, commands) && r.running.Looking?
    ensures SessionSafe(LookEnds(r, look), commands)
  {
    var t, c := LookEnds(r, look), r.running.command;
    assert StillWaits(r, c) && r.live != {};
    assert forall d :: Underway(t, d) ==> Underway(r, d) && (Undisturbed(t, d) ==> Undisturbed(r, d));
    if look.Debuggable? {
      forall k | 0 <= k < |t.queue| && t.queue[k].AttachFor?
        ensures StillWaits(t, t.queue[k].command)
      {
        assert StillWaits(r, r.queue[k].command);
      }
    } else {
      OthersWait(r, t, c);
    }
  }

  lemma AttachEndsSafe(r: Session, answer: AttachAnswer, commands: nat)
    requires SessionSafe(r, commands) && r.running.Attaching?
    ensures SessionSafe(AttachEnds(r, answer), commands)
  {
    var t, c := AttachEnds(r, answer), r.running.command;
    assert StillWaits(r, c) && r.live != {};
    assert forall d :: Underway(t, d) && d != c ==> Underway(r, d) && (Undisturbed(t, d) ==> Undisturbed(r, d));
    OthersWait(r, t, c);
  }

  lemma DetachEndsSafe(r: Session, commands: nat)
    requires SessionSafe(r, commands) && r.running.Detaching?
    ensures SessionSafe(DetachEnds(r), commands)
  {
    var t := DetachEnds(r);
    assert forall c :: c in r.live ==> StillWaits(r, c);
    assert forall c :: !Underway(t, c);
    assert forall k :: 0 <= k < |r.queue| && r.queue[k].AttachFor? ==> StillWaits(r, r.queue[k].command);
    assert forall c :: StillWaits(r, c) ==> StillWaits(t, c);
  }

  /** A command past its attach step moves on, or ends. */
  lemma IssueSafe(r: Session, c: int, commands: nat)
    requires SessionSafe(r, commands) && Underway(r, c) && r.phases[c].Ready?
    ensures SessionSafe(Move(r, c, Issued(r.phases[c].drops)), commands)
  {
    var t := Move(r, c, Issued(r.phases[c].drops));
    assert forall d :: Underway(t, d) ==> Underway(r, d) && (Undisturbed(t, d) ==> Undisturbed(r, d));
    assert forall d :: StillWaits(r, d) <==> StillWaits(t, d);
    assert forall k :: 0 <= k < |r.queue| && r.queue[k].AttachFor? ==> StillWaits(r, r.queue[k].command);
    assert r.running.Detaching? ==> !StillWaits(r, c);
  }

  lemma FinishSafe(r: Session, c: int, commands: nat)
    requires SessionSafe(r, commands) && c in r.live && c in r.phases && !r.phases[c].Waiting?
    ensures SessionSafe(Finishing(r, c), commands)
  {
    var t := Finishing(r, c);
    assert |t.live| == |r.live| - 1;
    assert forall d :: Underway(t, d) ==> Underway(r, d) && (Undisturbed(t, d) ==> Undisturbed(r, d));
    assert forall d :: StillWaits(r, d) ==> StillWaits(t, d);
    assert forall k :: 0 <= k < |r.queue| && r.queue[k].AttachFor? ==> StillWaits(r, r.queue[k].command);
    assert !StillWaits(r, c);
  }

  lemma DroppingSafe(r: Session, commands: nat)
    requires SessionSafe(r, commands)
    ensures SessionSafe(Dropping(r), commands)
  {
    var t := Dropping(r);
    assert forall d :: Underway(t, d) ==> Underway(r, d) && !Undisturbed(t, d);
    assert forall d :: StillWaits(r, d) ==> StillWaits(t, d);
    assert forall k :: 0 <= k < |r.queue| && r.queue[k].AttachFor? ==> StillWaits(r, r.queue[k].command);
    assert r.running.Looking? || r.running.Attaching? ==> StillWaits(r, r.running.command);
  }

  // ---- The whole state ----

  /** A detached, unused and idle session is as good as dropped. */
  lemma UnusedIsDead(r: Session, commands: nat)
    requires SessionSafe(r, commands) && !r.attached && r.inflight == 0 && r.running.Nothing?
    ensures Dead(r)
  {
    assert forall k :: 0 <= k < |r.queue| && r.queue[k].AttachFor? ==> StillWaits(r, r.queue[k].command);
  }

  lemma PutSafe(s: State, i: nat, r: Session, commands: nat)
    requires Safe(s) && i < |s.records| && s.commands <= commands
    requires SessionSafe(r, commands) && r.tab == s.records[i].tab && (Dead(s.records[i]) ==> Dead(r) || Mapped(s, i))
    requires r.tab !in s.closed && r.attached && !r.detaching ==> r.tab in s.chrome
    ensures Safe(Put(s, i, r).(commands := commands))
  {
    var t := Put(s, i, r).(commands := commands);
    hide SessionSafe, Dead;
    forall k | 0 <= k < |t.records|
      ensures SessionSafe(t.records[k], commands)
    {
      if k != i {
        MoreCommands(s.records[k], s.commands, commands);
      }
    }
    assert forall k :: 0 <= k < |t.records| ==> t.records[k].tab == s.records[k].tab;
    assert forall k :: 0 <= k < |t.records| ==> (Mapped(s, k) <==> Mapped(t, k));
  }

  lemma MoreCommands(r: Session, commands: nat, more: nat)
    requires SessionSafe(r, commands) && commands <= more
    ensures SessionSafe(r, more)
  {
    hide QueueSafe, HasDetach;
  }

  lemma WithSessionSafe(s: State, tab: int)
    requires Safe(s)
    ensures var t := WithSession(s, tab);
            Safe(t) && tab in t.sessions && t.commands == s.commands && t.chrome == s.chrome && Mapped(t, t.sessions[tab])
  {
    var t := WithSession(s, tab);
    if tab !in s.sessions {
      assert SessionSafe(NewSession(tab), s.commands) && forall c :: !Underway(NewSession(tab), c);
      hide SessionSafe, Dead;
      forall k | 0 <= k < |s.records|
        ensures t.records[k] == s.records[k] && (Mapped(s, k) ==> Mapped(t, k))
      {
      }
    }
  }

  lemma EndedSafe(s: State, i: nat)
    requires Safe(s) && i < |s.records| && s.records[i].running.Nothing?
    ensures Safe(Ended(s, i))
  {
    var t, r := Ended(s, i), s.records[i];
    if t != s {
      UnusedIsDead(r, s.commands);
      hide SessionSafe, Dead;
      assert forall k :: 0 <= k < |s.records| && Mapped(s, k) && k != i ==> Mapped(t, k);
    }
  }

  lemma DetachingAllSafe(s: State)
    requires Safe(s)
    ensures Safe(DetachingAll(s))
  {
    var t := DetachingAll(s);
    forall i | 0 <= i < |s.records|
      ensures SessionSafe(t.records[i], s.commands) && t.records[i].tab == s.records[i].tab
      ensures t.records[i].attached == s.records[i].attached && t.records[i].detaching == s.records[i].detaching
      ensures !Mapped(s, i) ==> t.records[i] == s.records[i]
    {
      EnqueueDetachSafe(s.records[i], false, s.commands);
      if !s.records[i].attached {
        QuietSafe(s.records[i], s.commands);
      }
    }
    hide SessionSafe, Dead;
    assert forall i :: 0 <= i < |s.records| ==> (Mapped(s, i) <==> Mapped(t, i));
  }

  /** A detached session needs no idle timer. */
  lemma QuietSafe(r: Session, commands: nat)
    requires SessionSafe(r, commands) && !r.attached
    ensures SessionSafe(r.(idle := false), commands)
  {
    var t := r.(idle := false);
    assert forall c :: Underway(t, c) ==> Underway(r, c) && (Undisturbed(t, c) ==> Undisturbed(r, c));
    assert forall c :: StillWaits(t, c) <==> StillWaits(r, c);
  }

  lemma DroppingAllSafe(s: State)
    requires Safe(s)
    ensures Safe(DroppingAll(s))
  {
    var t := DroppingAll(s);
    forall i | 0 <= i < |s.records|
      ensures SessionSafe(t.records[i], s.commands) && t.records[i].tab == s.records[i].tab
      ensures !Mapped(s, i) ==> t.records[i] == s.records[i]
      ensures Mapped(s, i) ==> !t.records[i].attached
    {
      DroppingSafe(s.records[i], s.commands);
    }
    assert forall i :: 0 <= i < |s.records| && Dead(s.records[i]) ==> !s.records[i].attached;
    hide SessionSafe, Dead;
    assert forall i :: 0 <= i < |s.records| ==> (Mapped(s, i) <==> Mapped(t, i));
  }

  /** Chrome ends a tab's attachment that no session holds, or that is being detached. */
  lemma UnheldSafe(s: State, tab: int)
    requires Safe(s)
    requires forall i :: 0 <= i < |s.records| && s.records[i].tab == tab && s.records[i].attached ==>
               s.records[i].detaching || tab in s.closed
    ensures Safe(s.(chrome := s.chrome - {tab}))
  {
    hide SessionSafe, Dead;
    var t := s.(chrome := s.chrome - {tab});
    assert forall i :: 0 <= i < |s.records| ==> (Mapped(s, i) <==> Mapped(t, i));
  }

  lemma BeginSafe(s: State, i: nat)
    requires Safe(s) && Enabled(s, Begin(i))
    ensures Safe(Next(s, Begin(i)))
  {
    var r := s.records[i];
    BeginningSafe(r, s.commands);
    DeadBegins(r);
    PutSafe(s, i, Beginning(r), s.commands);
  }

  lemma DeadBegins(r: Session)
    requires r.queue != []
    ensures Dead(r) ==> Dead(Beginning(r))
  {
  }

  lemma DetachedSafe(s: State, i: nat)
    requires Safe(s) && Enabled(s, Detached(i))
    ensures Safe(Next(s, Detached(i)))
  {
    var r := s.records[i];
    var q := DetachEnds(r);
    DetachEndsSafe(r, s.commands);
    PutSafe(s, i, q, s.commands);
    var t := Put(s, i, q);
    DeadIsQuiet(s);
    hide SessionSafe, Dead;
    assert Mapped(s, i) || r.tab in s.closed;
    forall k | 0 <= k < |t.records| && t.records[k].tab == r.tab && t.records[k].attached
      ensures t.records[k].detaching || r.tab in t.closed
    {
      assert t.records[k] == s.records[k];
      assert Mapped(s, k) || r.tab in s.closed;
    }
    UnheldSafe(t, r.tab);
  }

  lemma FinallySafe(s: State, i: nat)
    requires Safe(s) && Enabled(s, Finally(i))
    ensures Safe(Next(s, Finally(i)))
  {
    var r := s.records[i].(running := Nothing);
    FinalizedSafe(s.records[i], s.commands);
    PutSafe(s, i, r, s.commands);
    hide SessionSafe, Dead;
    EndedSafe(Put(s, i, r), i);
  }

  lemma FinalizedSafe(r: Session, commands: nat)
    requires r.running.Finalizing? && SessionSafe(r, commands)
    ensures SessionSafe(r.(running := Nothing), commands) && (Dead(r) ==> Dead(r.(running := Nothing)))
  {
    var t := r.(running := Nothing);
    assert forall c :: Underway(t, c) <==> Underway(r, c);
    assert forall c :: StillWaits(t, c) <==> StillWaits(r, c);
    assert forall c :: Underway(r, c) ==> (Undisturbed(t, c) <==> Undisturbed(r, c));
  }

  /** What is asked of the owner changes nothing else. */
  lemma ReleasingSafe(s: State, release: Release)
    requires Safe(s)
    ensures Safe(Releasing(s, release))
  {
    hide SessionSafe, Dead;
    var t := Releasing(s, release);
    assert forall i :: 0 <= i < |s.records| ==> (Mapped(s, i) <==> Mapped(t, i));
  }

  lemma DeadIsQuiet(s: State)
    ensures forall i :: 0 <= i < |s.records| && Dead(s.records[i]) ==> !s.records[i].attached && !s.records[i].running.Detaching?
  {
  }

  lemma DroppedSafe(s: State, tab: int, reason: DropReason)
    requires Safe(s) && Enabled(s, Dropped(tab, reason))
    ensures Safe(Next(s, Dropped(tab, reason)))
  {
    DeadIsQuiet(s);
    hide SessionSafe, Dead, HasDetach, QueueSafe;
    forall k | 0 <= k < |s.records| && s.records[k].tab == tab && s.records[k].attached && tab !in s.closed
      ensures tab in s.sessions && s.sessions[tab] == k
    {
      assert Mapped(s, k);
    }
    if tab in s.sessions && s.records[s.sessions[tab]].detaching {
      UnheldSafe(s, tab);
    } else if reason.CanceledByUser? {
      CanceledSafe(s, tab);
    } else {
      if tab in s.sessions {
        var i := s.sessions[tab];
        DroppingSafe(s.records[i], s.commands);
        PutSafe(s, i, Dropping(s.records[i]), s.commands);
        UnheldSafe(Put(s, i, Dropping(s.records[i])), tab);
      } else {
        UnheldSafe(s, tab);
      }
      var u := if tab in s.sessions then Put(s, s.sessions[tab], Dropping(s.records[s.sessions[tab]])) else s;
      ReleasingSafe(u.(chrome := s.chrome - {tab}), ReleaseTab(tab, DetachedReason));
    }
  }

  lemma CanceledSafe(s: State, tab: int)
    requires Safe(s)
    ensures Safe(Releasing(DroppingAll(s.(chrome := s.chrome - {tab})), ReleaseAll(ByUser)))
  {
    DroppingAllSafe(s);
    assert DroppingAll(s.(chrome := s.chrome - {tab})) == DroppingAll(s);
    ReleasingSafe(DroppingAll(s), ReleaseAll(ByUser));
  }

  lemma AttachedSafe(s: State, i: nat, answer: AttachAnswer)
    requires Safe(s) && Enabled(s, Attached(i, answer))
    ensures Safe(Next(s, Attached(i, answer)))
  {
    var r := s.records[i];
    var t := if answer.Made? || answer.Found? then s.(chrome := s.chrome + {r.tab}) else s;
    DeadIsQuiet(s);
    NotAttachedYet(s, i);
    AttachEndsSafe(r, answer, s.commands);
    hide SessionSafe, Dead;
    assert forall k :: 0 <= k < |s.records| ==> (Mapped(s, k) <==> Mapped(t, k));
    assert Safe(t);
    PutSafe(t, i, AttachEnds(r, answer), s.commands);
    ReleasingSafe(Put(t, i, AttachEnds(r, answer)), ReleaseTab(r.tab, Restricted));
  }

  /** A failed attach changes nothing of what Chrome holds. */
  lemma NotAttachedYet(s: State, i: nat)
    requires Safe(s) && i < |s.records| && s.records[i].running.Attaching?
    ensures !s.records[i].detaching
  {
  }

  /** Every step, from any safe state, leads to a safe one. */
  lemma StepSafe(s: State, step: Step)
    requires Safe(s) && Enabled(s, step)
    ensures Safe(Next(s, step))
  {
    match step
    case Send(tab) => SendSafe(s, tab);
    case Begin(i) => BeginSafe(s, i);
    case Looked(i, look) => LookedSafe(s, i, look);
    case Attached(i, answer) => AttachedSafe(s, i, answer);
    case Detached(i) => DetachedSafe(s, i);
    case Finally(i) => FinallySafe(s, i);
    case Issue(i, c) =>
      IssueSafe(s.records[i], c, s.commands);
      PutSafe(s, i, Move(s.records[i], c, Issued(s.records[i].phases[c].drops)), s.commands);
    case Finish(i, c) =>
      FinishSafe(s.records[i], c, s.commands);
      PutSafe(s, i, Finishing(s.records[i], c), s.commands);
    case IdleFires(i) =>
      EnqueueDetachSafe(s.records[i], false, s.commands);
      PutSafe(s, i, Enqueue(s.records[i].(idle := false), DetachStep(false)), s.commands);
    case Forget(tab) =>
      if tab in s.sessions {
        var i := s.sessions[tab];
        EnqueueDetachSafe(s.records[i], true, s.commands);
        PutSafe(s, i, Enqueue(s.records[i].(idle := false), DetachStep(true)), s.commands);
      }
    case DetachAll => DetachingAllSafe(s);
    case Dropped(tab, reason) => DroppedSafe(s, tab, reason);
    case TargetLooked(tab, look) => TargetLookedSafe(s, tab, look);
  }

  lemma SendSafe(s: State, tab: int)
    requires Safe(s)
    ensures Safe(Next(s, Send(tab)))
  {
    var t := WithSession(s, tab);
    WithSessionSafe(s, tab);
    var r := t.records[t.sessions[tab]];
    SendingSafe(r, t.commands);
    hide SessionSafe, Dead;
    PutSafe(t, t.sessions[tab], Sending(r, t.commands), t.commands + 1);
  }

  lemma LookedSafe(s: State, i: nat, look: Look)
    requires Safe(s) && Enabled(s, Looked(i, look))
    ensures Safe(Next(s, Looked(i, look)))
  {
    LookEndsSafe(s.records[i], look, s.commands);
    PutSafe(s, i, LookEnds(s.records[i], look), s.commands);
    hide SessionSafe, Dead, LookEnds;
    ReleasingSafe(Put(s, i, LookEnds(s.records[i], look)), ReleaseTab(s.records[i].tab, Restricted));
  }

  lemma TargetLookedSafe(s: State, tab: int, look: Look)
    requires Safe(s)
    ensures Safe(Next(s, TargetLooked(tab, look)))
  {
    hide SessionSafe, Dead;
    var t := Next(s, TargetLooked(tab, look));
    ReleasingSafe(s, ReleaseTab(tab, Restricted));
    assert forall i :: 0 <= i < |s.records| && Mapped(s, i) && s.records[i].tab != tab ==> Mapped(t, i);
  }

  // ---- Runs ----

  /** A run from a worker that has just started; Chrome may still hold attachments of the one before. */
  datatype Run = Start(chrome: set<int>) | Then(before: Run, step: Step)

  ghost predicate IsRun(run: Run)
    decreases run, 0
  {
    run.Start? || (IsRun(run.before) && Enabled(StateOf(run.before), run.step))
  }

  ghost function StateOf(run: Run): State
    requires IsRun(run)
    decreases run, 1
  {
    match run
    case Start(chrome) => State(map[], [], chrome, {}, 0, [])
    case Then(before, step) => Next(StateOf(before), step)
  }

  lemma {:induction false} RunSafe(run: Run)
    requires IsRun(run)
    ensures Safe(StateOf(run))
  {
    if run.Then? {
      RunSafe(run.before);
      hide Safe, Next, Enabled;
      StepSafe(StateOf(run.before), run.step);
    }
  }

  /** An attach or a detach of ours that Chrome has not answered yet. */
  predicate Calling(r: Session) {
    r.running.Attaching? || r.running.Detaching?
  }

  predicate SameOpenTab(s: State, i: nat, k: nat) {
    i < |s.records| && k < |s.records| && s.records[i].tab == s.records[k].tab && s.records[i].tab !in s.closed
  }

  /** In every interleaving, at most one attach or detach of an open tab is with Chrome at a time. */
  lemma CallsNeverOverlap(run: Run, i: nat, k: nat)
    requires IsRun(run) && SameOpenTab(StateOf(run), i, k)
    requires Calling(StateOf(run).records[i]) && Calling(StateOf(run).records[k])
    ensures i == k
  {
    RunSafe(run);
    var s := StateOf(run);
    assert Mapped(s, i) && Mapped(s, k);
  }

  /** While we detach an open tab, no command of it is past its attach step and not over. */
  lemma DetachSparesCommands(run: Run, i: nat, k: nat, c: int)
    requires IsRun(run) && SameOpenTab(StateOf(run), i, k)
    requires StateOf(run).records[i].running.Detaching?
    ensures !Underway(StateOf(run).records[k], c)
  {
    RunSafe(run);
    var s := StateOf(run);
    assert Mapped(s, i);
    assert Mapped(s, k) || Dead(s.records[k]);
    assert c in s.records[k].live ==> k == i && StillWaits(s.records[k], c);
  }

  /** A command is sent while its tab is attached, unless Chrome ended the attachment after its attach step. */
  lemma SentWhileAttached(run: Run, i: nat, c: int)
    requires IsRun(run) && Enabled(StateOf(run), Issue(i, c)) && StateOf(run).records[i].tab !in StateOf(run).closed
    requires Undisturbed(StateOf(run).records[i], c)
    ensures StateOf(run).records[i].attached && StateOf(run).records[i].tab in StateOf(run).chrome
  {
    RunSafe(run);
    var s := StateOf(run);
    assert Underway(s.records[i], c);
    assert c in s.records[i].live && !StillWaits(s.records[i], c);
    assert s.records[i].attached && !s.records[i].detaching;
  }

  /** An attached session that runs no command will be detached: a timer is armed, or a detach is on its way. */
  lemma UnusedWillDetach(run: Run, i: nat)
    requires IsRun(run) && i < |StateOf(run).records|
    ensures var r := StateOf(run).records[i];
            r.attached && r.inflight == 0 ==> r.idle || r.running.Detaching? || HasDetach(r.queue)
  {
    RunSafe(run);
  }

  /** `inflight` counts the commands that are not over. */
  lemma InflightCounts(run: Run, i: nat)
    requires IsRun(run) && i < |StateOf(run).records|
    ensures StateOf(run).records[i].inflight == |StateOf(run).records[i].live|
  {
    RunSafe(run);
  }

  // ---- The user's kill switch ----

  /** Every session of a tab is detached, its timer cleared, and the owner asked to release all tabs. */
  ghost predicate StopsAll(s: State, t: State) {
    && t.releases == s.releases + [ReleaseAll(ByUser)]
    && forall i :: 0 <= i < |t.records| && Mapped(t, i) ==> !t.records[i].attached && !t.records[i].idle
  }

  /**
   * The bar's Cancel stops every tab exactly when the tab it is reported for is not one that we are
   * detaching ourselves at the time.
   */
  lemma CancelStopsAll(s: State, tab: int)
    requires Safe(s)
    ensures StopsAll(s, Next(s, Dropped(tab, CanceledByUser))) <==>
              !(tab in s.sessions && s.records[s.sessions[tab]].detaching)
  {
    var t := Next(s, Dropped(tab, CanceledByUser));
    hide SessionSafe, Dead;
    if tab in s.sessions && s.records[s.sessions[tab]].detaching {
      assert |t.releases| == |s.releases|;
    } else {
      assert t.sessions == s.sessions && |t.records| == |s.records|;
      forall i | 0 <= i < |t.records| && Mapped(t, i)
        ensures !t.records[i].attached && !t.records[i].idle
      {
        assert Mapped(s.(chrome := s.chrome - {tab}), i);
      }
    }
  }

  /** One more step of a run, and where it leads. */
  lemma StepTo(run: Run, step: Step, s: State) returns (next: Run)
    requires IsRun(run) && Enabled(StateOf(run), step) && Next(StateOf(run), step) == s
    ensures next == Then(run, step) && IsRun(next) && StateOf(next) == s
  {
    next := Then(run, step);
  }

  /** A first command on a tab that runs, its attach step done. */
  function Attached1(tab: int, c: int): Session {
    Session(tab, true, false, 1, false, [], Nothing, {c}, map[c := Ready(0)], 0)
  }

  lemma FirstCommand(run: Run, tab: int) returns (next: Run)
    requires IsRun(run) && tab !in StateOf(run).sessions
    ensures IsRun(next)
    ensures var s := StateOf(run);
            StateOf(next) == s.(sessions := s.sessions[tab := |s.records|],
                                records := s.records + [Attached1(tab, s.commands)],
                                chrome := s.chrome + {tab}, commands := s.commands + 1)
  {
    var s := StateOf(run);
    var i, c := |s.records|, s.commands;
    var begun := s.(sessions := s.sessions[tab := i], commands := c + 1);
    hide StateOf, IsRun;
    var sent := Session(tab, false, false, 1, false, [AttachFor(c)], Nothing, {c}, map[c := Waiting], 0);
    var looking := sent.(queue := [], running := Looking(c));
    var attaching := looking.(running := Attaching(c));
    CommandStages(tab, c);
    hide Sending, Beginning, LookEnds, AttachEnds, Attached1;
    LastPut(s.records, NewSession(tab), sent);
    LastPut(s.records, sent, looking);
    LastPut(s.records, looking, attaching);
    LastPut(s.records, attaching, Attached1(tab, c));
    next := StepTo(run, Send(tab), begun.(records := s.records + [sent]));
    next := StepTo(next, Begin(i), begun.(records := s.records + [looking]));
    next := StepTo(next, Looked(i, Debuggable), begun.(records := s.records + [attaching]));
    next := StepTo(next, Attached(i, Made), begun.(records := s.records + [Attached1(tab, c)], chrome := s.chrome + {tab}));
  }

  lemma CommandStages(tab: int, c: int)
    ensures var sent := Session(tab, false, false, 1, false, [AttachFor(c)], Nothing, {c}, map[c := Waiting], 0);
            var looking := sent.(queue := [], running := Looking(c));
            var attaching := looking.(running := Attaching(c));
            && Sending(NewSession(tab), c) == sent && Beginning(sent) == looking
            && LookEnds(looking, Debuggable) == attaching && AttachEnds(attaching, Made) == Attached1(tab, c)
  {
  }

  lemma LastPut(rs: seq<Session>, a: Session, b: Session)
    ensures (rs + [a])[|rs| := b] == rs + [b] && (rs + [a])[|rs|] == a
  {
  }

  /** From its first command on: sent, over, and then the idle timer starts the detach. */
  lemma IdleDetach(run: Run, tab: int, rest: seq<Session>) returns (next: Run)
    requires IsRun(run) && StateOf(run).records == [Attached1(tab, 0)] + rest
    ensures IsRun(next)
    ensures StateOf(next) == StateOf(run).(records := [IdleDetaching(tab)] + rest)
  {
    var s, r := StateOf(run), Attached1(tab, 0);
    hide StateOf, IsRun;
    var issued := r.(phases := map[0 := Issued(0)]);
    var over := issued.(inflight := 0, live := {}, idle := true);
    var fired := over.(idle := false, queue := [DetachStep(false)]);
    assert Move(r, 0, Issued(0)) == issued && Finishing(issued, 0) == over;
    assert Enqueue(over.(idle := false), DetachStep(false)) == fired && Beginning(fired) == IdleDetaching(tab);
    hide Move, Finishing, Enqueue, Beginning, Attached1, IdleDetaching;
    FirstPut(rest, r, issued);
    FirstPut(rest, issued, over);
    FirstPut(rest, over, fired);
    FirstPut(rest, fired, IdleDetaching(tab));
    next := StepTo(run, Issue(0, 0), s.(records := [issued] + rest));
    next := StepTo(next, Finish(0, 0), s.(records := [over] + rest));
    next := StepTo(next, IdleFires(0), s.(records := [fired] + rest));
    next := StepTo(next, Begin(0), s.(records := [IdleDetaching(tab)] + rest));
  }

  function IdleDetaching(tab: int): Session {
    Session(tab, true, true, 0, false, [], Detaching(false), {}, map[0 := Issued(0)], 0)
  }

  lemma FirstPut(rest: seq<Session>, a: Session, b: Session)
    ensures ([a] + rest)[0 := b] == [b] + rest && ([a] + rest)[0] == a
  {
  }

  /**
   * A run in which Cancel is missed: the tab it is reported for is in its idle detach, and another
   * tab stays attached, its command under way, with nothing released.
   */
  lemma CancelMissed() returns (run: Run)
    ensures IsRun(run) && Enabled(StateOf(run), Dropped(1, CanceledByUser))
    ensures var t := Next(StateOf(run), Dropped(1, CanceledByUser));
            && t.releases == [] && 2 in t.sessions && t.sessions[2] == 1 && |t.records| == 2
            && t.records[1].attached && t.records[1].inflight == 1
  {
    run := Start({});
    assert IsRun(run) && StateOf(run) == State(map[], [], {}, {}, 0, []);
    hide *;
    run := FirstCommand(run, 1);
    run := FirstCommand(run, 2);
    assert StateOf(run).records == [Attached1(1, 0)] + [Attached1(2, 1)];
    run := IdleDetach(run, 1, [Attached1(2, 1)]);
    MissesCancel(StateOf(run));
  }

  lemma MissesCancel(s: State)
    requires s.sessions == map[1 := 0, 2 := 1] && s.records == [IdleDetaching(1), Attached1(2, 1)] && s.releases == []
    ensures Enabled(s, Dropped(1, CanceledByUser))
    ensures var t := Next(s, Dropped(1, CanceledByUser));
            && t.releases == [] && 2 in t.sessions && t.sessions[2] == 1 && |t.records| == 2
            && t.records[1].attached && t.records[1].inflight == 1
  {
  }

  /** The class itself: its fields, and a method for each stretch of code between two awaits. */
  class Debuggee {
    var sessions: map<int, nat>
    var records: seq<Session>
    var commands: nat
    ghost var chrome: set<int>
    ghost var closed: set<int>
    /** The calls of `options.release` so far. */
    ghost var releases: seq<Release>

    ghost function Now(): State
      reads this
    {
      State(sessions, records, chrome, closed, commands, releases)
    }

    constructor (ghost held: set<int>)
      ensures Now() == StateOf(Start(held)) && Safe(Now())
    {
      sessions, records, commands := map[], [], 0;
      chrome, closed, releases := held, {}, [];
    }

    method SessionFor(tab: int) returns (i: nat)
      requires Safe(Now())
      modifies this
      ensures Now() == WithSession(old(Now()), tab) && tab in sessions && i == sessions[tab] && i < |records|
    {
      if tab !in sessions {
        sessions := sessions[tab := |records|];
        records := records + [NewSession(tab)];
      }
      i := sessions[tab];
    }

    /** `send`, up to its first await: the command's attach step is queued. */
    method Send(tab: int) returns (i: nat, c: nat)
      requires Safe(Now())
      modifies this
      ensures Now() == Next(old(Now()), Step.Send(tab)) && Safe(Now())
      ensures i < |records| && c == old(commands) && StillWaits(records[i], c)
    {
      SendSafe(Now(), tab);
      i := SessionFor(tab);
      c := commands;
      commands := commands + 1;
      var r := records[i];
      r := r.(inflight := r.inflight + 1, live := r.live + {c}, phases := r.phases[c := Waiting]);
      r := r.(idle := false);
      records := records[i := Enqueue(r, AttachFor(c))];
    }

    /** The session's next queued step starts. */
    method BeginStep(i: nat)
      requires Safe(Now()) && Enabled(Now(), Begin(i))
      modifies this
      ensures Now() == Next(old(Now()), Begin(i)) && Safe(Now())
    {
      BeginSafe(Now(), i);
      var r := records[i];
      var task := r.queue[0];
      r := r.(queue := r.queue[1..]);
      match task {
        case AttachFor(c) =>
          if r.attached {
            r := r.(phases := r.phases[c := Ready(r.drops)]);
          } else {
            r := r.(running := Looking(c));
          }
          records := records[i := r];
        case DetachStep(forgetting) =>
          if !r.attached || r.inflight > 0 {
            records := records[i := r.(running := AfterDetach(forgetting))];
          } else {
            records := records[i := r.(detaching := true, running := Detaching(forgetting))];
          }
      }
    }

    /** The `finally` of `forget`, a moment after its detach step has ended; a command may have come before it. */
    method DetachForgotten(i: nat)
      requires Safe(Now()) && Enabled(Now(), Finally(i))
      modifies this
      ensures Now() == Next(old(Now()), Finally(i)) && Safe(Now())
      ensures sessions == old(sessions) || (!records[i].attached && records[i].inflight == 0)
    {
      FinallySafe(Now(), i);
      var r := records[i].(running := Nothing);
      records := records[i := r];
      if r.tab in sessions && sessions[r.tab] == i && !r.attached && r.inflight == 0 {
        sessions := sessions - {r.tab};
      }
    }

    /** `chrome.tabs.get` has answered an attach step. */
    method TabLooked(i: nat, look: Look)
      requires Safe(Now()) && Enabled(Now(), Looked(i, look))
      modifies this
      ensures Now() == Next(old(Now()), Looked(i, look)) && Safe(Now())
    {
      LookedSafe(Now(), i, look);
      var r := records[i];
      var c := r.running.command;
      if look.Debuggable? {
        r := r.(running := Attaching(c));
      } else {
        if look.RestrictedPage? {
          releases := releases + [ReleaseTab(r.tab, Restricted)];
        }
        r := r.(phases := r.phases[c := Failed], running := Nothing);
      }
      records := records[i := r];
    }

    /** `chrome.debugger.attach` has answered; an attachment Chrome already had counts as made. */
    method AttachAnswered(i: nat, answer: AttachAnswer)
      requires Safe(Now()) && Enabled(Now(), Attached(i, answer))
      modifies this
      ensures Now() == Next(old(Now()), Attached(i, answer)) && Safe(Now())
    {
      AttachedSafe(Now(), i, answer);
      var r := records[i];
      var c := r.running.command;
      if answer.Made? || answer.Found? {
        chrome := chrome + {r.tab};
        r := r.(phases := r.phases[c := Ready(r.drops)], attached := true, running := Nothing);
      } else {
        if answer.Refused? {
          releases := releases + [ReleaseTab(r.tab, Restricted)];
        }
        r := r.(phases := r.phases[c := Failed], running := Nothing);
      }
      records := records[i := r];
    }

    /** `chrome.debugger.detach` has answered, or failed because nothing was attached. */
    method DetachAnswered(i: nat)
      requires Safe(Now()) && Enabled(Now(), Detached(i))
      modifies this
      ensures Now() == Next(old(Now()), Detached(i)) && Safe(Now())
    {
      DetachedSafe(Now(), i);
      var r := records[i];
      chrome := chrome - {r.tab};
      records := records[i := r.(detaching := false, attached := false, running := AfterDetach(r.running.forgetting))];
    }

    /** `send` goes on after its attach step: the command is sent, to a tab that is still attached. */
    method SendCommand(i: nat, c: int)
      requires Safe(Now()) && Enabled(Now(), Issue(i, c))
      modifies this
      ensures Now() == Next(old(Now()), Issue(i, c)) && Safe(Now())
      ensures records[i].phases[c].drops == records[i].drops ==> records[i].attached
    {
      StepSafe(Now(), Issue(i, c));
      var r := records[i];
      assert Underway(r, c);
      records := records[i := r.(phases := r.phases[c := Issued(r.phases[c].drops)])];
    }

    /** The `finally` of `send`. */
    method CommandOver(i: nat, c: int)
      requires Safe(Now()) && Enabled(Now(), Finish(i, c))
      modifies this
      ensures Now() == Next(old(Now()), Finish(i, c)) && Safe(Now())
    {
      StepSafe(Now(), Finish(i, c));
      var r := records[i];
      r := r.(inflight := r.inflight - 1, live := r.live - {c});
      if r.inflight == 0 && r.attached {
        r := r.(idle := true);
      }
      records := records[i := r];
    }

    method IdleTimerFires(i: nat)
      requires Safe(Now()) && Enabled(Now(), IdleFires(i))
      modifies this
      ensures Now() == Next(old(Now()), IdleFires(i)) && Safe(Now())
    {
      StepSafe(Now(), IdleFires(i));
      records := records[i := Enqueue(records[i].(idle := false), DetachStep(false))];
    }

    method Forget(tab: int)
      requires Safe(Now())
      modifies this
      ensures Now() == Next(old(Now()), Step.Forget(tab)) && Safe(Now())
    {
      StepSafe(Now(), Step.Forget(tab));
      if tab in sessions {
        var i := sessions[tab];
        records := records[i := Enqueue(records[i].(idle := false), DetachStep(true))];
      }
    }

    method DetachAll()
      requires Safe(Now())
      modifies this
      ensures Now() == Next(old(Now()), Step.DetachAll) && Safe(Now())
    {
      DetachingAllSafe(Now());
      hide Safe;
      var was := records;
      var i := 0;
      while i < |records|
        invariant 0 <= i <= |records| == |was|
        invariant sessions == old(sessions) && commands == old(commands) && chrome == old(chrome) && closed == old(closed)
        invariant releases == old(releases)
        invariant forall k :: 0 <= k < i ==> records[k] == DetachingAll(old(Now())).records[k]
        invariant forall k :: i <= k < |was| ==> records[k] == was[k]
      {
        var r := records[i];
        if r.tab in sessions && sessions[r.tab] == i {
          r := r.(idle := false);
          if r.attached {
            r := Enqueue(r, DetachStep(false));
          }
        }
        records := records[i := r];
        i := i + 1;
      }
      assert records == DetachingAll(old(Now())).records;
    }

    /** `handleDetach`, up to the question whether the tab still exists. */
    method HandleDetach(tab: int, reason: DropReason)
      requires Safe(Now())
      modifies this
      ensures Now() == Next(old(Now()), Dropped(tab, reason)) && Safe(Now())
    {
      DroppedSafe(Now(), tab, reason);
      chrome := chrome - {tab};
      if tab in sessions && records[sessions[tab]].detaching {
        return;
      }
      if reason.CanceledByUser? {
        DropAll();
        releases := releases + [ReleaseAll(ByUser)];
        return;
      }
      if tab in sessions {
        var r := records[sessions[tab]];
        records := records[sessions[tab] := r.(attached := false, idle := false, drops := r.drops + 1)];
      }
      if !reason.TargetClosed? {
        releases := releases + [ReleaseTab(tab, DetachedReason)];
      }
    }

    method DropAll()
      modifies this
      ensures Now() == DroppingAll(old(Now()))
    {
      var was := records;
      chrome := {};
      var i := 0;
      while i < |records|
        invariant 0 <= i <= |records| == |was|
        invariant sessions == old(sessions) && commands == old(commands) && chrome == {} && closed == old(closed)
        invariant releases == old(releases)
        invariant forall k :: 0 <= k < i ==> records[k] == DroppingAll(old(Now())).records[k]
        invariant forall k :: i <= k < |was| ==> records[k] == was[k]
      {
        var r := records[i];
        if r.tab in sessions && sessions[r.tab] == i {
          r := r.(attached := false, idle := false, drops := r.drops + 1);
        }
        records := records[i := r];
        i := i + 1;
      }
      assert records == DroppingAll(old(Now())).records;
    }

    /** `handleDetach` of a closed target goes on: the tab has closed, or went to a page we may not debug. */
    method TargetAnswered(tab: int, look: Look)
      requires Safe(Now())
      modifies this
      ensures Now() == Next(old(Now()), TargetLooked(tab, look)) && Safe(Now())
    {
      TargetLookedSafe(Now(), tab, look);
      match look {
        case Missing =>
          closed := closed + {tab};
          sessions := sessions - {tab};
        case RestrictedPage =>
          releases := releases + [ReleaseTab(tab, Restricted)];
        case Debuggable =>
      }
    }
  }
}
