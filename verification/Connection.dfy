/**
 * One paired server's link (packages/browser-extension/src/connection.ts): a socket that is redialled
 * on a growing delay, holds that end only when the user acts or an hour has passed, and two timers.
 * Each callback is one step; the browser may run any callback that is due, in any order.
 */
module Connection {
  import opened Wrappers

  datatype Status = Stopped | Connecting | Connected | Waiting | Disabled | Replaced | Mismatch | Revoked

  datatype Hold = ReplacedHold | MismatchHold | DisabledHold(until: int)

  /** A reply that went out: on which socket, and to which of the commands received. */
  datatype Reply = Reply(socket: nat, command: nat)

  /**
   * The link, with sockets and commands numbered as they come. `commands` has the socket each
   * command came on, `pending` those still being handled; timers are held by the time they are due.
   * `stray` has the retry timers that are armed though the link has lost hold of them.
   */
  datatype Link = Link(
    stopped: bool,
    socket: Option<nat>,
    helloed: bool,
    attempts: nat,
    retry: Option<int>,
    stray: seq<int>,
    silence: Option<int>,
    hold: Option<Hold>,
    status: Status,
    retryAt: Option<int>,
    token: string,
    clock: int,
    dials: nat,
    sockets: nat,
    commands: seq<nat>,
    pending: set<int>,
    sent: seq<Reply>)

  const BACKOFF_MS: seq<int> := [1000, 2000, 4000, 8000, 16000, 32000, 60000]
  const DISABLED_RETRY_MS := 3600000
  const SILENCE_LIMIT_MS := 60000

  const CLOSE_REPLACED := 4001
  const CLOSE_REVOKED := 4003
  const CLOSE_PROTOCOL_MISMATCH := 4005
  const CLOSE_PING_TIMEOUT := 4008
  const CLOSE_DISABLED := 4009

  /** What a message is: nothing for the link, a refused command, or a command. */
  datatype Frame = NotACommand | Refused | HelloCommand | PingCommand | OtherCommand

  /** `dialled`: whether the socket could be created; `open`: whether the socket still takes frames. */
  datatype Step =
    | Start(dialled: bool)
    | Stop
    | Reconnect(dialled: bool)
    | Kick(dialled: bool)
    | SetToken(token: string, dialled: bool)
    | SocketOpened(socket: nat, ours: bool)
    | Message(socket: nat, frame: Frame, open: bool)
    | SocketClosed(socket: nat, code: int)
    | RetryFires(dialled: bool)
    | StrayFires(timer: nat, dialled: bool)
    | SilenceFires
    | Settled(command: nat, open: bool)
    | Wait(ms: nat)

  function Min(a: nat, b: nat): nat {
    if a < b then a else b
  }

  /** The delay after `failures` consecutive failures that came before. */
  function Backoff(failures: nat): int {
    BACKOFF_MS[Min(failures, |BACKOFF_MS| - 1)]
  }

  // ---- The methods ----

  function SetState(l: Link, status: Status, retryAt: Option<int>): Link {
    l.(status := status, retryAt := retryAt)
  }

  function ClearTimers(l: Link): Link {
    l.(retry := None, silence := None)
  }

  /** Lets go of the retry timer without clearing it. */
  function LosesRetry(l: Link): Link {
    if l.retry.Some? then l.(stray := l.stray + [l.retry.value], retry := None) else l
  }

  function Schedule(l: Link, delay: int): Link {
    LosesRetry(l).(retry := Some(l.clock + delay))
  }

  function RetryLater(l: Link): Link {
    var delay := Backoff(l.attempts);
    Schedule(SetState(l.(attempts := l.attempts + 1), Waiting, Some(l.clock + delay)), delay)
  }

  function Connect(l: Link, dialled: bool): Link {
    var k := SetState(ClearTimers(l), Connecting, None).(dials := l.dials + 1);
    if dialled then k.(socket := Some(l.sockets), sockets := l.sockets + 1, helloed := false) else RetryLater(k)
  }

  function Drop(l: Link): Link {
    l.(socket := None, helloed := false)
  }

  function WatchSilence(l: Link): Link {
    l.(silence := Some(l.clock + SILENCE_LIMIT_MS))
  }

  /** `closed(code)`, once the socket is gone. */
  function Close(l: Link, code: int): Link {
    var k := ClearTimers(l).(helloed := false);
    if k.stopped then k
    else if code == CLOSE_REPLACED then SetState(k.(hold := Some(ReplacedHold)), Replaced, None)
    else if code == CLOSE_REVOKED then SetState(k.(stopped := true), Revoked, None)
    else if code == CLOSE_PROTOCOL_MISMATCH then SetState(k.(hold := Some(MismatchHold)), Mismatch, None)
    else if code == CLOSE_DISABLED then
      var until := k.clock + DISABLED_RETRY_MS;
      Schedule(SetState(k.(hold := Some(DisabledHold(until))), Disabled, Some(until)), DISABLED_RETRY_MS)
    else RetryLater(k)
  }

  /** Sends on a socket, if it is the link's own and open. */
  function Sent(l: Link, socket: nat, command: nat, open: bool): Link {
    if l.socket != Some(socket) || !open then l else l.(sent := l.sent + [Reply(l.socket.value, command)])
  }

  function Receive(l: Link, socket: nat, frame: Frame, open: bool): Link {
    var c := |l.commands|;
    var k := l.(commands := l.commands + [socket]);
    match frame
    case NotACommand => l
    case Refused => Sent(k, socket, c, open)
    case HelloCommand => SetState(Sent(k, socket, c, open).(helloed := true, attempts := 0, hold := None), Connected, None)
    case PingCommand => Sent(k, socket, c, open)
    case OtherCommand => k.(pending := k.pending + {c})
  }

  function Starting(l: Link, dialled: bool): Link {
    var k := l.(stopped := false);
    match k.hold
    case None => Connect(k, dialled)
    case Some(DisabledHold(until)) =>
      if until <= k.clock then Connect(k, dialled)
      else Schedule(SetState(k, Disabled, Some(until)), until - k.clock)
    case Some(ReplacedHold) => SetState(k, Replaced, None)
    case Some(MismatchHold) => SetState(k, Mismatch, None)
  }

  function Reconnecting(l: Link, dialled: bool): Link {
    if l.stopped then l else Connect(Drop(l.(hold := None, attempts := 0)), dialled)
  }

  predicate KickIsDue(l: Link) {
    && !l.stopped && l.socket.None? && (l.status.Waiting? || l.status.Disabled?)
    && !(l.retryAt.Some? && l.retryAt.value > l.clock)
  }

  /** What the browser needs to run a step: a due timer, a socket that was made, a pending command. */
  predicate Enabled(l: Link, step: Step) {
    match step
    case RetryFires(_) => l.retry.Some? && l.retry.value <= l.clock
    case StrayFires(i, _) => i < |l.stray| && l.stray[i] <= l.clock
    case SilenceFires => l.silence.Some? && l.silence.value <= l.clock
    case Settled(c, _) => c in l.pending && c < |l.commands|
    case _ => true
  }

  function Next(l: Link, step: Step): Link
    requires Enabled(l, step)
  {
    match step
    case Start(dialled) => Starting(l, dialled)
    case Stop => SetState(Drop(ClearTimers(l.(stopped := true))), Stopped, None)
    case Reconnect(dialled) => Reconnecting(l, dialled)
    case Kick(dialled) => if KickIsDue(l) then Connect(l, dialled) else l
    case SetToken(token, dialled) =>
      if token == l.token then l else Reconnecting(l.(token := token), dialled)
    case SocketOpened(socket, ours) =>
      if l.socket != Some(socket) then l
      else if !ours then Close(Drop(l), CLOSE_PROTOCOL_MISMATCH)
      else WatchSilence(l)
    case Message(socket, frame, open) =>
      if l.socket != Some(socket) then l else Receive(WatchSilence(l), socket, frame, open)
    case SocketClosed(socket, code) => if l.socket != Some(socket) then l else Close(l.(socket := None), code)
    case RetryFires(dialled) =>
      var k := l.(retry := None);
      if k.stopped then k else Connect(k, dialled)
    case StrayFires(i, dialled) =>
      var k := LosesRetry(l.(stray := l.stray[..i] + l.stray[i + 1..]));
      if k.stopped then k else Connect(k, dialled)
    case SilenceFires => Close(Drop(l.(silence := None)), CLOSE_PING_TIMEOUT)
    case Settled(c, open) => Sent(l.(pending := l.pending - {c}), l.commands[c], c, open)
    case Wait(ms) => l.(clock := l.clock + ms)
  }

  // ---- What every step keeps ----

  /** Waiting for the user, or for an update. */
  predicate Held(l: Link) {
    l.hold == Some(ReplacedHold) || l.hold == Some(MismatchHold)
  }

  /** The hold lets the link dial now. */
  predicate MayDial(l: Link) {
    l.hold.None? || (l.hold.value.DisabledHold? && l.hold.value.until <= l.clock)
  }

  /**
   * A start that would leave two ways forward, or a timer out of hand: on a link that is started
   * already, while it waits out an hour, or with a live socket when a new one cannot be made.
   */
  predicate Doubles(l: Link, step: Step) {
    step.Start? && !l.stopped && !Held(l) && (MayDial(l) ==> l.socket.Some? && !step.dialled)
  }

  predicate LinkSafe(l: Link) {
    && l.stray == []
    && (l.stopped ==> l.socket.None? && l.retry.None? && (l.status.Stopped? || l.status.Revoked?))
    && (!l.stopped ==> (l.status.Replaced? || l.status.Mismatch? <==> Held(l)) && !l.status.Stopped? && !l.status.Revoked?)
    && (!l.stopped && !Held(l) ==> (l.socket.Some? <==> l.retry.None?))
    && (Held(l) ==> l.socket.None? && l.retry.None?)
    && (l.silence.Some? ==> l.socket.Some?)
    && (l.socket.Some? ==> l.socket.value < l.sockets)
    && (l.helloed ==> l.socket.Some?)
    && (!l.stopped ==> (l.socket.Some? <==> l.status.Connecting? || l.status.Connected?))
    && (!l.stopped && l.socket.Some? ==> (l.status.Connected? <==> l.helloed))
    && (l.retry.Some? ==> (l.status.Waiting? || l.status.Disabled?) && l.retry == l.retryAt)
  }

  ghost predicate RepliesSafe(l: Link) {
    && (forall i :: 0 <= i < |l.sent| ==>
          && l.sent[i].command < |l.commands| && l.sent[i].command !in l.pending
          && l.sent[i].socket == l.commands[l.sent[i].command])
    && (forall i, k :: 0 <= i < k < |l.sent| ==> l.sent[i].command != l.sent[k].command)
    && (forall c :: c in l.pending ==> 0 <= c < |l.commands|)
  }

  lemma ConnectSafe(l: Link, dialled: bool)
    requires !l.stopped && !Held(l) && l.stray == [] && (dialled || (l.socket.None? && !l.helloed))
    ensures LinkSafe(Connect(l, dialled))
  {
    hide Backoff;
  }

  lemma CloseSafe(l: Link, code: int)
    requires !l.stopped && !Held(l) && l.socket.None? && l.stray == []
    ensures LinkSafe(Close(l, code))
  {
    hide Backoff;
  }

  /** A start keeps the link consistent exactly when it does not double what is under way. */
  lemma StartingSafe(l: Link, dialled: bool)
    requires LinkSafe(l)
    ensures LinkSafe(Starting(l, dialled)) <==> !Doubles(l, Start(dialled))
  {
    var k := l.(stopped := false);
    if Doubles(l, Start(dialled)) {
      StartDoubles(l, dialled);
    } else if MayDial(l) {
      ConnectSafe(k, dialled);
      hide Connect, Backoff;
    } else {
      hide Connect, Backoff;
    }
  }

  lemma StartDoubles(l: Link, dialled: bool)
    requires LinkSafe(l) && Doubles(l, Start(dialled))
    ensures !LinkSafe(Starting(l, dialled))
  {
    hide Backoff;
    var k := Starting(l, dialled);
    assert l.socket.Some? || l.retry.Some?;
    assert k.retry.Some? && !k.stopped && !Held(k);
    assert l.socket.Some? ==> k.socket.Some?;
    assert l.socket.None? ==> k.stray == [l.retry.value];
  }

  lemma ReconnectingSafe(l: Link, dialled: bool)
    requires LinkSafe(l)
    ensures LinkSafe(Reconnecting(l, dialled))
  {
    if !l.stopped {
      ConnectSafe(Drop(l.(hold := None, attempts := 0)), dialled);
    }
    hide Connect;
  }

  lemma MessageLinkSafe(l: Link, socket: nat, frame: Frame, open: bool)
    requires LinkSafe(l) && l.socket == Some(socket)
    ensures LinkSafe(Receive(WatchSilence(l), socket, frame, open))
  {
  }

  lemma StepLinkSafe(l: Link, step: Step)
    requires LinkSafe(l) && Enabled(l, step) && !Doubles(l, step)
    ensures LinkSafe(Next(l, step))
  {
    hide Connect, Close, Starting, Reconnecting, Receive;
    match step
    case Start(dialled) => StartingSafe(l, dialled);
    case Reconnect(dialled) => ReconnectingSafe(l, dialled);
    case Kick(dialled) =>
      if KickIsDue(l) {
        ConnectSafe(l, dialled);
      }
    case SetToken(token, dialled) => ReconnectingSafe(l.(token := token), dialled);
    case SocketOpened(socket, ours) =>
      if l.socket == Some(socket) && !ours {
        CloseSafe(Drop(l), CLOSE_PROTOCOL_MISMATCH);
      }
    case Message(socket, frame, open) =>
      if l.socket == Some(socket) {
        MessageLinkSafe(l, socket, frame, open);
      }
    case SocketClosed(socket, code) =>
      if l.socket == Some(socket) {
        CloseSafe(l.(socket := None), code);
      }
    case RetryFires(dialled) => ConnectSafe(l.(retry := None), dialled);
    case SilenceFires => CloseSafe(Drop(l.(silence := None)), CLOSE_PING_TIMEOUT);
    case _ =>
  }

  lemma SentSafe(l: Link, socket: nat, command: nat, open: bool)
    requires RepliesSafe(l) && command < |l.commands| && l.commands[command] == socket && command !in l.pending
    requires forall i :: 0 <= i < |l.sent| ==> l.sent[i].command != command
    ensures RepliesSafe(Sent(l, socket, command, open))
  {
  }

  lemma ReceivedSafe(l: Link, socket: nat)
    requires RepliesSafe(l)
    ensures var k := l.(commands := l.commands + [socket]); RepliesSafe(k) && |l.commands| !in l.pending
    ensures forall i :: 0 <= i < |l.sent| ==> l.sent[i].command != |l.commands|
  {
  }

  lemma SameReplies(l: Link, k: Link)
    requires RepliesSafe(l) && k.commands == l.commands && k.pending == l.pending && k.sent == l.sent
    ensures RepliesSafe(k)
  {
  }

  lemma ReceiveRepliesSafe(l: Link, socket: nat, frame: Frame, open: bool)
    requires RepliesSafe(l)
    ensures RepliesSafe(Receive(l, socket, frame, open))
  {
    var c, k := |l.commands|, l.(commands := l.commands + [socket]);
    ReceivedSafe(l, socket);
    SentSafe(k, socket, c, open);
    if frame.HelloCommand? {
      SameReplies(Sent(k, socket, c, open), Receive(l, socket, frame, open));
    } else if frame.OtherCommand? {
      PendingSafe(k, c);
    }
    hide Sent, RepliesSafe;
  }

  lemma PendingSafe(l: Link, c: nat)
    requires RepliesSafe(l) && c < |l.commands| && forall i :: 0 <= i < |l.sent| ==> l.sent[i].command != c
    ensures RepliesSafe(l.(pending := l.pending + {c}))
  {
  }

  lemma SettledSafe(l: Link, c: nat)
    requires RepliesSafe(l) && c in l.pending
    ensures RepliesSafe(l.(pending := l.pending - {c}))
    ensures forall i :: 0 <= i < |l.sent| ==> l.sent[i].command != c
  {
  }

  lemma StepRepliesSafe(l: Link, step: Step)
    requires RepliesSafe(l) && Enabled(l, step)
    ensures RepliesSafe(Next(l, step))
  {
    hide Sent, RepliesSafe, Receive;
    if step.Message? {
      SameReplies(l, WatchSilence(l));
      ReceiveRepliesSafe(WatchSilence(l), step.socket, step.frame, step.open);
    } else if step.Settled? {
      SettledSafe(l, step.command);
      SentSafe(l.(pending := l.pending - {step.command}), l.commands[step.command], step.command, step.open);
    } else {
      OtherSteps(l, step);
      SameReplies(l, Next(l, step));
    }
  }

  lemma ConnectKeeps(l: Link, dialled: bool)
    ensures var k := Connect(l, dialled);
            k.commands == l.commands && k.pending == l.pending && k.sent == l.sent && k.dials == l.dials + 1
  {
    hide Backoff;
  }

  lemma CloseKeeps(l: Link, code: int)
    ensures var k := Close(l, code);
            k.commands == l.commands && k.pending == l.pending && k.sent == l.sent && k.dials == l.dials
  {
    hide Backoff;
  }

  lemma OtherSteps(l: Link, step: Step)
    requires Enabled(l, step) && !step.Message? && !step.Settled?
    ensures var k := Next(l, step);
            k.commands == l.commands && k.pending == l.pending && k.sent == l.sent && k.dials >= l.dials
  {
    hide Connect, Close;
    match step
    case Start(dialled) => ConnectKeeps(l.(stopped := false), dialled);
    case Reconnect(dialled) => ConnectKeeps(Drop(l.(hold := None, attempts := 0)), dialled);
    case Kick(dialled) => ConnectKeeps(l, dialled);
    case SetToken(token, dialled) => ConnectKeeps(Drop(l.(token := token).(hold := None, attempts := 0)), dialled);
    case SocketOpened(_, _) => CloseKeeps(Drop(l), CLOSE_PROTOCOL_MISMATCH);
    case SocketClosed(_, code) => CloseKeeps(l.(socket := None), code);
    case RetryFires(dialled) => ConnectKeeps(l.(retry := None), dialled);
    case StrayFires(i, dialled) => ConnectKeeps(LosesRetry(l.(stray := l.stray[..i] + l.stray[i + 1..])), dialled);
    case SilenceFires => CloseKeeps(Drop(l.(silence := None)), CLOSE_PING_TIMEOUT);
    case _ =>
  }

  // ---- Dialling and waiting ----

  /** The step tries to open a socket. */
  predicate Dials(l: Link, step: Step)
    requires Enabled(l, step)
  {
    Next(l, step).dials > l.dials
  }

  lemma WhatDials(l: Link, step: Step)
    requires Enabled(l, step)
    ensures Dials(l, step) <==>
      match step
      case Start(_) => MayDial(l)
      case Reconnect(_) => !l.stopped
      case Kick(_) => KickIsDue(l)
      case SetToken(token, _) => token != l.token && !l.stopped
      case RetryFires(_) => !l.stopped
      case StrayFires(_, _) => !l.stopped
      case _ => false
  {
    hide Backoff;
  }

  /** A dial on its own, by a timer or by the alarm, happens only once the wait is over. */
  lemma NoDialBeforeRetryAt(l: Link, step: Step)
    requires LinkSafe(l) && Enabled(l, step) && Dials(l, step) && (step.RetryFires? || step.Kick?)
    ensures l.retryAt.Some? && l.retryAt.value <= l.clock && !Held(l)
  {
    WhatDials(l, step);
    hide Next;
  }

  /** A wait is not put off: its timer stays until the link dials or is stopped. */
  lemma WaitStays(l: Link, step: Step)
    requires LinkSafe(l) && Enabled(l, step) && !Doubles(l, step) && l.retry.Some? && !Dials(l, step)
    ensures Next(l, step).retry == (if step.Stop? then None else l.retry)
  {
    hide Backoff, Connect, Close;
    WhatDials(l, step);
  }

  /** Stopped and revoked links stay down, and dial nothing, until they are started. */
  lemma StopIsFinal(l: Link, step: Step)
    requires LinkSafe(l) && Enabled(l, step) && l.stopped && !step.Start?
    ensures Next(l, step).stopped && Next(l, step).socket.None? && Next(l, step).retry.None? && !Dials(l, step)
  {
    WhatDials(l, step);
    StepLinkSafe(l, step);
    hide Backoff, Connect, Close;
  }

  /** A replaced or mismatched link stays down, started again or not, until it is reconnected or re-paired. */
  lemma HeldStaysDown(l: Link, step: Step)
    requires LinkSafe(l) && Enabled(l, step) && Held(l) && !UserRedials(l, step)
    ensures Next(l, step).hold == l.hold && Next(l, step).socket.None? && Next(l, step).retry.None? && !Dials(l, step)
  {
    WhatDials(l, step);
    hide Backoff, Connect, Close;
  }

  // ---- Runs ----

  /** Runs in which no start doubles what is under way; the one caller starts a link once. */
  datatype Run = Paired(token: string, hold: Option<Hold>, now: int) | Then(before: Run, step: Step)

  ghost predicate IsRun(run: Run)
    decreases run, 0
  {
    run.Paired?
    || (IsRun(run.before) && Enabled(LinkOf(run.before), run.step) && !Doubles(LinkOf(run.before), run.step))
  }

  ghost function LinkOf(run: Run): Link
    requires IsRun(run)
    decreases run, 1
  {
    match run
    case Paired(token, hold, now) =>
      Link(true, None, false, 0, None, [], None, hold, Stopped, None, token, now, 0, 0, [], {}, [])
    case Then(before, step) => Next(LinkOf(before), step)
  }

  lemma {:induction false} RunSafe(run: Run)
    requires IsRun(run)
    ensures LinkSafe(LinkOf(run)) && RepliesSafe(LinkOf(run))
  {
    if run.Then? {
      RunSafe(run.before);
      hide LinkSafe, RepliesSafe, Next, Enabled;
      StepLinkSafe(LinkOf(run.before), run.step);
      StepRepliesSafe(LinkOf(run.before), run.step);
    }
  }

  /** `run` goes on from `base`, without a `start`. */
  ghost predicate NeverStarted(run: Run, base: Run) {
    run == base || (run.Then? && !run.step.Start? && NeverStarted(run.before, base))
  }

  /** Stopped or revoked, a link stays down and dials nothing, whatever else happens, for good. */
  lemma {:induction false} StoppedForGood(run: Run, base: Run)
    requires IsRun(run) && NeverStarted(run, base) && IsRun(base) && LinkOf(base).stopped
    ensures LinkOf(run).stopped && LinkOf(run).socket.None? && LinkOf(run).retry.None?
    ensures LinkOf(run).dials == LinkOf(base).dials
  {
    RunSafe(run);
    if run != base {
      StoppedForGood(run.before, base);
      RunSafe(run.before);
      hide Next, LinkSafe, RepliesSafe, NeverStarted;
      StopIsFinal(LinkOf(run.before), run.step);
      DialsGrow(LinkOf(run.before), run.step);
    }
  }

  /** `run` goes on from `base`, and the user asked for nothing that ends a hold. */
  ghost predicate NeverReleased(run: Run, base: Run)
    requires IsRun(run)
  {
    run == base || (run.Then? && NeverReleased(run.before, base) && !UserRedials(LinkOf(run.before), run.step))
  }

  /** Replaced or mismatched, a link stays down and dials nothing, stopped and started again or not. */
  lemma {:induction false} HeldForGood(run: Run, base: Run)
    requires IsRun(run) && IsRun(base) && NeverReleased(run, base) && Held(LinkOf(base))
    ensures LinkOf(run).hold == LinkOf(base).hold && LinkOf(run).socket.None? && LinkOf(run).retry.None?
    ensures LinkOf(run).dials == LinkOf(base).dials
  {
    RunSafe(run);
    if run != base {
      HeldForGood(run.before, base);
      RunSafe(run.before);
      hide Next, LinkSafe, RepliesSafe, NeverReleased;
      HeldStaysDown(LinkOf(run.before), run.step);
      DialsGrow(LinkOf(run.before), run.step);
    }
  }

  lemma DialsGrow(l: Link, step: Step)
    requires Enabled(l, step)
    ensures Next(l, step).dials >= l.dials
  {
    if step.Message? {
      SentDials(WatchSilence(l), step.socket, |l.commands|, step.open);
    } else if !step.Settled? {
      hide Next;
      OtherSteps(l, step);
    }
  }

  lemma SentDials(l: Link, socket: nat, command: nat, open: bool)
    ensures Sent(l, socket, command, open).dials == l.dials
  {
  }

  /**
   * In every reachable state a started link has exactly one of a live socket and an armed retry
   * timer, and no other timer may dial, unless it was replaced or its protocol differs: then, and when stopped, it has neither.
   */
  lemma ExactlyOneWayForward(run: Run)
    requires IsRun(run)
    ensures var l := LinkOf(run);
            && (!l.stopped && !Held(l) ==> (l.socket.Some? <==> l.retry.None?))
            && (l.stopped || Held(l) ==> l.socket.None? && l.retry.None?)
            && (l.silence.Some? ==> l.socket.Some?) && l.stray == []
            && (l.retry.Some? ==> l.retry == l.retryAt)
  {
    RunSafe(run);
  }

  /** A reply goes only on the socket its command came on, and no command is answered twice. */
  lemma RepliesGoHome(run: Run, i: nat, k: nat)
    requires IsRun(run) && i < |LinkOf(run).sent| && k < |LinkOf(run).sent|
    ensures var l := LinkOf(run);
            && l.sent[i].command < |l.commands| && l.sent[i].socket == l.commands[l.sent[i].command]
            && (i != k ==> l.sent[i].command != l.sent[k].command)
  {
    RunSafe(run);
    hide LinkSafe;
  }

  // ---- The delay counts the failures ----

  /** The link fails: its socket closes for no reason the server gave, or goes silent, or cannot be made. */
  predicate Fails(l: Link, step: Step)
    requires Enabled(l, step)
  {
    match step
    case SocketClosed(socket, code) =>
      l.socket == Some(socket) && code !in {CLOSE_REPLACED, CLOSE_REVOKED, CLOSE_PROTOCOL_MISMATCH, CLOSE_DISABLED}
    case SilenceFires => true
    case Start(dialled) => !dialled && Dials(l, step)
    case Kick(dialled) => !dialled && Dials(l, step)
    case RetryFires(dialled) => !dialled && Dials(l, step)
    case _ => false
  }

  predicate Greets(l: Link, step: Step) {
    step.Message? && step.frame.HelloCommand? && l.socket == Some(step.socket)
  }

  predicate UserRedials(l: Link, step: Step) {
    !l.stopped && (step.Reconnect? || (step.SetToken? && step.token != l.token))
  }

  /** The failures since the last `hello`, or since the user last asked to reconnect. */
  ghost function Failures(run: Run): nat
    requires IsRun(run)
  {
    match run
    case Paired(_, _, _) => 0
    case Then(before, step) =>
      var l := LinkOf(before);
      if Greets(l, step) then 0
      else if UserRedials(l, step) then if step.dialled then 0 else 1
      else if Fails(l, step) then Failures(before) + 1
      else Failures(before)
  }

  lemma StepAttempts(l: Link, step: Step)
    requires LinkSafe(l) && Enabled(l, step)
    ensures Next(l, step).attempts ==
              if Greets(l, step) then 0
              else if UserRedials(l, step) then if step.dialled then 0 else 1
              else if Fails(l, step) then l.attempts + 1
              else l.attempts
  {
    WhatDials(l, step);
    hide Backoff, Dials;
  }

  lemma {:induction false} AttemptsCount(run: Run)
    requires IsRun(run)
    ensures LinkOf(run).attempts == Failures(run)
  {
    if run.Then? {
      AttemptsCount(run.before);
      RunSafe(run.before);
      hide Next, LinkSafe, RepliesSafe, Greets, UserRedials, Fails;
      StepAttempts(LinkOf(run.before), run.step);
    }
  }

  /** Ready to wait: on the way from a lost socket, or from a failed dial, to the redial. */
  predicate WaitsFor(k: Link, l: Link) {
    k.status.Waiting? && k.retry == k.retryAt == Some(l.clock + Backoff(l.attempts))
  }

  lemma CloseWaits(l: Link, code: int)
    requires !l.stopped && code !in {CLOSE_REPLACED, CLOSE_REVOKED, CLOSE_PROTOCOL_MISMATCH, CLOSE_DISABLED}
    ensures WaitsFor(Close(l, code), l)
  {
    hide Backoff;
  }

  lemma ConnectWaits(l: Link)
    ensures WaitsFor(Connect(l, false), l)
  {
    hide Backoff;
  }

  lemma FailureWaits(l: Link, step: Step)
    requires LinkSafe(l) && Enabled(l, step) && Fails(l, step)
    ensures WaitsFor(Next(l, step), l)
  {
    WhatDials(l, step);
    hide Backoff, Dials, Close, Connect;
    match step
    case Start(_) => ConnectWaits(l.(stopped := false));
    case Kick(_) => ConnectWaits(l);
    case RetryFires(_) => ConnectWaits(l.(retry := None));
    case SocketClosed(_, code) => CloseWaits(l.(socket := None), code);
    case SilenceFires => CloseWaits(Drop(l.(silence := None)), CLOSE_PING_TIMEOUT);
  }

  /** After a failure the link waits as long as the failures before it say, at most a minute. */
  lemma DelayCountsFailures(run: Run, step: Step)
    requires IsRun(run) && Enabled(LinkOf(run), step) && Fails(LinkOf(run), step)
    ensures var k := Next(LinkOf(run), step);
            k.status.Waiting? && k.retry == k.retryAt == Some(LinkOf(run).clock + BACKOFF_MS[Min(Failures(run), 6)])
  {
    AttemptsCount(run);
    RunSafe(run);
    hide *;
    FailureWaits(LinkOf(run), step);
    WaitsAsLong(Next(LinkOf(run), step), LinkOf(run));
  }

  lemma WaitsAsLong(k: Link, l: Link)
    requires WaitsFor(k, l)
    ensures k.status.Waiting? && k.retry == k.retryAt == Some(l.clock + BACKOFF_MS[Min(l.attempts, 6)])
  {
  }

  /** Turned off by the administrator, the link asks again in an hour. */
  lemma DisabledWaitsAnHour(l: Link, socket: nat)
    requires LinkSafe(l) && l.socket == Some(socket)
    ensures var k := Next(l, SocketClosed(socket, CLOSE_DISABLED));
            && k.status.Disabled? && k.attempts == l.attempts
            && k.retry == k.retryAt == Some(l.clock + DISABLED_RETRY_MS)
            && k.hold == Some(DisabledHold(l.clock + DISABLED_RETRY_MS))
  {
  }

  // ---- The class ----

  class ServerConnection {
    var stopped: bool
    var socket: Option<nat>
    var helloed: bool
    var attempts: nat
    var retryTimer: Option<int>
    ghost var stray: seq<int>
    var silenceTimer: Option<int>
    var hold: Option<Hold>
    var status: Status
    var retryAt: Option<int>
    var token: string
    var pending: set<int>
    var clock: int
    ghost var dials: nat
    var sockets: nat
    var commands: seq<nat>
    ghost var sent: seq<Reply>

    ghost function Now(): Link
      reads this
    {
      Link(stopped, socket, helloed, attempts, retryTimer, stray, silenceTimer, hold, status, retryAt, token,
           clock, dials, sockets, commands, pending, sent)
    }

    ghost predicate Valid()
      reads this
    {
      LinkSafe(Now()) && RepliesSafe(Now())
    }

    constructor (secret: string, held: Option<Hold>, now: int)
      ensures Now() == LinkOf(Paired(secret, held, now)) && Valid()
    {
      stopped, socket, helloed, attempts := true, None, false, 0;
      retryTimer, silenceTimer, hold, status, retryAt := None, None, held, Status.Stopped, None;
      token, pending, clock, sockets, commands := secret, {}, now, 0, [];
      dials, sent, stray := 0, [], [];
    }

    method StopTimers()
      modifies this`retryTimer, this`silenceTimer
      ensures Now() == ClearTimers(old(Now()))
    {
      retryTimer := None;
      silenceTimer := None;
    }

    method Disconnect()
      modifies this`socket, this`helloed
      ensures Now() == Drop(old(Now()))
    {
      socket := None;
      helloed := false;
    }

    method Show(now: Status, at: Option<int>)
      modifies this`status, this`retryAt
      ensures Now() == SetState(old(Now()), now, at)
    {
      status := now;
      retryAt := at;
    }

    method Arm(delay: int)
      modifies this`retryTimer, this`stray
      ensures Now() == Schedule(old(Now()), delay)
    {
      stray := if retryTimer.Some? then stray + [retryTimer.value] else stray;
      retryTimer := Some(clock + delay);
    }

    method Watch()
      modifies this`silenceTimer
      ensures Now() == WatchSilence(old(Now()))
    {
      silenceTimer := Some(clock + SILENCE_LIMIT_MS);
    }

    /** Starts dialling, unless a hold says to wait; on a started link it may double what is under way. */
    method Start(dialled: bool)
      requires Valid()
      modifies this
      ensures Now() == Next(old(Now()), Step.Start(dialled))
      ensures Valid() <==> !Doubles(old(Now()), Step.Start(dialled))
    {
      StartingSafe(Now(), dialled);
      StepRepliesSafe(Now(), Step.Start(dialled));
      hide LinkSafe, RepliesSafe;
      stopped := false;
      if hold == None {
        Dial(dialled);
        return;
      }
      if hold.value.DisabledHold? {
        var until := hold.value.until;
        if until <= clock {
          Dial(dialled);
          return;
        }
        Show(Disabled, Some(until));
        Arm(until - clock);
        return;
      }
      Show(if hold.value.ReplacedHold? then Replaced else Mismatch, None);
    }

    method Stop()
      requires Valid()
      modifies this
      ensures Now() == Next(old(Now()), Step.Stop) && Valid()
    {
      Keeps(Step.Stop);
      hide LinkSafe, RepliesSafe;
      stopped := true;
      StopTimers();
      Disconnect();
      Show(Status.Stopped, None);
    }

    method Reconnect(dialled: bool)
      requires Valid()
      modifies this
      ensures Now() == Next(old(Now()), Step.Reconnect(dialled)) && Valid()
    {
      Keeps(Step.Reconnect(dialled));
      hide LinkSafe, RepliesSafe;
      Redial(dialled);
    }

    method Redial(dialled: bool)
      modifies this
      ensures Now() == Reconnecting(old(Now()), dialled)
    {
      if stopped {
        return;
      }
      hold := None;
      attempts := 0;
      Disconnect();
      Dial(dialled);
    }

    method Kick(dialled: bool)
      requires Valid()
      modifies this
      ensures Now() == Next(old(Now()), Step.Kick(dialled)) && Valid()
    {
      Keeps(Step.Kick(dialled));
      hide LinkSafe, RepliesSafe;
      if stopped || socket != None {
        return;
      }
      if status != Waiting && status != Disabled {
        return;
      }
      if retryAt.Some? && retryAt.value > clock {
        return;
      }
      Dial(dialled);
    }

    method SetToken(secret: string, dialled: bool)
      requires Valid()
      modifies this
      ensures Now() == Next(old(Now()), Step.SetToken(secret, dialled)) && Valid()
    {
      Keeps(Step.SetToken(secret, dialled));
      hide LinkSafe, RepliesSafe;
      if secret == token {
        return;
      }
      token := secret;
      Redial(dialled);
    }

    method Dial(dialled: bool)
      modifies this
      ensures Now() == Connect(old(Now()), dialled)
    {
      hide RetryLater;
      StopTimers();
      Show(Connecting, None);
      dials := dials + 1;
      if !dialled {
        WaitToRetry();
        return;
      }
      socket := Some(sockets);
      sockets := sockets + 1;
      helloed := false;
    }

    method WaitToRetry()
      modifies this
      ensures Now() == RetryLater(old(Now()))
    {
      var delay := BACKOFF_MS[Min(attempts, |BACKOFF_MS| - 1)];
      attempts := attempts + 1;
      Show(Waiting, Some(clock + delay));
      Arm(delay);
    }

    method Closed(code: int)
      modifies this
      ensures Now() == Close(old(Now()), code)
    {
      hide RetryLater;
      StopTimers();
      helloed := false;
      if stopped {
        return;
      }
      if code == CLOSE_REPLACED {
        hold := Some(ReplacedHold);
        Show(Replaced, None);
      } else if code == CLOSE_REVOKED {
        stopped := true;
        Show(Revoked, None);
      } else if code == CLOSE_PROTOCOL_MISMATCH {
        hold := Some(MismatchHold);
        Show(Mismatch, None);
      } else if code == CLOSE_DISABLED {
        var until := clock + DISABLED_RETRY_MS;
        hold := Some(DisabledHold(until));
        Show(Disabled, Some(until));
        Arm(DISABLED_RETRY_MS);
      } else {
        WaitToRetry();
      }
    }

    method OnOpen(from: nat, ours: bool)
      requires Valid()
      modifies this
      ensures Now() == Next(old(Now()), SocketOpened(from, ours)) && Valid()
    {
      Keeps(SocketOpened(from, ours));
      hide LinkSafe, RepliesSafe;
      if socket != Some(from) {
        return;
      }
      if !ours {
        Disconnect();
        Closed(CLOSE_PROTOCOL_MISMATCH);
        return;
      }
      Watch();
    }

    method OnClose(from: nat, code: int)
      requires Valid()
      modifies this
      ensures Now() == Next(old(Now()), SocketClosed(from, code)) && Valid()
    {
      Keeps(SocketClosed(from, code));
      hide LinkSafe, RepliesSafe;
      if socket != Some(from) {
        return;
      }
      socket := None;
      Closed(code);
    }

    method OnMessage(from: nat, frame: Frame, open: bool)
      requires Valid()
      modifies this
      ensures Now() == Next(old(Now()), Message(from, frame, open)) && Valid()
    {
      Keeps(Message(from, frame, open));
      hide LinkSafe, RepliesSafe;
      if socket != Some(from) {
        return;
      }
      Watch();
      if frame == NotACommand {
        return;
      }
      var c := |commands|;
      commands := commands + [from];
      if frame == HelloCommand {
        Send(from, c, open);
        Greeted();
      } else if frame == OtherCommand {
        pending := pending + {c};
      } else {
        Send(from, c, open);
      }
    }

    method Greeted()
      modifies this`helloed, this`attempts, this`hold, this`status, this`retryAt
      ensures Now() == SetState(old(Now()).(helloed := true, attempts := 0, hold := None), Connected, None)
    {
      helloed := true;
      attempts := 0;
      hold := None;
      Show(Connected, None);
    }

    /** The handler of a command has settled: its reply goes out, if it still can. */
    method OnSettled(c: nat, open: bool)
      requires Valid() && c in pending && c < |commands|
      modifies this
      ensures Now() == Next(old(Now()), Settled(c, open)) && Valid()
    {
      Keeps(Settled(c, open));
      hide LinkSafe, RepliesSafe;
      pending := pending - {c};
      Send(commands[c], c, open);
    }

    method Send(to: nat, c: nat, open: bool)
      modifies this`sent
      ensures Now() == Sent(old(Now()), to, c, open)
    {
      if socket != Some(to) || !open {
        return;
      }
      sent := sent + [Reply(to, c)];
    }

    method OnRetry(dialled: bool)
      requires Valid() && retryTimer.Some? && retryTimer.value <= clock
      modifies this
      ensures Now() == Next(old(Now()), RetryFires(dialled)) && Valid()
    {
      Keeps(RetryFires(dialled));
      hide LinkSafe, RepliesSafe;
      retryTimer := None;
      if !stopped {
        Dial(dialled);
      }
    }

    method OnSilence()
      requires Valid() && silenceTimer.Some? && silenceTimer.value <= clock
      modifies this
      ensures Now() == Next(old(Now()), SilenceFires) && Valid()
    {
      Keeps(SilenceFires);
      hide LinkSafe, RepliesSafe;
      silenceTimer := None;
      Disconnect();
      Closed(CLOSE_PING_TIMEOUT);
    }

    /** An event goes out only on a live socket that has been greeted. */
    method Emit(open: bool) returns (ok: bool)
      requires Valid()
      ensures ok ==> socket.Some? && status.Connected? && !stopped
      ensures ok <==> helloed && open
    {
      ok := helloed && socket.Some? && open;
    }

    lemma Keeps(step: Step)
      requires Valid() && Enabled(Now(), step) && !step.Start?
      ensures LinkSafe(Next(Now(), step)) && RepliesSafe(Next(Now(), step))
    {
      StepLinkSafe(Now(), step);
      StepRepliesSafe(Now(), step);
    }
  }
}
