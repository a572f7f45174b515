/**
 * What each callback of a server's link does (packages/browser-extension/src/connection.ts), and how
 * long it bears a socket's silence.
 */
module ConnectionSteps {
  import opened Wrappers
  import opened Connection

  /** Commands, replies and the token are as they were. */
  predicate SameTraffic(l: Link, k: Link) {
    && k.commands == l.commands && k.pending == l.pending && k.sent == l.sent && k.token == l.token
    && k.clock == l.clock && k.stray == l.stray
  }

  // ---- Dialling ----

  /** A new socket, not heard of yet, and no timer. */
  predicate HasDialled(l: Link, k: Link) {
    && k.socket == Some(l.sockets) && k.sockets == l.sockets + 1 && !k.helloed
    && k.retry == None && k.silence == None && k.status == Connecting && k.retryAt == None
    && k.hold == l.hold && k.attempts == l.attempts && !k.stopped && k.dials == l.dials + 1
  }

  /** The socket could not be made: one failure more, and a wait. */
  predicate HasFailed(l: Link, k: Link) {
    && k.socket == None && k.sockets == l.sockets && !k.helloed && k.silence == None
    && k.status == Waiting && k.retry == k.retryAt == Some(l.clock + BACKOFF_MS[Min(l.attempts, 6)])
    && k.attempts == l.attempts + 1 && k.hold == l.hold && !k.stopped && k.dials == l.dials + 1
  }

  lemma ConnectDials(l: Link, dialled: bool)
    requires !l.stopped && l.stray == [] && (dialled || (l.socket.None? && !l.helloed))
    ensures SameTraffic(l, Connect(l, dialled))
    ensures if dialled then HasDialled(l, Connect(l, dialled)) else HasFailed(l, Connect(l, dialled))
  {
  }

  /** The timer redials, and so does the alarm if a wait is due; neither does anything to a stopped link. */
  lemma TimersRedial(l: Link, step: Step)
    requires LinkSafe(l) && Enabled(l, step) && (step.RetryFires? || step.Kick?)
    ensures var k := Next(l, step);
            if step.RetryFires? || KickIsDue(l) then
              SameTraffic(l, k) && if step.dialled then HasDialled(l, k) else HasFailed(l, k)
            else k == l
  {
    hide Connect, HasDialled, HasFailed, Backoff;
    if step.RetryFires? {
      ConnectDials(l.(retry := None), step.dialled);
      SameFailure(l, Connect(l.(retry := None), step.dialled));
    } else if KickIsDue(l) {
      ConnectDials(l, step.dialled);
    }
  }

  lemma SameFailure(l: Link, k: Link)
    ensures HasDialled(l.(retry := None), k) <==> HasDialled(l, k)
    ensures HasFailed(l.(retry := None), k) <==> HasFailed(l, k)
  {
  }

  /** The user's reconnect, or a new token, forgets hold and failures and dials with what is given. */
  lemma UserDials(l: Link, step: Step)
    requires LinkSafe(l) && (step.Reconnect? || step.SetToken?)
    ensures var k := Next(l, step);
            var m := l.(token := k.token, hold := None, attempts := 0, socket := None, helloed := false);
            && k.token == (if step.SetToken? then step.token else l.token)
            && if l.stopped || (step.SetToken? && step.token == l.token) then k == l.(token := k.token)
               else SameTraffic(m, k) && if step.dialled then HasDialled(m, k) else HasFailed(m, k)
  {
    hide Connect, HasDialled, HasFailed, Backoff;
    var token := if step.SetToken? then step.token else l.token;
    if !l.stopped {
      ConnectDials(l.(token := token, hold := None, attempts := 0, socket := None, helloed := false), step.dialled);
    }
  }

  /** A start dials unless a hold says to wait, for the hour that is left or for the user. */
  lemma StartGoes(l: Link, dialled: bool)
    requires LinkSafe(l) && l.stopped
    ensures var k, m := Next(l, Start(dialled)), l.(stopped := false);
            && SameTraffic(l, k) && !k.stopped
            && match l.hold
               case None => if dialled then HasDialled(m, k) else HasFailed(m, k)
               case Some(DisabledHold(until)) =>
                 if until <= l.clock then (if dialled then HasDialled(m, k) else HasFailed(m, k))
                 else k == m.(status := Disabled, retryAt := Some(until), retry := Some(until))
               case Some(ReplacedHold) => k == m.(status := Replaced, retryAt := None)
               case Some(MismatchHold) => k == m.(status := Mismatch, retryAt := None)
  {
    hide Connect, HasDialled, HasFailed, Backoff;
    if l.hold.None? || (l.hold.value.DisabledHold? && l.hold.value.until <= l.clock) {
      ConnectDials(l.(stopped := false), dialled);
    }
  }

  lemma StopStops(l: Link)
    ensures Next(l, Stop) ==
              l.(stopped := true, socket := None, helloed := false, retry := None, silence := None, status := Stopped, retryAt := None)
  {
  }

  // ---- What comes on the socket ----

  /**
   * A message on the live socket: `hello` is answered, and connects the link; `ping`, and a command
   * that is refused, are answered; any other command is handled; what is no command does nothing. A
   * message on any other socket is not looked at.
   */
  lemma MessageIsTaken(l: Link, socket: nat, frame: Frame, open: bool)
    ensures var k := Next(l, Message(socket, frame, open));
            var reply := if open then [Reply(socket, |l.commands|)] else [];
            var heard := l.(silence := Some(l.clock + 60000));
            if l.socket != Some(socket) then k == l
            else match frame
                 case NotACommand => k == heard
                 case HelloCommand =>
                   k == heard.(commands := l.commands + [socket], sent := l.sent + reply, helloed := true, attempts := 0,
                               hold := None, status := Connected, retryAt := None)
                 case OtherCommand => k == heard.(commands := l.commands + [socket], pending := l.pending + {|l.commands|})
                 case _ => k == heard.(commands := l.commands + [socket], sent := l.sent + reply)
  {
    assert l.sent + [] == l.sent;
  }

  /** A command that was handled is answered, once, exactly if its socket is still the live one and open. */
  lemma HandledIsAnswered(l: Link, command: nat, open: bool)
    requires Enabled(l, Settled(command, open))
    ensures var socket := l.commands[command];
            Next(l, Settled(command, open)) ==
              l.(pending := l.pending - {command},
                 sent := l.sent + if l.socket == Some(socket) && open then [Reply(socket, command)] else [])
  {
    assert l.sent + [] == l.sent;
  }

  /** A socket that opened without our protocol is dropped for good; with it, its silence is watched from now. */
  lemma OpenedIsWatched(l: Link, socket: nat, ours: bool)
    requires LinkSafe(l)
    ensures var k := Next(l, SocketOpened(socket, ours));
            if l.socket != Some(socket) then k == l
            else if ours then k == l.(silence := Some(l.clock + 60000))
            else k == l.(socket := None, helloed := false, retry := None, silence := None,
                         hold := Some(MismatchHold), status := Mismatch, retryAt := None)
  {
    hide Backoff;
  }

  /**
   * The socket closed, or was silent for a minute. Replaced or mismatched, the link waits for the
   * user; revoked, it stops; disabled, it waits an hour; anything else is one failure more.
   */
  lemma CloseLeads(l: Link, step: Step)
    requires LinkSafe(l) && Enabled(l, step)
    requires step.SilenceFires? || (step.SocketClosed? && l.socket == Some(step.socket))
    ensures var k := Next(l, step);
            var lost := l.(socket := None, helloed := false, retry := None, silence := None);
            match if step.SilenceFires? then 4008 else step.code
            case 4001 => k == lost.(hold := Some(ReplacedHold), status := Replaced, retryAt := None)
            case 4003 => k == lost.(stopped := true, status := Revoked, retryAt := None)
            case 4005 => k == lost.(hold := Some(MismatchHold), status := Mismatch, retryAt := None)
            case 4009 =>
              k == lost.(hold := Some(DisabledHold(l.clock + 3600000)), status := Disabled,
                         retryAt := Some(l.clock + 3600000), retry := Some(l.clock + 3600000))
            case _ =>
              var due := Some(l.clock + BACKOFF_MS[Min(l.attempts, 6)]);
              k == lost.(status := Waiting, retryAt := due, retry := due, attempts := l.attempts + 1)
  {
  }

  lemma OtherSocketCloses(l: Link, socket: nat, code: int)
    requires l.socket != Some(socket)
    ensures Next(l, SocketClosed(socket, code)) == l
  {
  }

  // ---- A minute of silence ----

  /** The step is heard on the live socket. */
  predicate Heard(l: Link, step: Step) {
    ((step.SocketOpened? && step.ours) || step.Message?) && l.socket == Some(step.socket)
  }

  /** When the live socket was last heard: it opened, or a message came. */
  ghost function LastHeard(run: Run): Option<int>
    requires IsRun(run)
  {
    match run
    case Paired(_, _, _) => None
    case Then(before, step) =>
      var l := LinkOf(before);
      if Heard(l, step) then Some(l.clock)
      else if LinkOf(run).socket == l.socket then LastHeard(before)
      else None
  }

  /** The timer of the live socket is armed once it was heard, for a minute after the last time. */
  ghost predicate Watched(l: Link, heard: Option<int>) {
    l.socket.Some? ==> l.silence == if heard.Some? then Some(heard.value + 60000) else None
  }

  lemma StepWatches(l: Link, step: Step, heard: Option<int>)
    requires LinkSafe(l) && Enabled(l, step) && !Doubles(l, step) && Watched(l, heard)
    ensures var k := Next(l, step);
            Watched(k, if Heard(l, step) then Some(l.clock) else if k.socket == l.socket then heard else None)
  {
    hide Backoff, Connect;
    match step
    case Start(dialled) => StartWatches(l, dialled, heard);
    case Reconnect(_) => UserDials(l, step);
    case SetToken(_, _) => UserDials(l, step);
    case Kick(_) => TimersRedial(l, step);
    case RetryFires(_) => TimersRedial(l, step);
    case Message(socket, frame, open) => MessageIsTaken(l, socket, frame, open);
    case SocketOpened(socket, ours) => OpenedIsWatched(l, socket, ours);
    case SocketClosed(socket, code) =>
      if l.socket == Some(socket) {
        CloseLeads(l, step);
      }
    case SilenceFires => CloseLeads(l, step);
    case Settled(command, open) => HandledIsAnswered(l, command, open);
    case _ =>
  }

  lemma StartWatches(l: Link, dialled: bool, heard: Option<int>)
    requires LinkSafe(l) && !Doubles(l, Start(dialled)) && Watched(l, heard)
    ensures var k := Next(l, Start(dialled)); Watched(k, if k.socket == l.socket then heard else None)
  {
    hide Backoff;
  }

  /** In every reachable state a live socket was not heard yet, or has a minute from when it last was. */
  lemma {:induction false} SilenceIsWatched(run: Run)
    requires IsRun(run)
    ensures Watched(LinkOf(run), LastHeard(run))
  {
    if run.Then? {
      SilenceIsWatched(run.before);
      RunSafe(run.before);
      assert LinkOf(run) == Next(LinkOf(run.before), run.step);
      hide Next, LinkSafe, RepliesSafe, Heard, Watched, Enabled, Doubles, LinkOf;
      StepWatches(LinkOf(run.before), run.step, LastHeard(run.before));
    }
  }
}
