/**
 * What happens in an evaluation of the activity bench (scripts/activity-bench/bench.ts), over all its
 * runs and resumes: the events in order, the rules they keep, and what the rules mean for the events
 * themselves.
 */
module BenchLog {
  import opened Wrappers

  datatype Split = Dev | HeldOut

  datatype Side = Base | Head

  /** A trial is identified by its runtime, case, number and side; the case fixes its split. */
  datatype Trial = Trial(claude: bool, caseId: string, split: Split, number: nat, side: Side)

  /** How an awaited call ends: `Died` is the process killed while it waits. */
  datatype Answer<T> = Answered(value: T) | Fault | Failed | Died

  /** `Resumed` is a process that read back which trials were authored and scored, and what was spent. */
  datatype Event =
    | BlockBegins(pending: seq<Trial>)
    | Paid(trial: Trial, charge: real, expected: real)
    | Clean(trial: Trial)
    | Attempt(trial: Trial)
    | OwnTestsRun(trial: Trial)
    | Unsealed(trial: Trial)
    | Faulted(trial: Trial)
    | Scored(trial: Trial)
    | Unrecorded(trial: Trial)
    | Undiscarded(trial: Trial)
    | Resumed(kept: set<Trial>, done: set<Trial>, spent: real)

  /**
   * What the events so far say: the block's trials, those scanned since any was authored, those paid
   * for and not yet scored, those scored, the money spent, the attempt under way before its
   * unsealing, and the attempts and faults of each trial in the block.
   */
  datatype Track = Track(
    pending: seq<Trial>,
    clean: set<Trial>,
    paid: set<Trial>,
    done: set<Trial>,
    spent: real,
    attempt: Option<Trial>,
    tries: map<Trial, nat>,
    faults: map<Trial, nat>)

  const NOTHING := Track([], {}, {}, {}, 0.0, None, map[], map[])

  function Times(counts: map<Trial, nat>, trial: Trial): nat {
    if trial in counts then counts[trial] else 0
  }

  function Follow(track: Track, event: Event): Track {
    match event
    case BlockBegins(pending) =>
      track.(pending := pending, clean := {}, attempt := None, tries := map[], faults := map[])
    case Paid(trial, charge, _) => track.(paid := track.paid + {trial}, spent := track.spent + charge, clean := {})
    case Clean(trial) => track.(clean := track.clean + {trial})
    case Attempt(trial) => track.(attempt := Some(trial), tries := track.tries[trial := Times(track.tries, trial) + 1])
    case OwnTestsRun(_) => track
    case Unsealed(_) => track.(attempt := None)
    case Faulted(trial) => track.(attempt := None, faults := track.faults[trial := Times(track.faults, trial) + 1])
    case Scored(trial) => track.(paid := track.paid - {trial}, done := track.done + {trial})
    case Unrecorded(trial) => track.(paid := track.paid - {trial})
    case Undiscarded(_) => track
    case Resumed(kept, done, spent) => Track([], {}, kept, done, spent, None, map[], map[])
  }

  function TrackOf(log: seq<Event>): Track {
    if log == [] then NOTHING else Follow(TrackOf(log[..|log| - 1]), log[|log| - 1])
  }

  /** A first attempt at a trial in this block, or a second one after the first faulted. */
  predicate MayAttempt(track: Track, trial: Trial) {
    Times(track.tries, trial) == 0 || (Times(track.tries, trial) == 1 && Times(track.faults, trial) == 1)
  }

  /**
   * When an event may happen. A scan is of a trial that was authored. Hidden checks are unsealed for
   * a pending trial of the block, once every pending trial was scanned after the last authoring,
   * and once per attempt at scoring; the agent's own tests run in the attempt before that. What is
   * authored or scored was not scored before.
   */
  ghost predicate Proper(track: Track, event: Event) {
    match event
    case Paid(trial, _, _) => trial !in track.done
    case Clean(trial) => trial in track.paid
    case Attempt(trial) => MayAttempt(track, trial)
    case OwnTestsRun(trial) => track.attempt == Some(trial)
    case Unsealed(trial) =>
      && track.attempt == Some(trial) && trial in track.pending
      && forall p :: p in track.pending ==> p in track.clean
    case Faulted(trial) => Times(track.faults, trial) < Times(track.tries, trial)
    case Scored(trial) => trial in track.paid && trial !in track.done
    case _ => true
  }

  ghost predicate Orderly(log: seq<Event>) {
    forall i :: 0 <= i < |log| ==> Proper(TrackOf(log[..i]), log[i])
  }

  lemma OrderlyNext(log: seq<Event>, event: Event)
    requires Orderly(log) && Proper(TrackOf(log), event)
    ensures Orderly(log + [event]) && TrackOf(log + [event]) == Follow(TrackOf(log), event)
  {
    hide Proper, Follow;
    var more := log + [event];
    assert more[..|log|] == log;
    forall i | 0 <= i < |more|
      ensures Proper(TrackOf(more[..i]), more[i])
    {
      if i < |log| {
        assert more[..i] == log[..i];
      }
    }
  }

  /** No trial cost more than was expected of one in its block. */
  ghost predicate Frugal(events: seq<Event>) {
    forall i :: 0 <= i < |events| && events[i].Paid? ==> events[i].charge <= events[i].expected
  }

  /** Every process read back what the one before it had reached. */
  ghost predicate Remembers(log: seq<Event>) {
    forall i :: 0 <= i < |log| && log[i].Resumed? ==>
      log[i].done == TrackOf(log[..i]).done && log[i].spent == TrackOf(log[..i]).spent
  }

  lemma RemembersNext(log: seq<Event>, event: Event)
    ensures Remembers(log + [event]) <==>
              Remembers(log) && (event.Resumed? ==> event.done == TrackOf(log).done && event.spent == TrackOf(log).spent)
  {
    hide TrackOf;
    var more := log + [event];
    assert more[..|log|] == log && more[|log|] == event;
    assert forall i :: 0 <= i < |log| ==> more[..i] == log[..i] && more[i] == log[i];
  }

  // ---- Where the facts of the track come from ----

  /** No block began and nothing was resumed from `i` on, before `k`. */
  ghost predicate OneBlock(log: seq<Event>, i: nat, k: nat) {
    k <= |log| && forall m :: i <= m < k ==> !log[m].BlockBegins? && !log[m].Resumed?
  }

  lemma {:induction false} BlockOf(log: seq<Event>) returns (j: nat)
    requires TrackOf(log).pending != []
    ensures j < |log| && log[j] == BlockBegins(TrackOf(log).pending) && OneBlock(log, j + 1, |log|)
  {
    var init, last := log[..|log| - 1], log[|log| - 1];
    assert TrackOf(log) == Follow(TrackOf(init), last);
    PendingAfter(TrackOf(init), last);
    hide TrackOf, Follow;
    if last.BlockBegins? {
      j := |log| - 1;
    } else {
      j := BlockOf(init);
    }
  }

  lemma PendingAfter(track: Track, event: Event)
    ensures Follow(track, event).pending ==
              if event.BlockBegins? then event.pending else if event.Resumed? then [] else track.pending
  {
  }

  lemma {:induction false} CleanAt(log: seq<Event>, p: Trial) returns (k: nat)
    requires p in TrackOf(log).clean
    ensures k < |log| && log[k] == Clean(p) && OneBlock(log, k + 1, |log|)
    ensures forall m :: k < m < |log| ==> !log[m].Paid?
  {
    var last := log[|log| - 1];
    if last == Clean(p) {
      k := |log| - 1;
    } else {
      k := CleanAt(log[..|log| - 1], p);
    }
  }

  lemma {:induction false} AttemptAt(log: seq<Event>, t: Trial) returns (k: nat)
    requires TrackOf(log).attempt == Some(t)
    ensures k < |log| && log[k] == Attempt(t) && OneBlock(log, k + 1, |log|)
    ensures forall m :: k < m < |log| ==> !log[m].Attempt? && !log[m].Unsealed? && !log[m].Faulted?
  {
    var last := log[|log| - 1];
    if last.Attempt? {
      k := |log| - 1;
    } else {
      k := AttemptAt(log[..|log| - 1], t);
    }
  }

  /** The trial was authored, or read back as authored. */
  predicate Authors(event: Event, t: Trial) {
    (event.Paid? && event.trial == t) || (event.Resumed? && t in event.kept)
  }

  /** A trial that is paid for was authored, in this run or one before, and is still on the record. */
  lemma {:induction false} PaidAt(log: seq<Event>, t: Trial) returns (k: nat)
    requires t in TrackOf(log).paid
    ensures k < |log| && Authors(log[k], t)
    ensures forall m :: k < m < |log| ==> log[m] != Scored(t) && log[m] != Unrecorded(t) && !log[m].Resumed?
  {
    var last := log[|log| - 1];
    if Authors(last, t) {
      k := |log| - 1;
    } else {
      k := PaidAt(log[..|log| - 1], t);
    }
  }

  // ---- Nothing is unsealed too early ----

  /**
   * In the block that began at `j` the trial was scanned and found clean, after the last trial was
   * authored there; and it was authored itself, before that, and still on the record.
   */
  ghost predicate AuthoredAndScanned(log: seq<Event>, j: nat, i: nat, p: Trial) {
    j < i <= |log| && exists k ::
      j < k < i && log[k] == Clean(p) && (forall m :: k < m < i ==> !log[m].Paid?) && AuthoredBefore(log, k, p)
  }

  ghost predicate AuthoredBefore(log: seq<Event>, k: nat, p: Trial) {
    k <= |log| && exists a ::
      0 <= a < k && Authors(log[a], p)
      && forall m :: a < m < k ==> log[m] != Scored(p) && log[m] != Unrecorded(p) && !log[m].Resumed?
  }

  /**
   * No hidden check is unsealed before every pending trial of its block is authored and then scanned
   * clean: between the block's beginning and the unsealing stands a scan of each, of what was
   * authored before it, and nothing was authored after it.
   */
  lemma UnsealedAfterScans(log: seq<Event>, i: nat) returns (j: nat)
    requires Orderly(log) && i < |log| && log[i].Unsealed?
    ensures j < i && log[j].BlockBegins? && log[i].trial in log[j].pending && OneBlock(log, j + 1, i)
    ensures forall p :: p in log[j].pending ==> AuthoredAndScanned(log, j, i, p)
  {
    var before := log[..i];
    assert Proper(TrackOf(before), log[i]);
    j := BlockOf(before);
    assert log[j] == before[j];
    forall m | j < m < i
      ensures !log[m].BlockBegins? && !log[m].Resumed?
    {
      assert log[m] == before[m];
    }
    forall p | p in log[j].pending
      ensures AuthoredAndScanned(log, j, i, p)
    {
      ScannedBefore(log, j, i, p);
    }
  }

  lemma ScannedBefore(log: seq<Event>, j: nat, i: nat, p: Trial)
    requires Orderly(log) && j < i <= |log| && log[j].BlockBegins? && p in TrackOf(log[..i]).clean
    ensures AuthoredAndScanned(log, j, i, p)
  {
    hide Proper, TrackOf;
    var before := log[..i];
    var k := CleanAt(before, p);
    assert log[k] == before[k] && log[j] == before[j];
    assert !(k < j);
    assert forall m :: k < m < i ==> log[m] == before[m];
    CleanWasAuthored(log, k);
  }

  lemma CleanWasAuthored(log: seq<Event>, k: nat)
    requires Orderly(log) && k < |log| && log[k].Clean?
    ensures AuthoredBefore(log, k, log[k].trial)
  {
    assert Proper(TrackOf(log[..k]), log[k]);
    hide TrackOf, Orderly;
    var a := PaidAt(log[..k], log[k].trial);
    assert log[a] == log[..k][a] && forall m :: a < m < k ==> log[m] == log[..k][m];
  }

  // ---- Attempts ----

  /** The agent's own tests run in an attempt at scoring in which nothing is unsealed yet. */
  lemma OwnTestsBeforeUnsealing(log: seq<Event>, i: nat) returns (k: nat)
    requires Orderly(log) && i < |log| && log[i].OwnTestsRun?
    ensures k < i && log[k] == Attempt(log[i].trial) && OneBlock(log, k + 1, i)
    ensures forall m :: k < m < i ==> !log[m].Unsealed? && !log[m].Attempt?
  {
    var before := log[..i];
    assert Proper(TrackOf(before), log[i]);
    hide TrackOf, Orderly;
    k := AttemptAt(before, log[i].trial);
    assert log[k] == before[k] && forall m :: k < m < i ==> log[m] == before[m];
  }

  /** In one block the attempts and faults are counted. */
  lemma {:induction false} CountsGrow(log: seq<Event>, i: nat, t: Trial)
    requires i <= |log| && OneBlock(log, i, |log|)
    ensures Times(TrackOf(log[..i]).tries, t) <= Times(TrackOf(log).tries, t)
    ensures Times(TrackOf(log[..i]).faults, t) <= Times(TrackOf(log).faults, t)
  {
    if i == |log| {
      assert log[..i] == log;
    } else {
      var init := log[..|log| - 1];
      assert init[..i] == log[..i];
      CountsGrow(init, i, t);
    }
  }

  ghost predicate NoFault(log: seq<Event>, i: nat, k: nat, t: Trial) {
    k <= |log| && forall m :: i <= m < k ==> log[m] != Faulted(t)
  }

  lemma {:induction false} FaultsStay(log: seq<Event>, i: nat, t: Trial)
    requires i <= |log| && OneBlock(log, i, |log|) && NoFault(log, i, |log|, t)
    ensures Times(TrackOf(log).faults, t) == Times(TrackOf(log[..i]).faults, t)
  {
    if i == |log| {
      assert log[..i] == log;
    } else {
      var init := log[..|log| - 1];
      assert init[..i] == log[..i];
      FaultsStay(init, i, t);
    }
  }

  lemma FaultBetween(log: seq<Event>, i: nat, k: nat, t: Trial) returns (m: nat)
    requires i <= k <= |log| && OneBlock(log, i, k)
    requires Times(TrackOf(log[..i]).faults, t) < Times(TrackOf(log[..k]).faults, t)
    ensures i <= m < k && log[m] == Faulted(t)
  {
    hide TrackOf;
    assert log[..k][..i] == log[..i];
    if NoFault(log, i, k, t) {
      FaultsStay(log[..k], i, t);
    }
    m :| i <= m < k && log[m] == Faulted(t);
  }

  lemma {:induction false} FaultsWithinTries(log: seq<Event>, t: Trial)
    requires Orderly(log)
    ensures Times(TrackOf(log).faults, t) <= Times(TrackOf(log).tries, t)
  {
    if log != [] {
      var n := |log| - 1;
      OrderlyPrefix(log, n);
      FaultsWithinTries(log[..n], t);
      assert Proper(TrackOf(log[..n]), log[n]);
    }
  }

  lemma OrderlyPrefix(log: seq<Event>, k: nat)
    requires Orderly(log) && k <= |log|
    ensures Orderly(log[..k])
  {
    hide TrackOf, Proper;
    assert forall i :: 0 <= i < k ==> log[..k][..i] == log[..i] && log[..k][i] == log[i];
  }

  lemma AttemptCounts(log: seq<Event>, i: nat)
    requires Orderly(log) && i < |log| && log[i].Attempt?
    ensures MayAttempt(TrackOf(log[..i]), log[i].trial)
    ensures var t := log[i].trial; var before, after := TrackOf(log[..i]), TrackOf(log[..i + 1]);
            Times(after.tries, t) == Times(before.tries, t) + 1 && Times(after.faults, t) == Times(before.faults, t)
  {
    assert Proper(TrackOf(log[..i]), log[i]);
    assert log[..i + 1][..i] == log[..i];
  }

  /** In one block a second attempt at a trial comes only after the first one faulted. */
  lemma AttemptsAreRetries(log: seq<Event>, i: nat, k: nat) returns (m: nat)
    requires Orderly(log) && i < k < |log| && OneBlock(log, i, k)
    requires log[i].Attempt? && log[k] == log[i]
    ensures i < m < k && log[m] == Faulted(log[i].trial)
    ensures Times(TrackOf(log[..k]).tries, log[i].trial) == 1
  {
    var t := log[i].trial;
    AttemptCounts(log, i);
    AttemptCounts(log, k);
    OrderlyPrefix(log, i);
    FaultsWithinTries(log[..i], t);
    hide TrackOf, Orderly, Proper, Follow;
    TriesBetween(log, i + 1, k, t);
    m := FaultBetween(log, i + 1, k, t);
  }

  lemma TriesBetween(log: seq<Event>, i: nat, k: nat, t: Trial)
    requires i <= k <= |log| && OneBlock(log, i, k)
    ensures Times(TrackOf(log[..i]).tries, t) <= Times(TrackOf(log[..k]).tries, t)
  {
    hide TrackOf;
    assert log[..k][..i] == log[..i];
    CountsGrow(log[..k], i, t);
  }

  /** And it is the last one. */
  lemma NoThirdAttempt(log: seq<Event>, i: nat, j: nat, k: nat)
    requires Orderly(log) && i < j < k < |log| && OneBlock(log, i, k) && log[i].Attempt?
    ensures !(log[j] == log[i] && log[k] == log[i])
  {
    hide TrackOf, Orderly, Proper, Follow;
    if log[j] == log[i] && log[k] == log[i] {
      var t := log[i].trial;
      AttemptCounts(log, i);
      AttemptCounts(log, j);
      TriesBetween(log, i + 1, j, t);
      TriesBetween(log, j + 1, k, t);
      var m := AttemptsAreRetries(log, j, k);
    }
  }

  /** Own tests of a trial run after its unsealing in the same block only in a second attempt, after a fault. */
  lemma OwnTestsAfterUnsealing(log: seq<Event>, i: nat, k: nat) returns (m: nat, a: nat)
    requires Orderly(log) && i < k < |log| && OneBlock(log, i, k)
    requires log[i].Unsealed? && log[k] == OwnTestsRun(log[i].trial)
    ensures i < m < a < k && log[m] == Faulted(log[i].trial) && log[a] == Attempt(log[i].trial)
  {
    hide TrackOf, Orderly, Proper, OneBlock;
    a := OwnTestsBeforeUnsealing(log, k);
    var b := UnsealedInAttempt(log, i);
    assert !(a < i);
    BlocksJoin(log, b, i, k, a);
    m := AttemptsAreRetries(log, b, a);
    hide NoFault;
    FaultIsAfter(log, b, i, m, log[i].trial);
  }

  lemma BlocksJoin(log: seq<Event>, b: nat, i: nat, k: nat, a: nat)
    requires OneBlock(log, b, i) && OneBlock(log, i, k) && a <= k
    ensures OneBlock(log, b, a)
  {
  }

  lemma FaultIsAfter(log: seq<Event>, b: nat, i: nat, m: nat, t: Trial)
    requires NoFault(log, b, i, t) && i < |log| && b <= m < |log| && log[m] == Faulted(t) && !log[i].Faulted?
    ensures i < m
  {
  }

  lemma UnsealedInAttempt(log: seq<Event>, i: nat) returns (b: nat)
    requires Orderly(log) && i < |log| && log[i].Unsealed?
    ensures b < i && log[b] == Attempt(log[i].trial) && OneBlock(log, b, i) && NoFault(log, b, i, log[i].trial)
  {
    var before := log[..i];
    assert Proper(TrackOf(before), log[i]);
    hide TrackOf, Orderly;
    b := AttemptAt(before, log[i].trial);
    assert forall m :: b <= m < i ==> log[m] == before[m];
  }

  // ---- One trial's scoring, by what the world answers ----

  /**
   * The answers in one attempt: a session, if there is one, and whether it holds the agent's own
   * tests; whether these ran; the hidden checks unsealed; whether they ran; the session closed.
   */
  datatype Play = Play(
    session: Answer<Option<bool>>,
    own: Answer<bool>,
    hidden: Answer<bool>,
    found: Answer<bool>,
    closed: Answer<bool>)

  predicate RunsOwnTests(play: Play) {
    play.session == Answered(Some(true))
  }

  predicate Unseals(play: Play) {
    play.session.Answered? && (RunsOwnTests(play) ==> play.own.Answered?)
  }

  /** How the attempt ends: hidden checks that could not run are a fault, and closing may fail on its own. */
  function AnswerOf(play: Play): Answer<bool> {
    if !play.session.Answered? then
      (if play.session.Died? then Died else if play.session.Fault? then Fault else Failed)
    else
      var result :=
        if !Unseals(play) then play.own
        else if !play.hidden.Answered? then play.hidden
        else if play.session.value.None? then Answered(true)
        else if play.found == Answered(false) then Fault
        else play.found;
      if play.session.value.Some? && !result.Died? && !play.closed.Answered? then play.closed else result
  }

  function TryEvents(t: Trial, play: Play): seq<Event> {
    [Attempt(t)]
    + (if RunsOwnTests(play) then [OwnTestsRun(t)] else [])
    + (if Unseals(play) then [Unsealed(t)] else [])
    + (if AnswerOf(play).Fault? then [Faulted(t)] else [])
  }

  /** A trial's scoring: a second attempt after a machinery fault, and no third. */
  function Scoring(t: Trial, first: Play, second: Play): seq<Event> {
    TryEvents(t, first) + if AnswerOf(first).Fault? then TryEvents(t, second) else []
  }

  ghost predicate OwnAfterUnsealed(events: seq<Event>, t: Trial) {
    exists i, k :: 0 <= i < k < |events| && events[i] == Unsealed(t) && events[k] == OwnTestsRun(t)
  }

  lemma TryShape(t: Trial, play: Play)
    ensures var events := TryEvents(t, play);
            && (forall i :: 0 <= i < |events| && events[i] == OwnTestsRun(t) ==> i == 1)
            && (forall i :: 0 <= i < |events| && events[i] == Unsealed(t) ==> i >= 1 && (RunsOwnTests(play) ==> i == 2))
            && (RunsOwnTests(play) ==> |events| > 1 && events[1] == OwnTestsRun(t))
            && (Unseals(play) <==> exists i :: 0 <= i < |events| && events[i] == Unsealed(t))
            && (!RunsOwnTests(play) ==> forall i :: 0 <= i < |events| ==> events[i] != OwnTestsRun(t))
  {
    hide AnswerOf;
    var events := TryEvents(t, play);
    if Unseals(play) {
      assert events[if RunsOwnTests(play) then 2 else 1] == Unsealed(t);
    }
  }

  /**
   * The agent's own tests run after the trial's hidden checks are unsealed exactly when the first
   * attempt unsealed them and ended in a machinery fault, and the second session has own tests.
   */
  lemma OwnTestsRunAgain(t: Trial, first: Play, second: Play)
    ensures OwnAfterUnsealed(Scoring(t, first, second), t) <==>
              Unseals(first) && AnswerOf(first).Fault? && RunsOwnTests(second)
  {
    TryShape(t, first);
    TryShape(t, second);
    hide TryEvents, AnswerOf, Unseals, RunsOwnTests;
    var a, b := TryEvents(t, first), TryEvents(t, second);
    var events := Scoring(t, first, second);
    assert forall i :: 0 <= i < |a| ==> events[i] == a[i];
    assert AnswerOf(first).Fault? ==> forall i :: 0 <= i < |b| ==> events[|a| + i] == b[i];
    if Unseals(first) && AnswerOf(first).Fault? && RunsOwnTests(second) {
      var i :| 0 <= i < |a| && a[i] == Unsealed(t);
      assert events[|a| + 1] == b[1];
    }
    if OwnAfterUnsealed(events, t) {
      var i, k :| 0 <= i < k < |events| && events[i] == Unsealed(t) && events[k] == OwnTestsRun(t);
      assert i < |a| ==> a[i] == events[i];
      assert k >= |a| ==> b[k - |a|] == events[k];
      assert i >= |a| ==> b[i - |a|] == events[i];
    }
  }

  /**
   * And hidden checks belong to a case: the trial that a block scores first unseals them before the
   * own tests of the other side run, faults or not.
   */
  lemma CaseUnsealedBefore(t: Trial, u: Trial, a: Play, b: Play, c: Play, d: Play) returns (i: nat, k: nat)
    requires t.caseId == u.caseId && Unseals(a) && RunsOwnTests(c)
    ensures var events := Scoring(t, a, b) + Scoring(u, c, d);
            && i < k < |events| && events[i].Unsealed? && events[i].trial.caseId == u.caseId
            && events[k] == OwnTestsRun(u)
  {
    TryShape(t, a);
    TryShape(u, c);
    hide TryEvents, AnswerOf, Unseals, RunsOwnTests;
    i :| 0 <= i < |TryEvents(t, a)| && TryEvents(t, a)[i] == Unsealed(t);
    k := |Scoring(t, a, b)| + 1;
    assert Scoring(t, a, b)[i] == TryEvents(t, a)[i] && Scoring(u, c, d)[1] == TryEvents(u, c)[1];
  }

  /** A trial that may be scored in this block: a pending one, not attempted yet, when all are scanned clean. */
  predicate MayScore(track: Track, t: Trial) {
    t in track.pending && Times(track.tries, t) == 0 && Times(track.faults, t) == 0 && AllClean(track)
  }

  /** Every pending trial of the block was scanned since the last one was authored. */
  predicate AllClean(track: Track) {
    forall p :: p in track.pending ==> p in track.clean
  }

  /** What an attempt changes of the track: who attempts, and the counts. */
  function Tried(track: Track, t: Trial, play: Play): Track {
    var attempted := Follow(track, Attempt(t));
    var unsealed := if Unseals(play) then Follow(attempted, Unsealed(t)) else attempted;
    if AnswerOf(play).Fault? then Follow(unsealed, Faulted(t)) else unsealed
  }

  lemma TriedKeeps(track: Track, t: Trial, play: Play)
    ensures var after := Tried(track, t, play);
            && SameButAttempts(track, after, t)
            && Times(after.tries, t) == Times(track.tries, t) + 1
            && Times(after.faults, t) == Times(track.faults, t) + if AnswerOf(play).Fault? then 1 else 0
  {
    hide AnswerOf, Unseals;
  }

  lemma TryIsOrderly(log: seq<Event>, t: Trial, play: Play)
    requires Orderly(log) && t in TrackOf(log).pending && AllClean(TrackOf(log)) && MayAttempt(TrackOf(log), t)
    requires Times(TrackOf(log).faults, t) <= Times(TrackOf(log).tries, t)
    ensures Orderly(log + TryEvents(t, play)) && TrackOf(log + TryEvents(t, play)) == Tried(TrackOf(log), t, play)
  {
    hide TrackOf, Orderly, AnswerOf;
    var a := [Attempt(t)];
    OrderlyNext(log, Attempt(t));
    var b := a + if RunsOwnTests(play) then [OwnTestsRun(t)] else [];
    assert log + b == if RunsOwnTests(play) then (log + a) + [OwnTestsRun(t)] else log + a;
    if RunsOwnTests(play) {
      OrderlyNext(log + a, OwnTestsRun(t));
    }
    var c := b + if Unseals(play) then [Unsealed(t)] else [];
    assert log + c == if Unseals(play) then (log + b) + [Unsealed(t)] else log + b;
    if Unseals(play) {
      OrderlyNext(log + b, Unsealed(t));
    }
    var d := c + if AnswerOf(play).Fault? then [Faulted(t)] else [];
    assert log + d == if AnswerOf(play).Fault? then (log + c) + [Faulted(t)] else log + c;
    if AnswerOf(play).Fault? {
      OrderlyNext(log + c, Faulted(t));
    }
  }

  /** Whatever the world answers, a scoring keeps the rules. */
  lemma ScoringIsOrderly(log: seq<Event>, t: Trial, first: Play, second: Play)
    requires Orderly(log) && MayScore(TrackOf(log), t)
    ensures Orderly(log + Scoring(t, first, second))
    ensures SameButAttempts(TrackOf(log), TrackOf(log + Scoring(t, first, second)), t)
  {
    var middle := log + TryEvents(t, first);
    TryIsOrderly(log, t, first);
    TriedKeeps(TrackOf(log), t, first);
    CleanStill(TrackOf(log), TrackOf(middle), t);
    hide TrackOf, Orderly, AnswerOf, TryEvents, Tried, AllClean, SameButAttempts;
    if AnswerOf(first).Fault? {
      RetryIsOrderly(log, middle, t, second);
      Grouped(log, TryEvents(t, first), TryEvents(t, second));
    } else {
      assert Scoring(t, first, second) == TryEvents(t, first);
    }
  }

  lemma RetryIsOrderly(log: seq<Event>, middle: seq<Event>, t: Trial, second: Play)
    requires Orderly(middle) && t in TrackOf(middle).pending && AllClean(TrackOf(middle))
    requires Times(TrackOf(middle).tries, t) == 1 && Times(TrackOf(middle).faults, t) == 1
    requires SameButAttempts(TrackOf(log), TrackOf(middle), t)
    ensures Orderly(middle + TryEvents(t, second))
    ensures SameButAttempts(TrackOf(log), TrackOf(middle + TryEvents(t, second)), t)
  {
    hide TrackOf, Orderly, AnswerOf, TryEvents, Tried, AllClean, SameButAttempts, Times;
    assert MayAttempt(TrackOf(middle), t);
    TryIsOrderly(middle, t, second);
    TriedKeeps(TrackOf(middle), t, second);
    SameThrough(TrackOf(log), TrackOf(middle), TrackOf(middle + TryEvents(t, second)), t);
  }

  lemma Grouped(log: seq<Event>, a: seq<Event>, b: seq<Event>)
    ensures log + (a + b) == (log + a) + b
  {
  }

  lemma CleanStill(before: Track, after: Track, t: Trial)
    requires AllClean(before) && SameButAttempts(before, after, t)
    ensures AllClean(after) && after.pending == before.pending
  {
  }

  lemma SameThrough(before: Track, middle: Track, after: Track, t: Trial)
    requires SameButAttempts(before, middle, t) && SameButAttempts(middle, after, t)
    ensures SameButAttempts(before, after, t)
  {
  }

  predicate SameButAttempts(before: Track, after: Track, t: Trial) {
    && after == before.(attempt := after.attempt, tries := after.tries, faults := after.faults)
    && forall p :: p in before.pending && p != t ==>
         Times(after.tries, p) == Times(before.tries, p) && Times(after.faults, p) == Times(before.faults, p)
  }

  /**
   * A whole run in which the promise fails: the hidden checks of the first attempt are unsealed and
   * cannot run, and the second attempt runs the agent's own tests.
   */
  lemma PromiseFails(t: Trial)
    ensures var play := Play(Answered(Some(true)), Answered(true), Answered(true), Answered(false), Answered(true));
            var log := [BlockBegins([t]), Paid(t, 1.0, 1.0), Clean(t)] + Scoring(t, play, play);
            Orderly(log) && OwnAfterUnsealed(Scoring(t, play, play), t)
  {
    var play := Play(Answered(Some(true)), Answered(true), Answered(true), Answered(false), Answered(true));
    var start := [BlockBegins([t]), Paid(t, 1.0, 1.0), Clean(t)];
    assert Orderly([]) && TrackOf([]) == NOTHING;
    OrderlyNext([], BlockBegins([t]));
    OrderlyNext([BlockBegins([t])], Paid(t, 1.0, 1.0));
    OrderlyNext([BlockBegins([t]), Paid(t, 1.0, 1.0)], Clean(t));
    assert [] + [BlockBegins([t])] == [BlockBegins([t])];
    assert [BlockBegins([t])] + [Paid(t, 1.0, 1.0)] == [BlockBegins([t]), Paid(t, 1.0, 1.0)];
    assert [BlockBegins([t]), Paid(t, 1.0, 1.0)] + [Clean(t)] == start;
    ScoringIsOrderly(start, t, play, play);
    OwnTestsRunAgain(t, play, play);
  }

  // ---- Nothing is scored twice ----

  lemma {:induction false} ScoredStays(log: seq<Event>, i: nat)
    requires Remembers(log) && i < |log| && log[i].Scored?
    ensures log[i].trial in TrackOf(log).done
  {
    if i < |log| - 1 {
      var init := log[..|log| - 1];
      assert init + [log[|log| - 1]] == log;
      RemembersNext(init, log[|log| - 1]);
      ScoredStays(init, i);
    }
  }

  /** Over all runs and resumes a trial is scored at most once, if each process read back what was reached. */
  lemma ScoredOnce(log: seq<Event>, i: nat, k: nat)
    requires Orderly(log) && Remembers(log) && i < k < |log| && log[i].Scored? && log[k].Scored?
    ensures log[i].trial != log[k].trial
  {
    var before := log[..k];
    assert Proper(TrackOf(before), log[k]);
    RemembersPrefix(log, k);
    ScoredStays(before, i);
  }

  lemma RemembersPrefix(log: seq<Event>, k: nat)
    requires Remembers(log) && k <= |log|
    ensures Remembers(log[..k])
  {
    hide TrackOf;
    assert forall i :: 0 <= i < k ==> log[..k][..i] == log[..i] && log[..k][i] == log[i];
  }

  /** One more trial scored and recorded, whatever the world answered. */
  lemma ScoredNext(log: seq<Event>, t: Trial, first: Play, second: Play) returns (next: seq<Event>)
    requires Orderly(log) && MayScore(TrackOf(log), t) && t in TrackOf(log).paid && t !in TrackOf(log).done
    ensures next == log + Scoring(t, first, second) + [Scored(t)] && Orderly(next)
  {
    ScoringIsOrderly(log, t, first, second);
    hide TrackOf, Orderly, Scoring;
    next := log + Scoring(t, first, second);
    OrderlyNext(next, Scored(t));
    next := next + [Scored(t)];
  }

  /**
   * Without that a trial may be: the write of its score failed, and the next process found the trial
   * authored and scored it again.
   */
  lemma LostScoreIsScoredAgain(t: Trial, first: Play, second: Play) returns (log: seq<Event>, i: nat, k: nat)
    ensures Orderly(log) && i < k < |log| && log[i] == log[k] == Scored(t)
  {
    log := [];
    assert Orderly(log) && TrackOf(log) == NOTHING;
    hide TrackOf, Orderly, Scoring;
    log := Follows(log, BlockBegins([t]));
    log := Follows(log, Paid(t, 1.0, 1.0));
    log := Follows(log, Clean(t));
    log := ScoredNext(log, t, first, second);
    i := |log| - 1;
    log := Follows(log, Resumed({t}, {}, 1.0));
    log := Follows(log, BlockBegins([t]));
    log := Follows(log, Clean(t));
    log := ScoredNext(log, t, first, second);
    k := |log| - 1;
  }

  lemma Follows(log: seq<Event>, event: Event) returns (next: seq<Event>)
    requires Orderly(log) && Proper(TrackOf(log), event)
    ensures next == log + [event] && Orderly(next) && TrackOf(next) == Follow(TrackOf(log), event)
  {
    OrderlyNext(log, event);
    next := log + [event];
  }

  // ---- What was paid ----

  function Charged(log: seq<Event>): real {
    if log == [] then 0.0
    else
      var last := log[|log| - 1];
      Charged(log[..|log| - 1]) + if last.Paid? then last.charge else 0.0
  }

  /** The money on the record is all that was ever charged. */
  lemma {:induction false} SpentIsCharged(log: seq<Event>)
    requires Remembers(log)
    ensures TrackOf(log).spent == Charged(log)
  {
    if log != [] {
      var init := log[..|log| - 1];
      assert init + [log[|log| - 1]] == log;
      RemembersNext(init, log[|log| - 1]);
      SpentIsCharged(init);
    }
  }
}
