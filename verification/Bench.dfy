/**
 * The block loop of the activity bench (scripts/activity-bench/bench.ts): trials are authored, paid
 * for, scanned, and only then scored against sealed checks; any await may fault, fail or be the
 * last thing the process does, any write may fail, and a later run resumes from what is on disk.
 */
module Bench {
  import opened BenchLog
  import opened Reals
  import opened Wrappers

  datatype Block = Block(claude: bool, caseId: string, split: Split, number: nat, headFirst: bool)

  /** A scored trial and what it cost, when that is known. */
  datatype Record = Record(trial: Trial, cost: Option<real>)

  /** Why an evaluation stops with a verdict of its own. */
  datatype StopReason = OverBudget | BenchChanged | Contaminated | Faults

  /** How the loop, or a part of it, ends; `Stopped` is a verdict of its own, `Threw` any other error. */
  datatype Outcome = Done | Stopped(reason: StopReason) | Threw | Killed

  /** What the world can answer that ends the loop. */
  datatype Trouble = Failure | Death | Change | Hit | TwoFaults | BadWrite

  /** The troubles met since `before` explain the outcome; nothing was met in a loop that is done. */
  ghost predicate Explained(outcome: Outcome, before: seq<Trouble>, after: seq<Trouble>) {
    && before <= after
    && match outcome
       case Done => after == before
       case Stopped(OverBudget) => true
       case Stopped(BenchChanged) => Change in after[|before|..]
       case Stopped(Contaminated) => Hit in after[|before|..]
       case Stopped(Faults) => TwoFaults in after[|before|..]
       case Threw => Failure in after[|before|..] || BadWrite in after[|before|..]
       case Killed => Death in after[|before|..]
  }

  function TroubleOf<T>(answer: Answer<T>): seq<Trouble> {
    match answer
    case Answered(_) => []
    case Died => [Death]
    case _ => [Failure]
  }

  /** How a part ends whose call was not answered. */
  function Unanswered<T>(answer: Answer<T>): Outcome {
    if answer.Died? then Killed else Threw
  }

  lemma ExplainedNow(outcome: Outcome, before: seq<Trouble>, more: seq<Trouble>)
    requires more != []
    requires match outcome
             case Done => false
             case Stopped(OverBudget) => true
             case Stopped(BenchChanged) => more[0] == Change
             case Stopped(Contaminated) => more[0] == Hit
             case Stopped(Faults) => more[0] == TwoFaults
             case Threw => more[0] in {Failure, BadWrite}
             case Killed => more[0] == Death
    ensures Explained(outcome, before, before + more)
  {
    assert (before + more)[|before|..] == more;
  }

  lemma ExplainedMore(outcome: Outcome, before: seq<Trouble>, middle: seq<Trouble>, after: seq<Trouble>)
    requires Explained(outcome, before, middle) && middle <= after && !outcome.Done?
    ensures Explained(outcome, before, after)
  {
    var n := |middle| - |before|;
    assert after[|before|..][..n] == middle[|before|..];
    forall t | t in middle[|before|..]
      ensures t in after[|before|..]
    {
      assert t in after[|before|..][..n];
    }
  }

  // ---- The saved state ----

  datatype Saved = Saved(authored: map<Trial, Option<real>>, scored: seq<Record>, spent: real, voided: bool)

  predicate IsScored(scored: seq<Record>, trial: Trial) {
    exists i :: 0 <= i < |scored| && scored[i].trial == trial
  }

  function DoneOf(scored: seq<Record>): set<Trial> {
    if scored == [] then {} else DoneOf(scored[..|scored| - 1]) + {scored[|scored| - 1].trial}
  }

  lemma {:induction false} DoneHolds(scored: seq<Record>, t: Trial)
    ensures t in DoneOf(scored) <==> IsScored(scored, t)
  {
    if scored != [] {
      var init, last := scored[..|scored| - 1], scored[|scored| - 1];
      DoneHolds(init, t);
      assert forall i :: 0 <= i < |init| ==> scored[i] == init[i];
      if IsScored(init, t) {
        var i :| 0 <= i < |init| && init[i].trial == t;
        assert scored[i].trial == t;
      }
    }
  }

  /** No trial is both recorded as authored and scored, and none is scored twice. */
  ghost predicate Consistent(s: Saved) {
    && (forall trial :: trial in s.authored ==> !IsScored(s.scored, trial))
    && forall i, k :: 0 <= i < k < |s.scored| ==> s.scored[i].trial != s.scored[k].trial
  }

  /** The record against the events: what is on it was authored and scored, and its money spent. */
  ghost predicate Tracked(s: Saved, track: Track) {
    (forall t :: t in s.authored ==> t in track.paid) && DoneOf(s.scored) == track.done && s.spent == track.spent
  }

  /** The file against the record: at most what is off the record since may still be in the file. */
  ghost predicate Agrees(disk: Saved, s: Saved) {
    && disk.scored == s.scored && disk.spent == s.spent && disk.voided == s.voided
    && forall t :: t in s.authored ==> t in disk.authored && disk.authored[t] == s.authored[t]
  }

  // ---- Calls into the world: any answer may come ----

  method HostAuthor(trial: Trial) returns (answer: Answer<Option<real>>) {
    answer := *;
  }

  /** The traces scanned: whether a tripwire was found in them. */
  method HostTraces(trial: Trial) returns (answer: Answer<bool>) {
    answer := *;
  }

  /** All that the world will answer in one attempt at scoring a trial. */
  method AnyPlay(trial: Trial) returns (play: Play) {
    play := *;
  }

  method AwaitOther() returns (answer: Answer<bool>) {
    answer := *;
  }

  /** Writing the file and renaming it over the old one: it takes place as a whole or not at all. */
  method WriteFile() returns (ok: bool) {
    ok := *;
  }

  // ---- The evaluation ----

  function KnownCosts(scored: seq<Record>): seq<real> {
    if scored == [] then []
    else
      var known := KnownCosts(scored[..|scored| - 1]);
      if scored[|scored| - 1].cost.Some? then known + [scored[|scored| - 1].cost.value] else known
  }

  /** What a trial of the next block is expected to cost. */
  function PerTrial(estimate: real, scored: seq<Record>): real {
    var known := Mean(KnownCosts(scored));
    if known > estimate then known else estimate
  }

  function TrialOf(block: Block, side: Side): Trial {
    Trial(block.claude, block.caseId, block.split, block.number, side)
  }

  /** The block's trials that are not scored yet, in its order. */
  function PendingOf(block: Block, scored: seq<Record>): seq<Trial> {
    var first := TrialOf(block, if block.headFirst then Head else Base);
    var second := TrialOf(block, if block.headFirst then Base else Head);
    (if IsScored(scored, first) then [] else [first]) + (if IsScored(scored, second) then [] else [second])
  }

  function Unpaid(pending: seq<Trial>, authored: map<Trial, Option<real>>): seq<Trial> {
    if pending == [] then []
    else
      var front := Unpaid(pending[..|pending| - 1], authored);
      if pending[|pending| - 1] in authored then front else front + [pending[|pending| - 1]]
  }

  lemma {:induction false} UnpaidOnes(pending: seq<Trial>, authored: map<Trial, Option<real>>)
    ensures forall t :: t in pending ==> t in authored || t in Unpaid(pending, authored)
    ensures forall t :: t in Unpaid(pending, authored) ==> t in pending && t !in authored
  {
    if pending != [] {
      var front, last := pending[..|pending| - 1], pending[|pending| - 1];
      UnpaidOnes(front, authored);
      assert pending == front + [last];
    }
  }

  class Evaluation {
    const estimate: real
    var authored: map<Trial, Option<real>>
    var scored: seq<Record>
    var spent: real
    var voided: bool
    /** What is on disk, and whether the last attempt to write it failed. */
    var disk: Saved
    ghost var unsaved: bool
    ghost var log: seq<Event>
    /** What the world answered that was not what the loop goes on with. */
    ghost var met: seq<Trouble>

    ghost function Now(): Saved
      reads this
    {
      Saved(authored, scored, spent, voided)
    }

    /** The file is as the record is: so at every await in the loop over the blocks. */
    ghost predicate Current()
      reads this
    {
      !unsaved && disk == Now()
    }

    ghost predicate Valid()
      reads this
    {
      && estimate >= 0.0
      && Consistent(Now()) && Consistent(disk)
      && Orderly(log) && Tracked(Now(), TrackOf(log))
      && (!unsaved ==> Agrees(disk, Now()))
    }

    constructor (estimateUsd: real)
      requires estimateUsd >= 0.0
      ensures Valid() && Current() && Now() == Saved(map[], [], 0.0, false) && log == []
    {
      estimate := estimateUsd;
      authored, scored, spent, voided := map[], [], 0.0, false;
      disk := Saved(map[], [], 0.0, false);
      unsaved := false;
      log, met := [], [];
    }

    /** A call that is awaited for what it does. */
    method Await() returns (answer: Answer<bool>)
      modifies this`met
      ensures met == if answer.Answered? then old(met) else old(met) + TroubleOf(answer)
    {
      answer := AwaitOther();
      met := if answer.Answered? then met else met + TroubleOf(answer);
    }

    /** The cases and the grading checkout are looked at again: whether they are unchanged. */
    method AwaitUnchanged() returns (answer: Answer<bool>)
      modifies this`met
      ensures met == if answer == Answered(true) then old(met)
                     else old(met) + if answer.Answered? then [Change] else TroubleOf(answer)
    {
      answer := AwaitOther();
      met := if answer == Answered(true) then met else met + if answer.Answered? then [Change] else TroubleOf(answer);
    }

    method AwaitTraces(trial: Trial) returns (answer: Answer<bool>)
      modifies this`met
      ensures met == if answer == Answered(false) then old(met)
                     else old(met) + if answer.Answered? then [Hit] else TroubleOf(answer)
    {
      answer := HostTraces(trial);
      met := if answer == Answered(false) then met else met + if answer.Answered? then [Hit] else TroubleOf(answer);
    }

    method Save() returns (ok: bool)
      modifies this`disk, this`unsaved, this`met
      ensures ok ==> Current() && met == old(met)
      ensures !ok ==> disk == old(disk) && unsaved && met == old(met) + [BadWrite]
    {
      ok := WriteFile();
      met := if ok then met else met + [BadWrite];
      unsaved := !ok;
      if ok {
        disk := Saved(authored, scored, spent, voided);
      }
    }

    ghost method Note(event: Event)
      requires Orderly(log) && Proper(TrackOf(log), event)
      modifies this`log
      ensures Orderly(log) && log == old(log) + [event] && TrackOf(log) == Follow(TrackOf(old(log)), event)
    {
      OrderlyNext(log, event);
      log := log + [event];
    }

    /** A process reads the state back; it forgets something only if the last write failed. */
    method Resume()
      requires Valid()
      modifies this
      ensures Valid() && Current() && Now() == disk == old(disk) && met == old(met)
      ensures log == old(log) + [Resumed(disk.authored.Keys, DoneOf(disk.scored), disk.spent)]
      ensures !old(unsaved) && Remembers(old(log)) ==> Remembers(log)
      ensures !old(unsaved) ==> scored == old(scored) && spent == old(spent) && voided == old(voided)
    {
      RemembersNext(log, Resumed(disk.authored.Keys, DoneOf(disk.scored), disk.spent));
      hide Consistent, Orderly, TrackOf, Remembers, DoneOf, Proper;
      ResumedIsProper(TrackOf(log), disk);
      Note(Resumed(disk.authored.Keys, DoneOf(disk.scored), disk.spent));
      authored, scored, spent, voided := disk.authored, disk.scored, disk.spent, disk.voided;
      unsaved := false;
    }

    /** Once more after a machinery fault; a second one stops the evaluation. */
    method RetriedAuthor(trial: Trial) returns (outcome: Outcome, cost: Option<real>)
      modifies this`met
      ensures outcome in {Done, Stopped(Faults), Threw, Killed} && Explained(outcome, old(met), met)
    {
      cost := None;
      var answer := HostAuthor(trial);
      if answer.Fault? {
        answer := HostAuthor(trial);
        if answer.Fault? {
          ExplainedNow(Stopped(Faults), met, [TwoFaults]);
          met := met + [TwoFaults];
          return Stopped(Faults), None;
        }
      }
      if answer.Answered? {
        return Done, answer.value;
      }
      NotAnswered(answer, met);
      met := met + TroubleOf(answer);
      return Unanswered(answer), None;
    }

    /** Authors and pays for what is not authored yet. */
    method AuthorAll(unpaid: seq<Trial>, perTrial: real, ghost budget: Budget) returns (outcome: Outcome)
      requires Valid() && Current() && estimate <= perTrial
      requires forall t :: t in unpaid ==> !IsScored(scored, t)
      requires Affords(budget, log, spent, Share(|unpaid|, perTrial))
      modifies this
      ensures Valid() && (!unsaved ==> Current())
      ensures scored == old(scored) && voided == old(voided) && Affords(budget, log, spent, 0.0)
      ensures SameBlocks(old(log), log) && Untried(TrackOf(old(log)), TrackOf(log))
      ensures forall t :: t in old(authored) ==> t in authored
      ensures outcome.Done? ==> Current() && forall t :: t in unpaid ==> t in authored
      ensures Explained(outcome, old(met), met) && outcome in {Done, Stopped(Faults), Threw, Killed}
    {
      hide Affords, SameBlocks, Share, Consistent, Orderly, TrackOf, Frugal, IsScored, Tracked, Untried, Explained;
      DoneIsExplained(met);
      var i := 0;
      SharesAreRoom(budget, log, spent, |unpaid|, perTrial);
      SameBlocksStart(log);
      UntriedStart(TrackOf(log));
      while i < |unpaid|
        invariant 0 <= i <= |unpaid|
        invariant Valid() && Current() && scored == old(scored) && voided == old(voided) && met == old(met)
        invariant Affords(budget, log, spent, Share(|unpaid| - i, perTrial)) && Affords(budget, log, spent, 0.0)
        invariant SameBlocks(old(log), log) && Untried(TrackOf(old(log)), TrackOf(log))
        invariant forall t :: t in old(authored) ==> t in authored
        invariant forall k :: 0 <= k < i ==> unpaid[k] in authored
      {
        var trial := unpaid[i];
        var made, cost := RetriedAuthor(trial);
        if !made.Done? {
          return made;
        }
        DoneMeetsNothing(old(met), met);
        ghost var before := log;
        var ok := Pay(trial, cost, perTrial, budget, |unpaid| - i - 1);
        SameBlocksNext(old(log), before, log[|log| - 1]);
        UntriedNext(TrackOf(old(log)), TrackOf(before), log[|log| - 1]);
        if !ok {
          ExplainedNow(Threw, old(met), [BadWrite]);
          return Threw;
        }
        i := i + 1;
      }
      outcome := Done;
    }

    /** One authored trial is recorded and charged, and the record saved. */
    method Pay(trial: Trial, cost: Option<real>, perTrial: real, ghost budget: Budget, ghost left: nat)
        returns (ok: bool)
      requires Valid() && estimate <= perTrial && !IsScored(scored, trial)
      requires Affords(budget, log, spent, Share(left + 1, perTrial))
      modifies this
      ensures Valid() && (if ok then Current() else unsaved) && scored == old(scored) && voided == old(voided)
      ensures Affords(budget, log, spent, Share(left, perTrial)) && Affords(budget, log, spent, 0.0)
      ensures authored == old(authored)[trial := cost]
      ensures spent == old(spent) + if cost.Some? then cost.value else estimate
      ensures |log| == |old(log)| + 1 && log == old(log) + [log[|log| - 1]] && log[|log| - 1].Paid?
      ensures TrackOf(log) == Follow(TrackOf(old(log)), log[|log| - 1])
      ensures met == if ok then old(met) else old(met) + [BadWrite]
    {
      hide Affords, Share, Orderly, TrackOf, IsScored, Tracked, Consistent, DoneOf;
      var charge := if cost.Some? then cost.value else estimate;
      Spends(budget, log, spent, left, Paid(trial, charge, perTrial));
      PayKeeps(Now(), TrackOf(log), trial, cost, charge, perTrial);
      authored := authored[trial := cost];
      spent := spent + charge;
      Note(Paid(trial, charge, perTrial));
      ok := Save();
    }

    /** Scans what the block's agents wrote; a hit voids the evaluation, in the file too. */
    method ScanAll(pending: seq<Trial>) returns (outcome: Outcome)
      requires Valid() && Current() && !voided && forall p :: p in pending ==> p in authored
      modifies this
      ensures Valid() && (!unsaved ==> Current())
      ensures authored == old(authored) && scored == old(scored) && spent == old(spent)
      ensures SameBlocks(old(log), log) && Unpaying(old(log), log) && Untried(TrackOf(old(log)), TrackOf(log))
      ensures outcome.Stopped? ==> outcome == Stopped(Contaminated) && voided && disk.voided
      ensures Explained(outcome, old(met), met)
      ensures voided ==> outcome.Stopped? || (outcome.Threw? && unsaved)
      ensures outcome.Done? ==> Current() && forall p :: p in pending ==> p in TrackOf(log).clean
    {
      hide SameBlocks, Unpaying, Consistent, Orderly, TrackOf, Tracked, Untried, Follow, Explained;
      SameBlocksStart(log);
      UnpayingStart(log);
      UntriedStart(TrackOf(log));
      DoneIsExplained(met);
      var i := 0;
      while i < |pending|
        invariant 0 <= i <= |pending|
        invariant Valid() && Current() && !voided && met == old(met)
        invariant authored == old(authored) && scored == old(scored) && spent == old(spent)
        invariant SameBlocks(old(log), log) && Unpaying(old(log), log) && Untried(TrackOf(old(log)), TrackOf(log))
        invariant forall k :: 0 <= k < i ==> pending[k] in TrackOf(log).clean
      {
        var answer := AwaitTraces(pending[i]);
        if !answer.Answered? {
          NotAnswered(answer, old(met));
          return Unanswered(answer);
        }
        if answer.value {
          VoidKeeps(Now(), TrackOf(log));
          voided := true;
          var ok := Save();
          ExplainedNow(Stopped(Contaminated), old(met), [Hit]);
          HitUnsaved(old(met));
          return if ok then Stopped(Contaminated) else Threw;
        }
        SameBlocksNext(old(log), log, Clean(pending[i]));
        UnpayingNext(old(log), log, Clean(pending[i]));
        UntriedNext(TrackOf(old(log)), TrackOf(log), Clean(pending[i]));
        ScanKeeps(Now(), TrackOf(log), pending[i]);
        Note(Clean(pending[i]));
        i := i + 1;
      }
      outcome := Done;
    }

    /** The hidden checks of a played session; with none to play there is nothing to run. */
    method HiddenChecks(play: Play) returns (answer: Answer<bool>)
      requires play.session.Answered?
      ensures answer == if !play.hidden.Answered? then play.hidden
                        else if play.session.value.None? then Answered(true)
                        else if play.found == Answered(false) then Fault
                        else play.found
    {
      if !play.hidden.Answered? {
        return play.hidden;
      }
      if play.session.value.None? {
        return Answered(true);
      }
      answer := if play.found == Answered(false) then Fault else play.found;
    }

    /** The session is closed whatever came before; a process that died closes nothing. */
    method Closed(play: Play, result: Answer<bool>) returns (answer: Answer<bool>)
      requires play.session.Answered?
      ensures answer == if play.session.value.Some? && !result.Died? && !play.closed.Answered? then play.closed else result
    {
      answer := result;
      if play.session.value.Some? && !result.Died? {
        if !play.closed.Answered? {
          answer := play.closed;
        }
      }
    }

    /**
     * Plays the trial and scores it: its own tests first, then the hidden checks, unsealed for it.
     * `play` is what the world answers; the events and the result are those it leads to.
     */
    method Score(trial: Trial, play: Play) returns (answer: Answer<bool>)
      requires Orderly(log) && trial in TrackOf(log).pending && AllClean(TrackOf(log))
      requires MayAttempt(TrackOf(log), trial) && Times(TrackOf(log).faults, trial) <= Times(TrackOf(log).tries, trial)
      modifies this`log
      ensures log == old(log) + TryEvents(trial, play) && answer == AnswerOf(play)
      ensures Orderly(log) && TrackOf(log) == Tried(TrackOf(old(log)), trial, play)
    {
      TryIsOrderly(log, trial, play);
      hide *;
      ghost var events;
      answer, events := PlayOut(trial, play);
      log := log + events;
    }

    method PlayOut(trial: Trial, play: Play) returns (answer: Answer<bool>, ghost events: seq<Event>)
      ensures events == TryEvents(trial, play) && answer == AnswerOf(play)
    {
      events := [Attempt(trial)];
      if !play.session.Answered? {
        answer := if play.session.Died? then Died else if play.session.Fault? then Fault else Failed;
      } else if play.session.value == Some(true) {
        events := events + [OwnTestsRun(trial)];
        if play.own.Answered? {
          events := events + [Unsealed(trial)];
          answer := HiddenChecks(play);
        } else {
          answer := play.own;
        }
        answer := Closed(play, answer);
      } else {
        events := events + [Unsealed(trial)];
        answer := HiddenChecks(play);
        answer := Closed(play, answer);
      }
      if answer.Fault? {
        events := events + [Faulted(trial)];
      }
    }

    /** How a trial's scoring ends that did not fault at last. */
    method EndOf(answer: Answer<bool>) returns (outcome: Outcome)
      requires !answer.Fault?
      modifies this`met
      ensures Explained(outcome, old(met), met) && !outcome.Stopped?
      ensures (outcome.Done? <==> answer.Answered?) && (outcome.Killed? <==> answer.Died?)
    {
      if answer.Answered? {
        return Done;
      }
      NotAnswered(answer, met);
      met := met + TroubleOf(answer);
      return Unanswered(answer);
    }

    /** A fault is retried once; a second one stops the evaluation. */
    method RetriedScore(trial: Trial, first: Play, second: Play) returns (outcome: Outcome)
      requires Orderly(log) && MayScore(TrackOf(log), trial)
      modifies this`log, this`met
      ensures Explained(outcome, old(met), met)
      ensures log == old(log) + Scoring(trial, first, second) && Orderly(log)
      ensures SameButAttempts(TrackOf(old(log)), TrackOf(log), trial)
      ensures outcome.Stopped? <==> AnswerOf(first).Fault? && AnswerOf(second).Fault?
      ensures outcome.Stopped? ==> outcome == Stopped(Faults)
      ensures outcome.Done? <==> AnswerOf(if AnswerOf(first).Fault? then second else first).Answered?
      ensures outcome.Killed? <==> AnswerOf(if AnswerOf(first).Fault? then second else first).Died?
    {
      ScoringIsOrderly(log, trial, first, second);
      TriedKeeps(TrackOf(log), trial, first);
      CleanStill(TrackOf(log), Tried(TrackOf(log), trial, first), trial);
      DoneIsExplained(met);
      hide Orderly, TrackOf, AnswerOf, TryEvents, Tried, AllClean, SameButAttempts, Explained;
      var answer := Score(trial, first);
      if answer.Fault? {
        Grouped(old(log), TryEvents(trial, first), TryEvents(trial, second));
        answer := Score(trial, second);
        if answer.Fault? {
          ExplainedNow(Stopped(Faults), met, [TwoFaults]);
          met := met + [TwoFaults];
          return Stopped(Faults);
        }
      }
      outcome := EndOf(answer);
    }

    /** Scores the block's trials one by one; a held-out one's home goes as soon as it is scored. */
    method ScoreAll(pending: seq<Trial>) returns (outcome: Outcome)
      requires Valid() && Current() && pending == TrackOf(log).pending && Distinct(pending)
      requires forall p :: p in pending ==> p in authored && !IsScored(scored, p) && MayScore(TrackOf(log), p)
      modifies this
      ensures Valid() && (!unsaved ==> Current()) && spent == old(spent) && voided == old(voided)
      ensures SameBlocks(old(log), log) && Unpaying(old(log), log)
      ensures forall t :: IsScored(old(scored), t) ==> IsScored(scored, t)
      ensures outcome.Done? ==> Current() && forall p :: p in pending ==> IsScored(scored, p)
      ensures Explained(outcome, old(met), met) && outcome in {Done, Stopped(Faults), Threw, Killed}
    {
      hide SameBlocks, Unpaying, Consistent, Orderly, TrackOf, IsScored, Tracked, Scoring, SameButAttempts, MayScore, Follow, Explained;
      DoneIsExplained(met);
      SameBlocksStart(log);
      UnpayingStart(log);
      var i := 0;
      while i < |pending|
        invariant 0 <= i <= |pending|
        invariant Valid() && Current() && spent == old(spent) && voided == old(voided) && met == old(met)
        invariant pending == TrackOf(log).pending
        invariant SameBlocks(old(log), log) && Unpaying(old(log), log)
        invariant forall t :: IsScored(old(scored), t) ==> IsScored(scored, t)
        invariant forall k :: 0 <= k < i ==> IsScored(scored, pending[k])
        invariant forall k :: i <= k < |pending| ==>
                    pending[k] in authored && !IsScored(scored, pending[k]) && MayScore(TrackOf(log), pending[k])
      {
        var trial := pending[i];
        ghost var before := log;
        var first, second := AnyPlays(trial);
        var made := RetriedScore(trial, first, second);
        ScoringIsQuiet(before, trial, first, second);
        SameBlocksThen(old(log), before, log);
        UnpayingThen(old(log), before, log);
        ScoringKeeps(Now(), TrackOf(before), TrackOf(log), trial);
        OthersMayScore(pending, i, TrackOf(before), TrackOf(log));
        if !made.Done? {
          return made;
        }
        DoneMeetsNothing(old(met), met);
        SameBlocksNext(old(log), log, Event.Scored(trial));
        UnpayingNext(old(log), log, Event.Scored(trial));
        StillMayScore(pending, i, TrackOf(log));
        var ok := RecordScore(trial);
        if !ok {
          ExplainedNow(Threw, old(met), [BadWrite]);
          return Threw;
        }
        if trial.split.HeldOut? {
          var gone := Await();
          if !gone.Answered? {
            NotAnswered(gone, old(met));
            return Unanswered(gone);
          }
        }
        i := i + 1;
      }
      outcome := Done;
    }

    method AnyPlays(trial: Trial) returns (first: Play, second: Play)
    {
      first := AnyPlay(trial);
      second := AnyPlay(trial);
    }

    /** The trial's record takes the place of what was kept to score it, and is saved. */
    method RecordScore(trial: Trial) returns (ok: bool)
      requires Valid() && trial in authored && !IsScored(scored, trial)
      modifies this
      ensures Valid() && (if ok then Current() else unsaved) && spent == old(spent) && voided == old(voided)
      ensures scored == old(scored) + [Record(trial, old(authored)[trial])] && authored == old(authored) - {trial}
      ensures log == old(log) + [Event.Scored(trial)] && TrackOf(log) == Follow(TrackOf(old(log)), Event.Scored(trial))
      ensures forall t :: IsScored(scored, t) <==> IsScored(old(scored), t) || t == trial
      ensures met == if ok then old(met) else old(met) + [BadWrite]
    {
      RecordKeeps(Now(), trial);
      RecordTracked(Now(), TrackOf(log), trial);
      hide Consistent, Orderly, TrackOf, IsScored, Tracked, DoneOf, Follow, Proper;
      ghost var next := Saved(authored - {trial}, scored + [Record(trial, authored[trial])], spent, voided);
      scored := scored + [Record(trial, authored[trial])];
      authored := authored - {trial};
      assert Now() == next;
      Note(Event.Scored(trial));
      ok := Save();
    }

    /** One block: pay for what is not authored, scan everything, and only then score. */
    method RunBlock(block: Block, cap: real, ghost budget: Budget) returns (outcome: Outcome, begun: seq<Trial>)
      requires Valid() && Current() && !voided && Affords(budget, log, spent, 0.0) && budget.cap == cap
      modifies this
      ensures Valid() && (!unsaved ==> Current()) && Affords(budget, log, spent, 0.0)
      ensures voided ==> outcome.Stopped? || outcome.Threw?
      ensures forall t :: IsScored(old(scored), t) ==> IsScored(scored, t)
      ensures outcome.Done? ==>
                Current() && IsScored(scored, TrialOf(block, Base)) && IsScored(scored, TrialOf(block, Head))
      ensures Begun(old(log), log, begun)
      ensures Explained(outcome, old(met), met)
      ensures outcome == Stopped(OverBudget) ==> IsFull(block, estimate, Now(), cap)
    {
      hide Affords, SameBlocks, Begun, Share, Consistent, Orderly, TrackOf, IsScored, PerTrial, Tracked, Untried, Follow, Explained,
           IsFull, PendingOf, Unpaid, Unanswered, TroubleOf, NotTried, Distinct;
      begun := [];
      BegunNothing(log);
      DoneIsExplained(met);
      var asked := Await();
      if !asked.Answered? {
        NotAnswered(asked, old(met));
        return Unanswered(asked), [];
      }
      var pending := PendingOf(block, scored);
      PendingOnes(block, scored);
      if |pending| == 0 {
        return Done, [];
      }
      begun := pending;
      BegunOne(old(log), pending);
      AffordsNext(budget, log, spent, 0.0, BlockBegins(pending));
      BeginKeeps(Now(), TrackOf(log), pending);
      Note(BlockBegins(pending));
      var same := AwaitUnchanged();
      if same != Answered(true) {
        if same.Answered? {
          ExplainedNow(Stopped(BenchChanged), old(met), [Change]);
          return Stopped(BenchChanged), begun;
        }
        NotAnswered(same, old(met));
        return Unanswered(same), begun;
      }
      var unpaid := Unpaid(pending, authored);
      UnpaidOnes(pending, authored);
      var perTrial := PerTrial(estimate, scored);
      EstimateIsLeast(estimate, scored);
      if spent + Share(|unpaid|, perTrial) > cap {
        BudgetIsExplained(met);
        IsFullNow(block, estimate, Now(), cap);
        return Stopped(OverBudget), begun;
      }
      HasRoom(budget, log, spent, Share(|unpaid|, perTrial));
      ghost var start := log;
      outcome := PayAndGrade(pending, unpaid, perTrial, budget);
      BegunStays(old(log), start, log, pending);
    }

    /** The block's trials, when there is money for what is not authored yet. */
    method PayAndGrade(pending: seq<Trial>, unpaid: seq<Trial>, perTrial: real, ghost budget: Budget) returns (outcome: Outcome)
      requires Valid() && Current() && !voided && estimate <= perTrial
      requires Affords(budget, log, spent, Share(|unpaid|, perTrial))
      requires TrackOf(log).pending == pending && Distinct(pending) && NotTried(TrackOf(log))
      requires forall p :: p in pending ==> !IsScored(scored, p) && (p in authored || p in unpaid)
      requires forall t :: t in unpaid ==> !IsScored(scored, t)
      modifies this
      ensures Valid() && (!unsaved ==> Current()) && Affords(budget, log, spent, 0.0)
      ensures voided ==> outcome.Stopped? || outcome.Threw?
      ensures SameBlocks(old(log), log)
      ensures forall t :: IsScored(old(scored), t) ==> IsScored(scored, t)
      ensures outcome.Done? ==> Current() && forall p :: p in pending ==> IsScored(scored, p)
      ensures Explained(outcome, old(met), met) && outcome != Stopped(OverBudget)
    {
      hide Affords, SameBlocks, Share, Consistent, Orderly, TrackOf, IsScored, Tracked, Untried, NotTried, Explained;
      outcome := AuthorAll(unpaid, perTrial, budget);
      if outcome.Done? {
        DoneMeetsNothing(old(met), met);
        UntriedPending(TrackOf(old(log)), TrackOf(log));
        ghost var middle := log;
        outcome := Grade(pending, budget);
        SameBlocksThen(old(log), middle, log);
      }
    }

    /** The second half of a block, when everything in it is authored. */
    method Grade(pending: seq<Trial>, ghost budget: Budget) returns (outcome: Outcome)
      requires Valid() && Current() && !voided && Affords(budget, log, spent, 0.0)
      requires TrackOf(log).pending == pending && Distinct(pending) && NotTried(TrackOf(log))
      requires forall p :: p in pending ==> p in authored && !IsScored(scored, p)
      modifies this
      ensures Valid() && (!unsaved ==> Current()) && Affords(budget, log, spent, 0.0)
      ensures voided ==> outcome.Stopped? || outcome.Threw?
      ensures SameBlocks(old(log), log)
      ensures forall t :: IsScored(old(scored), t) ==> IsScored(scored, t)
      ensures outcome.Done? ==> Current() && forall p :: p in pending ==> IsScored(scored, p)
      ensures Explained(outcome, old(met), met) && outcome != Stopped(OverBudget)
    {
      hide Affords, SameBlocks, Unpaying, Consistent, Orderly, TrackOf, IsScored, Tracked, Untried, NotTried, Follow, Explained;
      outcome := ScanAll(pending);
      UnpayingAffords(budget, old(log), log, spent);
      if outcome.Done? {
        DoneMeetsNothing(old(met), met);
        UntriedPending(TrackOf(old(log)), TrackOf(log));
        AllMayScore(TrackOf(log));
        ghost var middle := log;
        outcome := ScoreAll(pending);
        UnpayingAffords(budget, middle, log, spent);
        SameBlocksThen(old(log), middle, log);
      }
    }

    /** Whatever stopped the loop: no held-out home outlives its trial unscored, if it can be discarded. */
    method Cleanup(begun: seq<Trial>, ghost budget: Budget) returns (outcome: Outcome)
      requires Valid() && Affords(budget, log, spent, 0.0)
      modifies this`authored, this`log, this`met
      ensures Valid() && Affords(budget, log, spent, 0.0)
      ensures SameBlocks(old(log), log) && (outcome.Done? || outcome.Killed?)
      ensures old(met) <= met && (outcome.Killed? ==> Death in met[|old(met)|..])
      ensures outcome.Done? ==> forall t :: t in begun ==> Kept(authored, scored, log[|old(log)|..], t)
    {
      hide Affords, SameBlocks, Unpaying, Consistent, Orderly, TrackOf, IsScored, Tracked, Agrees, Follow, Proper;
      SameBlocksStart(log);
      UnpayingStart(log);
      var i := 0;
      while i < |begun|
        invariant 0 <= i <= |begun|
        invariant Valid() && old(met) <= met
        invariant SameBlocks(old(log), log) && Unpaying(old(log), log) && |old(log)| <= |log|
        invariant forall k :: 0 <= k < i ==> Kept(authored, scored, log[|old(log)|..], begun[k])
      {
        var trial := begun[i];
        if trial.split.HeldOut? && !IsScored(scored, trial) {
          var gone := Await();
          if gone.Died? {
            assert met[|met| - 1] == Death && met[|old(met)|..][|met| - |old(met)| - 1] == Death;
            UnpayingAffords(budget, old(log), log, spent);
            return Killed;
          }
          ghost var event := if gone.Answered? then Unrecorded(trial) else Undiscarded(trial);
          SameBlocksNext(old(log), log, event);
          UnpayingNext(old(log), log, event);
          KeptNext(authored, scored, log, |old(log)|, event);
          DiscardKeeps(Now(), disk, TrackOf(log), trial, event);
          if gone.Answered? {
            authored := authored - {trial};
          }
          Note(event);
          KeptNow(authored, scored, log, |old(log)|, trial);
        }
        i := i + 1;
      }
      UnpayingAffords(budget, old(log), log, spent);
      outcome := Done;
    }

    /** The cleanup after a loop that was stopped or threw, and the record saved. */
    method CleanAndSave(ended: Outcome, begun: seq<Trial>, ghost budget: Budget, ghost before: seq<Trouble>)
        returns (outcome: Outcome)
      requires Valid() && Affords(budget, log, spent, 0.0) && Explained(ended, before, met) && (ended.Stopped? || ended.Threw?)
      modifies this`authored, this`log, this`met, this`disk, this`unsaved
      ensures Valid() && Affords(budget, log, spent, 0.0) && SameBlocks(old(log), log)
      ensures outcome in {ended, Threw, Killed} && Explained(outcome, before, met)
      ensures !outcome.Killed? ==>
                && (forall t :: t in begun ==> Kept(authored, scored, log[|old(log)|..], t))
                && (!unsaved ==> Current())
    {
      hide Affords, SameBlocks, Consistent, Orderly, TrackOf, IsScored, Tracked, Explained, Kept;
      ghost var reached := met;
      outcome := Cleanup(begun, budget);
      ExplainedSince(ended, before, reached);
      if outcome.Killed? {
        KilledAtLast(before, reached, met);
        return Killed;
      }
      ExplainedMore(ended, before, reached, met);
      var ok := Save();
      if !ok {
        ThrewAtLast(before, met);
        return Threw;
      }
      outcome := ended;
    }

    /** The loop over the blocks. */
    method RunAll(blocks: seq<Block>, cap: real, ghost budget: Budget) returns (outcome: Outcome, begun: seq<Trial>)
      requires Valid() && Current() && !voided && Affords(budget, log, spent, 0.0) && budget.cap == cap
      modifies this
      ensures Valid() && (!unsaved ==> Current()) && Affords(budget, log, spent, 0.0)
      ensures voided ==> outcome.Stopped? || outcome.Threw?
      ensures Begun(old(log), log, begun)
      ensures forall t :: IsScored(old(scored), t) ==> IsScored(scored, t)
      ensures outcome.Done? ==> Current()
      ensures outcome.Done? ==> forall k, side :: 0 <= k < |blocks| ==> IsScored(scored, TrialOf(blocks[k], side))
      ensures Explained(outcome, old(met), met)
      ensures outcome == Stopped(OverBudget) ==> exists k :: 0 <= k < |blocks| && IsFull(blocks[k], estimate, Now(), cap)
    {
      hide Affords, Begun, Consistent, Orderly, TrackOf, IsScored, Tracked, Explained, IsFull;
      begun := [];
      BegunNothing(log);
      DoneIsExplained(met);
      var i := 0;
      while i < |blocks|
        invariant 0 <= i <= |blocks|
        invariant Valid() && Current() && !voided && Affords(budget, log, spent, 0.0) && met == old(met)
        invariant Begun(old(log), log, begun)
        invariant forall t :: IsScored(old(scored), t) ==> IsScored(scored, t)
        invariant forall k, side :: 0 <= k < i ==> IsScored(scored, TrialOf(blocks[k], side))
      {
        ghost var before := log;
        var ended, more := RunBlock(blocks[i], cap, budget);
        BegunThen(old(log), before, log, begun, more);
        begun := begun + more;
        if !ended.Done? {
          return ended, begun;
        }
        DoneMeetsNothing(old(met), met);
        forall side
          ensures IsScored(scored, TrialOf(blocks[i], side))
        {
          assert side == Base || side == Head;
        }
        i := i + 1;
      }
      outcome := Done;
    }

    /**
     * One process: what is on disk read back, and a run over the blocks. It spends no more than the
     * cap if it began under it and no trial cost more than expected. When it is stopped, every
     * held-out trial it began is scored, or no longer on the record unless its discard failed.
     * However it ends, the file holds what was scored and spent, unless its last write failed.
     */
    method Evaluate(blocks: seq<Block>, cap: real) returns (outcome: Outcome)
      requires Valid()
      modifies this
      ensures Valid() && |old(log)| < |log| && old(log) <= log
      ensures !old(unsaved) && Remembers(old(log)) ==> Remembers(log)
      ensures old(disk).voided ==> outcome == Stopped(Contaminated) && Now() == disk == old(disk) && |log| == |old(log)| + 1
      ensures old(disk).spent <= cap && Frugal(log[|old(log)| + 1..]) ==> spent <= cap
      ensures forall t :: IsScored(old(disk).scored, t) ==> IsScored(scored, t)
      ensures outcome.Done? ==>
                Current() && !voided && forall k, side :: 0 <= k < |blocks| ==> IsScored(scored, TrialOf(blocks[k], side))
      ensures (outcome.Stopped? || outcome.Threw?) && !old(disk).voided ==>
                Forgotten(Now(), log, |old(log)| + 1) && (!unsaved ==> Current())
      ensures !old(disk).voided ==> Explained(outcome, old(met), met)
      ensures outcome == Stopped(OverBudget) ==> spent + Share(2, PerTrial(estimate, scored)) > cap
    {
      hide Affords, Begun, Frugal, Consistent, Orderly, TrackOf, IsScored, Forgotten, SameBlocks, Tracked, Remembers, DoneOf,
           Explained, IsFull, PerTrial, Share;
      Resume();
      if voided {
        FrugalNothing(log);
        return Stopped(Contaminated);
      }
      ghost var start := log;
      ForgottenNothing(Now(), log);
      ghost var budget := Budget(spent <= cap, cap, |log|);
      AffordsAtFirst(budget, log, spent);
      var ok := Save();
      if !ok {
        AffordsAtLast(budget, log, spent);
        ExplainedNow(Threw, old(met), [BadWrite]);
        return Threw;
      }
      var begun;
      outcome, begun := RunAll(blocks, cap, budget);
      BegunExtends(start, log, begun);
      RemembersOn(start, log);
      if outcome == Stopped(OverBudget) {
        FullAtMostTwo(blocks, estimate, Now(), cap);
      }
      if outcome.Stopped? || outcome.Threw? {
        ghost var middle := log;
        outcome := CleanAndSave(outcome, begun, budget, old(met));
        SameBlocksExtends(middle, log);
        RemembersOn(middle, log);
        if !outcome.Killed? {
          CleanedForgets(Now(), start, middle, log, begun);
        }
      }
      AffordsAtLast(budget, log, spent);
    }
  }

  /**
   * Any chain of processes. `lost` says whether one of them began after a write that had failed.
   * Otherwise nothing is scored twice or forgotten, the record has all the money ever charged, and
   * spending that began under the cap stays there if no trial cost more than expected.
   */
  method Campaign(e: Evaluation, plans: seq<seq<Block>>, cap: real) returns (ghost lost: bool)
    requires e.Valid()
    modifies e
    ensures e.Valid() && old(e.log) <= e.log
    ensures !lost && Remembers(old(e.log)) ==>
              Remembers(e.log) && NoneScoredTwice(e.log) && e.spent == Charged(e.log)
    ensures !lost ==> forall t :: IsScored(old(e.scored), t) ==> IsScored(e.scored, t)
    ensures !lost && old(e.spent) <= cap && Frugal(e.log[|old(e.log)|..]) ==> e.spent <= cap
    ensures !lost && old(e.voided) ==> e.voided
  {
    hide Consistent, Orderly, TrackOf, IsScored, Tracked, Remembers, Frugal, Forgotten, Charged, NoneScoredTwice;
    lost := false;
    var i := 0;
    while i < |plans|
      invariant e.Valid() && old(e.log) <= e.log
      invariant !lost && Remembers(old(e.log)) ==> Remembers(e.log)
      invariant !lost ==> forall t :: IsScored(old(e.scored), t) ==> IsScored(e.scored, t)
      invariant !lost && old(e.spent) <= cap && Frugal(e.log[|old(e.log)|..]) ==> e.spent <= cap
      invariant !lost && old(e.voided) ==> e.voided
    {
      lost := lost || e.unsaved;
      ghost var before := e.log;
      var outcome := e.Evaluate(plans[i], cap);
      FrugalParts(e.log, |old(e.log)|, |before|);
      assert e.log[..|before|] == before;
      i := i + 1;
    }
    if !lost && Remembers(old(e.log)) {
      RecordIsTrue(e.Now(), e.log);
    }
  }

  ghost predicate NoneScoredTwice(log: seq<Event>) {
    forall i, k :: 0 <= i < k < |log| && log[i].Scored? && log[k].Scored? ==> log[i].trial != log[k].trial
  }

  lemma RecordIsTrue(s: Saved, log: seq<Event>)
    requires Orderly(log) && Remembers(log) && Tracked(s, TrackOf(log))
    ensures NoneScoredTwice(log) && s.spent == Charged(log)
  {
    hide Orderly, Remembers, TrackOf, Charged;
    SpentIsCharged(log);
    forall i, k | 0 <= i < k < |log| && log[i].Scored? && log[k].Scored?
      ensures log[i].trial != log[k].trial
    {
      ScoredOnce(log, i, k);
    }
  }

  // ---- What each event does to the record ----

  ghost predicate Distinct(trials: seq<Trial>) {
    forall i, k :: 0 <= i < k < |trials| ==> trials[i] != trials[k]
  }

  lemma ResumedIsProper(track: Track, disk: Saved)
    ensures var event := Resumed(disk.authored.Keys, DoneOf(disk.scored), disk.spent);
            Proper(track, event) && Tracked(disk, Follow(track, event)) && Agrees(disk, disk)
  {
  }

  lemma BeginKeeps(s: Saved, track: Track, pending: seq<Trial>)
    requires Tracked(s, track)
    ensures var after := Follow(track, BlockBegins(pending));
            Proper(track, BlockBegins(pending)) && Tracked(s, after) && after.pending == pending && NotTried(after)
  {
  }

  lemma PayKeeps(s: Saved, track: Track, t: Trial, cost: Option<real>, charge: real, expected: real)
    requires Consistent(s) && Tracked(s, track) && !IsScored(s.scored, t)
    ensures var paid := s.(authored := s.authored[t := cost], spent := s.spent + charge);
            var event := Paid(t, charge, expected);
            Proper(track, event) && Consistent(paid) && Tracked(paid, Follow(track, event))
  {
    DoneHolds(s.scored, t);
    hide IsScored, DoneOf;
  }

  lemma ScanKeeps(s: Saved, track: Track, t: Trial)
    requires Tracked(s, track) && t in s.authored
    ensures var after := Follow(track, Clean(t));
            Proper(track, Clean(t)) && Tracked(s, after) && t in after.clean && forall p :: p in track.clean ==> p in after.clean
  {
  }

  lemma VoidKeeps(s: Saved, track: Track)
    requires Consistent(s) && Tracked(s, track)
    ensures Consistent(s.(voided := true)) && Tracked(s.(voided := true), track)
  {
  }

  lemma ScoringKeeps(s: Saved, before: Track, after: Track, t: Trial)
    requires Tracked(s, before) && SameButAttempts(before, after, t)
    ensures Tracked(s, after) && after.pending == before.pending
  {
  }

  lemma RecordKeeps(s: Saved, trial: Trial)
    requires Consistent(s) && trial in s.authored
    ensures var scored := s.scored + [Record(trial, s.authored[trial])];
            && Consistent(Saved(s.authored - {trial}, scored, s.spent, s.voided))
            && forall t :: IsScored(scored, t) <==> IsScored(s.scored, t) || t == trial
  {
    var scored := s.scored + [Record(trial, s.authored[trial])];
    assert scored[|s.scored|].trial == trial;
    assert forall i :: 0 <= i < |s.scored| ==> scored[i] == s.scored[i];
    forall t
      ensures IsScored(scored, t) <==> IsScored(s.scored, t) || t == trial
    {
      if IsScored(s.scored, t) {
        var i :| 0 <= i < |s.scored| && s.scored[i].trial == t;
        assert scored[i].trial == t;
      }
    }
    assert forall i :: 0 <= i < |s.scored| ==> IsScored(s.scored, s.scored[i].trial);
  }

  lemma RecordTracked(s: Saved, track: Track, trial: Trial)
    requires Consistent(s) && Tracked(s, track) && trial in s.authored && !IsScored(s.scored, trial)
    ensures var scored := s.scored + [Record(trial, s.authored[trial])];
            Proper(track, Event.Scored(trial))
            && Tracked(Saved(s.authored - {trial}, scored, s.spent, s.voided), Follow(track, Event.Scored(trial)))
  {
    DoneHolds(s.scored, trial);
    var scored := s.scored + [Record(trial, s.authored[trial])];
    assert scored[..|scored| - 1] == s.scored;
    hide IsScored;
  }

  /** A trial taken off the record, or one whose discard failed. */
  lemma DiscardKeeps(s: Saved, disk: Saved, track: Track, t: Trial, event: Event)
    requires Consistent(s) && Tracked(s, track) && event in [Unrecorded(t), Undiscarded(t)]
    ensures var left := if event.Unrecorded? then s.(authored := s.authored - {t}) else s;
            && Proper(track, event) && Consistent(left) && Tracked(left, Follow(track, event))
            && (Agrees(disk, s) ==> Agrees(disk, left))
  {
    hide IsScored, DoneOf;
  }

  // ---- Attempts in a block ----

  ghost predicate NotTried(track: Track) {
    track.tries == map[] && track.faults == map[]
  }

  /** The same block, and the same attempts in it. */
  ghost predicate Untried(before: Track, after: Track) {
    after.pending == before.pending && after.tries == before.tries && after.faults == before.faults
  }

  lemma UntriedStart(track: Track)
    ensures Untried(track, track)
  {
  }

  lemma UntriedNext(before: Track, middle: Track, event: Event)
    requires Untried(before, middle) && (event.Paid? || event.Clean?)
    ensures Untried(before, Follow(middle, event))
  {
  }

  lemma UntriedPending(before: Track, after: Track)
    requires Untried(before, after)
    ensures after.pending == before.pending && (NotTried(before) ==> NotTried(after))
  {
  }

  lemma AllMayScore(track: Track)
    requires NotTried(track) && forall p :: p in track.pending ==> p in track.clean
    ensures forall p :: p in track.pending ==> MayScore(track, p)
  {
  }

  lemma OthersMayScore(pending: seq<Trial>, i: nat, before: Track, after: Track)
    requires i < |pending| && Distinct(pending) && before.pending == pending && SameButAttempts(before, after, pending[i])
    requires forall k :: i <= k < |pending| ==> MayScore(before, pending[k])
    ensures forall k :: i < k < |pending| ==> MayScore(after, pending[k])
  {
    hide Times;
    CleanStill(before, after, pending[i]);
    hide AllClean;
    forall k | i < k < |pending|
      ensures MayScore(after, pending[k])
    {
      assert pending[k] in before.pending && pending[k] != pending[i];
      assert MayScore(before, pending[k]);
    }
  }

  lemma StillMayScore(pending: seq<Trial>, i: nat, track: Track)
    requires i < |pending| && track.pending == pending
    requires forall k :: i < k < |pending| ==> MayScore(track, pending[k])
    ensures var after := Follow(track, Event.Scored(pending[i]));
            after.pending == pending && forall k :: i < k < |pending| ==> MayScore(after, pending[k])
  {
    hide Times;
  }

  lemma ScoringIsQuiet(log: seq<Event>, t: Trial, first: Play, second: Play)
    ensures SameBlocks(log, log + Scoring(t, first, second)) && Unpaying(log, log + Scoring(t, first, second))
  {
    TryIsQuiet(t, first);
    TryIsQuiet(t, second);
    hide TryEvents, AnswerOf;
    var events := Scoring(t, first, second);
    assert forall i :: |log| <= i < |log + events| ==> (log + events)[i] == events[i - |log|];
  }

  lemma TryIsQuiet(t: Trial, play: Play)
    ensures forall i :: 0 <= i < |TryEvents(t, play)| ==>
              var event := TryEvents(t, play)[i]; !event.BlockBegins? && !event.Resumed? && !event.Paid?
  {
    hide AnswerOf;
  }

  /** Nothing was paid between two moments. */
  ghost predicate Unpaying(before: seq<Event>, after: seq<Event>) {
    before <= after && forall i :: |before| <= i < |after| ==> !after[i].Paid?
  }

  lemma UnpayingStart(log: seq<Event>)
    ensures Unpaying(log, log)
  {
  }

  lemma UnpayingNext(before: seq<Event>, log: seq<Event>, event: Event)
    requires Unpaying(before, log) && !event.Paid?
    ensures Unpaying(before, log + [event])
  {
  }

  lemma UnpayingThen(before: seq<Event>, middle: seq<Event>, after: seq<Event>)
    requires Unpaying(before, middle) && Unpaying(middle, after)
    ensures Unpaying(before, after)
  {
  }

  // ---- What a run began, and what it leaves ----

  /** Everything that blocks began between two moments in one process. */
  ghost predicate Begun(before: seq<Event>, after: seq<Event>, begun: seq<Trial>) {
    && before <= after
    && (forall i :: |before| <= i < |after| ==> !after[i].Resumed?)
    && forall i :: |before| <= i < |after| && after[i].BlockBegins? ==> forall t :: t in after[i].pending ==> t in begun
  }

  lemma BegunNothing(log: seq<Event>)
    ensures Begun(log, log, [])
  {
  }

  lemma BegunOne(log: seq<Event>, pending: seq<Trial>)
    ensures Begun(log, log + [BlockBegins(pending)], pending)
  {
  }

  lemma BegunExtends(before: seq<Event>, after: seq<Event>, begun: seq<Trial>)
    requires Begun(before, after, begun)
    ensures before <= after && forall i :: |before| <= i < |after| ==> !after[i].Resumed?
  {
  }

  lemma SameBlocksExtends(before: seq<Event>, after: seq<Event>)
    requires SameBlocks(before, after)
    ensures before <= after && forall i :: |before| <= i < |after| ==> !after[i].Resumed?
  {
  }

  lemma BegunStays(before: seq<Event>, middle: seq<Event>, after: seq<Event>, begun: seq<Trial>)
    requires Begun(before, middle, begun) && SameBlocks(middle, after)
    ensures Begun(before, after, begun)
  {
    forall i | |before| <= i < |after| && after[i].BlockBegins?
      ensures forall t :: t in after[i].pending ==> t in begun
    {
      assert i < |middle| && after[i] == middle[i];
    }
  }

  lemma BegunThen(before: seq<Event>, middle: seq<Event>, after: seq<Event>, begun: seq<Trial>, more: seq<Trial>)
    requires Begun(before, middle, begun) && Begun(middle, after, more)
    ensures Begun(before, after, begun + more)
  {
    forall i | |before| <= i < |after| && after[i].BlockBegins?
      ensures forall t :: t in after[i].pending ==> t in begun + more
    {
      if i < |middle| {
        assert after[i] == middle[i];
      }
    }
  }

  lemma PendingOnes(block: Block, scored: seq<Record>)
    ensures var pending := PendingOf(block, scored);
            && Distinct(pending)
            && (forall p :: p in pending ==> !IsScored(scored, p))
            && (IsScored(scored, TrialOf(block, Base)) || TrialOf(block, Base) in pending)
            && (IsScored(scored, TrialOf(block, Head)) || TrialOf(block, Head) in pending)
            && (|pending| == 2 ==> pending[0] == TrialOf(block, if block.headFirst then Head else Base))
            && (forall p :: p in pending ==> p == TrialOf(block, Base) || p == TrialOf(block, Head))
  {
    hide IsScored;
  }

  /** What the block still has to author would pass the cap, at what a trial is expected to cost. */
  ghost predicate IsFull(block: Block, estimate: real, s: Saved, cap: real) {
    s.spent + Share(|Unpaid(PendingOf(block, s.scored), s.authored)|, PerTrial(estimate, s.scored)) > cap
  }

  lemma FullAtMostTwo(blocks: seq<Block>, estimate: real, s: Saved, cap: real)
    requires estimate >= 0.0 && exists k :: 0 <= k < |blocks| && IsFull(blocks[k], estimate, s, cap)
    ensures s.spent + Share(2, PerTrial(estimate, s.scored)) > cap
  {
    var k :| 0 <= k < |blocks| && IsFull(blocks[k], estimate, s, cap);
    var perTrial := PerTrial(estimate, s.scored);
    EstimateIsLeast(estimate, s.scored);
    hide PerTrial, IsScored;
    UnpaidAtMost(PendingOf(blocks[k], s.scored), s.authored);
    OneShare(0, perTrial);
    OneShare(1, perTrial);
  }

  lemma {:induction false} UnpaidAtMost(pending: seq<Trial>, authored: map<Trial, Option<real>>)
    ensures |Unpaid(pending, authored)| <= |pending|
  {
    if pending != [] {
      UnpaidAtMost(pending[..|pending| - 1], authored);
    }
  }

  lemma NotAnswered<T>(answer: Answer<T>, before: seq<Trouble>)
    requires !answer.Answered?
    ensures Explained(Unanswered(answer), before, before + TroubleOf(answer)) && Unanswered(answer) in {Threw, Killed}
    ensures Unanswered(answer).Killed? <==> answer.Died?
  {
    ExplainedNow(Unanswered(answer), before, TroubleOf(answer));
  }

  lemma IsFullNow(block: Block, estimate: real, s: Saved, cap: real)
    requires s.spent + Share(|Unpaid(PendingOf(block, s.scored), s.authored)|, PerTrial(estimate, s.scored)) > cap
    ensures IsFull(block, estimate, s, cap)
  {
  }

  lemma DoneIsExplained(met: seq<Trouble>)
    ensures Explained(Done, met, met)
  {
  }

  lemma BudgetIsExplained(met: seq<Trouble>)
    ensures Explained(Stopped(OverBudget), met, met)
  {
  }

  lemma DoneMeetsNothing(before: seq<Trouble>, after: seq<Trouble>)
    requires Explained(Done, before, after)
    ensures after == before
  {
  }

  lemma ExplainedSince(outcome: Outcome, before: seq<Trouble>, after: seq<Trouble>)
    requires Explained(outcome, before, after)
    ensures before <= after
  {
  }

  /** A hit, and then a write that failed. */
  lemma HitUnsaved(met: seq<Trouble>)
    ensures Explained(Threw, met, met + [Hit] + [BadWrite])
  {
    assert (met + [Hit] + [BadWrite])[|met|..] == [Hit, BadWrite];
  }

  lemma ThrewAtLast(before: seq<Trouble>, after: seq<Trouble>)
    requires before < after && after[|after| - 1] == BadWrite
    ensures Explained(Threw, before, after)
  {
    assert after[|before|..][|after| - |before| - 1] == BadWrite;
  }

  lemma KilledAtLast(before: seq<Trouble>, middle: seq<Trouble>, after: seq<Trouble>)
    requires before <= middle <= after && Death in after[|middle|..]
    ensures Explained(Killed, before, after)
  {
    assert after[|before|..] == after[|before|..|middle|] + after[|middle|..];
  }

  lemma EstimateIsLeast(estimate: real, scored: seq<Record>)
    ensures PerTrial(estimate, scored) >= estimate && PerTrial(estimate, scored) >= Mean(KnownCosts(scored))
    ensures PerTrial(estimate, scored) == estimate || PerTrial(estimate, scored) == Mean(KnownCosts(scored))
  {
  }

  /** A held-out trial that was begun is scored, or off the record, or its discard failed. */
  ghost predicate Kept(authored: map<Trial, Option<real>>, scored: seq<Record>, events: seq<Event>, t: Trial) {
    t.split.HeldOut? && !IsScored(scored, t) ==> t !in authored || Undiscarded(t) in events
  }

  /** The same of all trials that blocks began since `from`. */
  ghost predicate Forgotten(s: Saved, log: seq<Event>, from: nat) {
    from <= |log| && forall i :: from <= i < |log| && log[i].BlockBegins? ==>
      forall t :: t in log[i].pending ==> Kept(s.authored, s.scored, log[from..], t)
  }

  lemma ForgottenNothing(s: Saved, log: seq<Event>)
    ensures Forgotten(s, log, |log|)
  {
  }

  lemma KeptNext(authored: map<Trial, Option<real>>, scored: seq<Record>, log: seq<Event>, from: nat, event: Event)
    requires from <= |log| && (event.Unrecorded? || event.Undiscarded?)
    ensures var left := if event.Unrecorded? then authored - {event.trial} else authored;
            forall t :: Kept(authored, scored, log[from..], t) ==> Kept(left, scored, (log + [event])[from..], t)
  {
    hide IsScored;
    assert (log + [event])[from..] == log[from..] + [event];
  }

  lemma KeptNow(authored: map<Trial, Option<real>>, scored: seq<Record>, log: seq<Event>, from: nat, t: Trial)
    requires from < |log| && (t !in authored || log[|log| - 1] == Undiscarded(t))
    ensures Kept(authored, scored, log[from..], t)
  {
    assert log[from..][|log| - from - 1] == log[|log| - 1];
  }

  lemma UnrecordKeeps(s: Saved, trial: Trial)
    requires Consistent(s)
    ensures Consistent(s.(authored := s.authored - {trial}))
  {
  }

  lemma CleanedForgets(s: Saved, before: seq<Event>, middle: seq<Event>, after: seq<Event>, begun: seq<Trial>)
    requires Begun(before, middle, begun) && SameBlocks(middle, after)
    requires forall t :: t in begun ==> Kept(s.authored, s.scored, after[|middle|..], t)
    ensures Forgotten(s, after, |before|)
  {
    BegunStays(before, middle, after, begun);
    assert after[|before|..] == after[|before|..|middle|] + after[|middle|..];
    hide IsScored;
  }

  // ---- Spending ----

  /** The budget of one run: whether it began under the cap, and where in the events it began. */
  datatype Budget = Budget(started: bool, cap: real, from: nat)

  /** If the run began under the cap and no trial cost more than expected, there is room for `ahead`. */
  ghost predicate Affords(budget: Budget, log: seq<Event>, spent: real, ahead: real) {
    budget.from <= |log| && (budget.started && Frugal(log[budget.from..]) ==> spent + ahead <= budget.cap)
  }

  function Share(trials: nat, perTrial: real): real {
    (trials as real) * perTrial
  }

  lemma OneShare(trials: nat, perTrial: real)
    requires perTrial >= 0.0
    ensures Share(trials, perTrial) >= 0.0 && Share(trials + 1, perTrial) == Share(trials, perTrial) + perTrial
  {
    assert (trials + 1) as real == trials as real + 1.0;
  }

  lemma SharesAreRoom(budget: Budget, log: seq<Event>, spent: real, trials: nat, perTrial: real)
    requires Affords(budget, log, spent, Share(trials, perTrial)) && perTrial >= 0.0
    ensures Affords(budget, log, spent, 0.0)
  {
    OneShare(trials, perTrial);
    hide Share, Frugal;
  }

  lemma FrugalNext(log: seq<Event>, from: nat, event: Event)
    requires from <= |log|
    ensures Frugal((log + [event])[from..]) <==> Frugal(log[from..]) && (event.Paid? ==> event.charge <= event.expected)
  {
    assert (log + [event])[from..] == log[from..] + [event];
    var events := log[from..];
    assert (events + [event])[|events|] == event;
    assert forall i :: 0 <= i < |events| ==> (events + [event])[i] == events[i];
  }

  lemma Spends(budget: Budget, log: seq<Event>, spent: real, left: nat, event: Event)
    requires event.Paid? && event.expected >= 0.0 && Affords(budget, log, spent, Share(left + 1, event.expected))
    ensures Affords(budget, log + [event], spent + event.charge, Share(left, event.expected))
    ensures Affords(budget, log + [event], spent + event.charge, 0.0)
  {
    FrugalNext(log, budget.from, event);
    OneShare(left, event.expected);
    hide Share, Frugal;
  }

  /** Nothing but a payment changes what is affordable. */
  lemma AffordsNext(budget: Budget, log: seq<Event>, spent: real, ahead: real, event: Event)
    requires Affords(budget, log, spent, ahead) && !event.Paid?
    ensures Affords(budget, log + [event], spent, ahead)
  {
    FrugalNext(log, budget.from, event);
    hide Frugal;
  }

  lemma {:induction false} UnpayingAffords(budget: Budget, before: seq<Event>, after: seq<Event>, spent: real)
    requires Affords(budget, before, spent, 0.0) && Unpaying(before, after)
    ensures Affords(budget, after, spent, 0.0)
  {
    if |before| < |after| {
      var init := after[..|after| - 1];
      assert Unpaying(before, init) && after == init + [after[|after| - 1]];
      UnpayingAffords(budget, before, init, spent);
      AffordsNext(budget, init, spent, 0.0, after[|after| - 1]);
    } else {
      assert before == after;
    }
  }

  lemma HasRoom(budget: Budget, log: seq<Event>, spent: real, ahead: real)
    requires Affords(budget, log, spent, 0.0) && spent + ahead <= budget.cap
    ensures Affords(budget, log, spent, ahead)
  {
  }

  lemma FrugalNothing(log: seq<Event>)
    ensures Frugal(log[|log|..])
  {
  }

  lemma FrugalSlice(events: seq<Event>, i: nat, k: nat)
    requires i <= k <= |events| && Frugal(events)
    ensures Frugal(events[i..k])
  {
    var part := events[i..k];
    forall m | 0 <= m < |part| && part[m].Paid?
      ensures part[m].charge <= part[m].expected
    {
      assert part[m] == events[i + m];
    }
  }

  /** What holds of all payments since `i` holds of those before `k` and after. */
  lemma FrugalParts(log: seq<Event>, i: nat, k: nat)
    requires i <= k < |log|
    ensures Frugal(log[i..]) ==> Frugal(log[..k][i..]) && Frugal(log[k + 1..])
  {
    var all := log[i..];
    assert log[..k][i..] == all[..k - i] && log[k + 1..] == all[k + 1 - i..];
    if Frugal(all) {
      FrugalSlice(all, 0, k - i);
      FrugalSlice(all, k + 1 - i, |all|);
      assert all[0..k - i] == all[..k - i] && all[k + 1 - i..|all|] == all[k + 1 - i..];
    }
  }

  /** A process that read back what was reached remembers it while it runs. */
  lemma {:induction false} RemembersOn(before: seq<Event>, after: seq<Event>)
    requires before <= after && forall i :: |before| <= i < |after| ==> !after[i].Resumed?
    ensures Remembers(before) ==> Remembers(after)
  {
    if |before| < |after| {
      var init := after[..|after| - 1];
      RemembersOn(before, init);
      assert init + [after[|after| - 1]] == after;
      RemembersNext(init, after[|after| - 1]);
    } else {
      assert before == after;
    }
  }

  lemma AffordsAtFirst(budget: Budget, log: seq<Event>, spent: real)
    requires budget == Budget(spent <= budget.cap, budget.cap, |log|)
    ensures Affords(budget, log, spent, 0.0)
  {
  }

  lemma AffordsAtLast(budget: Budget, log: seq<Event>, spent: real)
    requires Affords(budget, log, spent, 0.0)
    ensures budget.from <= |log| && (budget.started && Frugal(log[budget.from..]) ==> spent <= budget.cap)
  {
  }

  // ---- Blocks ----

  /** No block began and nothing was resumed between two moments. */
  ghost predicate SameBlocks(before: seq<Event>, after: seq<Event>) {
    before <= after && forall i :: |before| <= i < |after| ==> !after[i].BlockBegins? && !after[i].Resumed?
  }

  lemma SameBlocksStart(log: seq<Event>)
    ensures SameBlocks(log, log)
  {
  }

  lemma SameBlocksNext(before: seq<Event>, log: seq<Event>, event: Event)
    requires SameBlocks(before, log) && !event.BlockBegins? && !event.Resumed?
    ensures SameBlocks(before, log + [event])
  {
  }

  lemma SameBlocksThen(before: seq<Event>, middle: seq<Event>, after: seq<Event>)
    requires SameBlocks(before, middle) && SameBlocks(middle, after)
    ensures SameBlocks(before, after)
  {
  }
}
