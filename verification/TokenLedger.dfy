/**
 * The token counters of `StreamRenderer` (packages/cli/src/render.ts): a task's usage is printed when
 * it ends, and a compaction's usage waits until it is known which task it belongs to.
 */
module TokenLedger {
  datatype Ledger = Ledger(
    taskTokens: int,
    sessionTotal: int,
    subagentTotal: int,
    hasUsage: bool,
    compactionActive: bool,
    compactionTokens: int,
    pendingCompactionTokens: int)

  /** `Usage` is of the session itself, with its new cumulative total; `ChildUsage` of a subagent's. */
  datatype Step =
    | Usage(request: nat, session: int)
    | ChildUsage(request: nat)
    | RequestEnd
    | CompactionBegin
    | CompactionEnd
    | EndTask
    | EndCompact

  const FRESH := Ledger(0, 0, 0, false, false, 0, 0)

  /** A task's counters start over. */
  function Cleared(l: Ledger): Ledger {
    l.(taskTokens := 0, pendingCompactionTokens := 0, hasUsage := false, compactionActive := false, compactionTokens := 0)
  }

  function Next(l: Ledger, step: Step): Ledger {
    match step
    case Usage(request, session) =>
      var k := l.(sessionTotal := session);
      if k.compactionActive then
        k.(pendingCompactionTokens := k.pendingCompactionTokens + request, compactionTokens := k.compactionTokens + request)
      else
        k.(taskTokens := k.taskTokens + request, hasUsage := true)
    case ChildUsage(request) =>
      l.(taskTokens := l.taskTokens + request, subagentTotal := l.subagentTotal + request, hasUsage := true)
    case RequestEnd =>
      if !l.compactionActive && l.pendingCompactionTokens > 0 then
        l.(taskTokens := l.taskTokens + l.pendingCompactionTokens, pendingCompactionTokens := 0, hasUsage := true)
      else l
    case CompactionBegin => l.(compactionActive := true, compactionTokens := 0)
    case CompactionEnd => l.(compactionActive := false, compactionTokens := 0)
    case EndTask => Cleared(l)
    case EndCompact => Cleared(l)
  }

  /** The task's delta that `endTask` prints on its line of stats, when there is one. */
  function Printed(l: Ledger, step: Step): int {
    if step.EndTask? && l.hasUsage then l.taskTokens else 0
  }

  /** Usage that no line of stats will ever show: a compaction's after the turn ended, or a manual one's. */
  function Discarded(l: Ledger, step: Step): int {
    if step.EndTask? then l.pendingCompactionTokens
    else if step.EndCompact? then l.taskTokens + l.pendingCompactionTokens
    else 0
  }

  /** How much further than its request the session's total moved. */
  function Drift(l: Ledger, step: Step): int {
    if step.Usage? then step.session - l.sessionTotal - step.request else 0
  }

  datatype Run = Start | Then(before: Run, step: Step)

  function LedgerOf(run: Run): Ledger {
    match run
    case Start => FRESH
    case Then(before, step) => Next(LedgerOf(before), step)
  }

  function PrintedBy(run: Run): int {
    match run
    case Start => 0
    case Then(before, step) => PrintedBy(before) + Printed(LedgerOf(before), step)
  }

  function DiscardedBy(run: Run): int {
    match run
    case Start => 0
    case Then(before, step) => DiscardedBy(before) + Discarded(LedgerOf(before), step)
  }

  function DriftOf(run: Run): int {
    match run
    case Start => 0
    case Then(before, step) => DriftOf(before) + Drift(LedgerOf(before), step)
  }

  /** No counter is negative, and a task without usage has none to print. */
  predicate Sound(l: Ledger) {
    && l.taskTokens >= 0 && l.pendingCompactionTokens >= 0 && l.compactionTokens >= 0 && l.subagentTotal >= 0
    && (!l.hasUsage ==> l.taskTokens == 0)
  }

  lemma {:induction false} LedgerSound(run: Run)
    ensures Sound(LedgerOf(run)) && PrintedBy(run) >= 0 && DiscardedBy(run) >= 0
  {
    if run.Then? {
      LedgerSound(run.before);
    }
  }

  /**
   * At every moment every token of the cumulative total is printed, discarded, counted for the
   * running task or set aside for a compaction, up to what the session's total drifted.
   */
  lemma {:induction false} TokensConserved(run: Run)
    ensures var l := LedgerOf(run);
            PrintedBy(run) + DiscardedBy(run) + l.taskTokens + l.pendingCompactionTokens + DriftOf(run)
              == l.sessionTotal + l.subagentTotal
  {
    if run.Then? {
      TokensConserved(run.before);
      LedgerSound(run.before);
      hide LedgerOf, PrintedBy, DiscardedBy, DriftOf;
      StepConserves(LedgerOf(run.before), run.step);
      RunStep(run);
    }
  }

  lemma RunStep(run: Run)
    requires run.Then?
    ensures LedgerOf(run) == Next(LedgerOf(run.before), run.step)
    ensures PrintedBy(run) == PrintedBy(run.before) + Printed(LedgerOf(run.before), run.step)
    ensures DiscardedBy(run) == DiscardedBy(run.before) + Discarded(LedgerOf(run.before), run.step)
    ensures DriftOf(run) == DriftOf(run.before) + Drift(LedgerOf(run.before), run.step)
  {
  }

  lemma StepConserves(l: Ledger, step: Step)
    requires Sound(l)
    ensures var k := Next(l, step);
            && Sound(k)
            && Printed(l, step) + Discarded(l, step) + Drift(l, step) + k.taskTokens + k.pendingCompactionTokens
                 - l.taskTokens - l.pendingCompactionTokens
               == k.sessionTotal + k.subagentTotal - l.sessionTotal - l.subagentTotal
  {
  }

  /** Every usage of the session raises its total by what the request took. */
  predicate Faithful(run: Run) {
    run.Start? || (Faithful(run.before) && Drift(LedgerOf(run.before), run.step) == 0)
  }

  lemma {:induction false} FaithfulDoesNotDrift(run: Run)
    requires Faithful(run)
    ensures DriftOf(run) == 0
  {
    if run.Then? {
      FaithfulDoesNotDrift(run.before);
    }
  }

  /** The deltas printed never add up to more than the cumulative total grew, and miss only what is set aside. */
  lemma PrintedWithinTotal(run: Run)
    requires Faithful(run)
    ensures var l := LedgerOf(run);
            && PrintedBy(run) <= l.sessionTotal + l.subagentTotal
            && PrintedBy(run) == l.sessionTotal + l.subagentTotal
                                   - DiscardedBy(run) - l.taskTokens - l.pendingCompactionTokens
  {
    TokensConserved(run);
    FaithfulDoesNotDrift(run);
    LedgerSound(run);
    hide LedgerOf, PrintedBy, DiscardedBy, DriftOf;
  }

  // ---- Where a compaction's usage goes ----

  function After(l: Ledger, steps: seq<Step>): Ledger {
    if steps == [] then l else Next(After(l, steps[..|steps| - 1]), steps[|steps| - 1])
  }

  predicate WithinTask(steps: seq<Step>) {
    forall k :: 0 <= k < |steps| ==> !steps[k].EndTask? && !steps[k].EndCompact?
  }

  /** A normal request, not a compaction's, ends among the steps. */
  ghost predicate NormalRequestEnds(l: Ledger, steps: seq<Step>) {
    exists k :: 0 <= k < |steps| && steps[k].RequestEnd? && !After(l, steps[..k]).compactionActive
  }

  lemma NormalNext(l: Ledger, steps: seq<Step>, step: Step)
    ensures NormalRequestEnds(l, steps + [step]) <==>
              NormalRequestEnds(l, steps) || (step.RequestEnd? && !After(l, steps).compactionActive)
  {
    hide After;
    var more := steps + [step];
    assert more[..|steps|] == steps && more[|steps|] == step;
    assert forall k :: 0 <= k < |steps| ==> more[..k] == steps[..k] && more[k] == steps[k];
    if NormalRequestEnds(l, steps) {
      var k :| 0 <= k < |steps| && steps[k].RequestEnd? && !After(l, steps[..k]).compactionActive;
      assert more[k].RequestEnd? && !After(l, more[..k]).compactionActive;
    }
  }

  /** Two ledgers that differ only in tokens staged, of which `settled` have gone to the task. */
  predicate DifferBy(more: Ledger, less: Ledger, staged: int, settled: int) {
    && more.compactionActive == less.compactionActive && less.pendingCompactionTokens >= 0
    && more.taskTokens == less.taskTokens + settled
    && more.pendingCompactionTokens == less.pendingCompactionTokens + staged - settled
  }

  lemma {:induction false} StagedStays(more: Ledger, less: Ledger, staged: nat, steps: seq<Step>)
    requires DifferBy(more, less, staged, 0) && WithinTask(steps)
    ensures DifferBy(After(more, steps), After(less, steps), staged, if NormalRequestEnds(more, steps) then staged else 0)
  {
    if steps != [] {
      var front, last := steps[..|steps| - 1], steps[|steps| - 1];
      assert steps == front + [last];
      StagedStays(more, less, staged, front);
      NormalNext(more, front, last);
      StepDiffers(After(more, front), After(less, front), staged, if NormalRequestEnds(more, front) then staged else 0, last);
      hide Next, NormalRequestEnds, DifferBy;
    }
  }

  lemma StepDiffers(more: Ledger, less: Ledger, staged: nat, settled: int, step: Step)
    requires DifferBy(more, less, staged, settled) && (settled == 0 || settled == staged)
    requires !step.EndTask? && !step.EndCompact?
    ensures DifferBy(Next(more, step), Next(less, step), staged,
                     if step.RequestEnd? && !more.compactionActive then staged else settled)
  {
  }

  lemma UsageDiffers(l: Ledger, request: nat, session: int)
    requires Sound(l) && l.compactionActive
    ensures var with, without := Next(l, Usage(request, session)), Next(l, Usage(0, session));
            Sound(with) && Sound(without) && DifferBy(with, without, request, 0)
  {
  }

  /** The same in terms of what the line of stats shows in the end, and what it does not. */
  lemma StagedShows(with: Ledger, without: Ledger, request: nat, steps: seq<Step>)
    requires Sound(with) && Sound(without) && DifferBy(with, without, request, 0) && WithinTask(steps)
    ensures var settled := if NormalRequestEnds(with, steps) then request else 0;
            && Printed(After(with, steps), EndTask) == Printed(After(without, steps), EndTask) + settled
            && Discarded(After(with, steps), EndTask) == Discarded(After(without, steps), EndTask) + request - settled
  {
    hide *;
    var settled := if NormalRequestEnds(with, steps) then request else 0;
    StagedStays(with, without, request, steps);
    SoundAfter(with, steps);
    SoundAfter(without, steps);
    StatsDiffer(After(with, steps), After(without, steps), request, settled);
  }

  /**
   * A compaction's usage counts for the task exactly when a normal request ends after it, before
   * the task does: whatever follows, the line of stats shows that much more than it would
   * without the usage, or else that much more is discarded.
   */
  lemma CompactionSettles(run: Run, request: nat, session: int, steps: seq<Step>)
    requires LedgerOf(run).compactionActive && WithinTask(steps)
    ensures var with := Next(LedgerOf(run), Usage(request, session));
            var settled := if NormalRequestEnds(with, steps) then request else 0;
            var end, without := After(with, steps), After(Next(LedgerOf(run), Usage(0, session)), steps);
            && Printed(end, EndTask) == Printed(without, EndTask) + settled
            && Discarded(end, EndTask) == Discarded(without, EndTask) + request - settled
  {
    LedgerSound(run);
    hide *;
    UsageDiffers(LedgerOf(run), request, session);
    StagedShows(Next(LedgerOf(run), Usage(request, session)), Next(LedgerOf(run), Usage(0, session)), request, steps);
  }

  lemma StatsDiffer(more: Ledger, less: Ledger, staged: nat, settled: int)
    requires Sound(more) && Sound(less) && DifferBy(more, less, staged, settled)
    ensures Printed(more, EndTask) == Printed(less, EndTask) + settled
    ensures Discarded(more, EndTask) == Discarded(less, EndTask) + staged - settled
  {
  }

  lemma {:induction false} SoundAfter(l: Ledger, steps: seq<Step>)
    requires Sound(l)
    ensures Sound(After(l, steps))
  {
    if steps != [] {
      SoundAfter(l, steps[..|steps| - 1]);
    }
  }

  // ---- What counts for what, by what happened ----

  /** The last compaction to begin has not ended, nor has its task. */
  predicate InCompaction(run: Run) {
    run.Then? &&
      match run.step
      case CompactionBegin => true
      case CompactionEnd => false
      case EndTask => false
      case EndCompact => false
      case _ => InCompaction(run.before)
  }

  /** What the requests of the compaction under way have used. */
  function CompactionUsage(run: Run): nat {
    if !InCompaction(run) || run.step.CompactionBegin? then 0
    else CompactionUsage(run.before) + if run.step.Usage? then run.step.request else 0
  }

  /** A compaction's line shows the sum of its own requests; outside of one there is nothing to show. */
  lemma {:induction false} CompactionLineShows(run: Run)
    ensures LedgerOf(run).compactionActive <==> InCompaction(run)
    ensures LedgerOf(run).compactionTokens == CompactionUsage(run)
  {
    if run.Then? {
      CompactionLineShows(run.before);
    }
  }

  /**
   * A request's usage waits for its compaction to be settled if one is under way, and counts for the
   * task otherwise, from the moment the compaction has ended; a subagent's always counts.
   */
  lemma UsageGoes(run: Run, request: nat, session: int)
    ensures var l, k, c := LedgerOf(run), LedgerOf(Then(run, Usage(request, session))), LedgerOf(Then(run, ChildUsage(request)));
            && k.sessionTotal == session && k.subagentTotal == l.subagentTotal
            && (if InCompaction(run) then
                  k.taskTokens == l.taskTokens && k.pendingCompactionTokens == l.pendingCompactionTokens + request
                  && k.hasUsage == l.hasUsage
                else
                  k.taskTokens == l.taskTokens + request && k.pendingCompactionTokens == l.pendingCompactionTokens && k.hasUsage)
            && c == l.(taskTokens := l.taskTokens + request, subagentTotal := l.subagentTotal + request, hasUsage := true)
  {
    CompactionLineShows(run);
  }

  /** The end of a normal request gives the task what was waiting; that of a compaction's does nothing. */
  lemma RequestSettles(run: Run)
    ensures var l, k := LedgerOf(run), LedgerOf(Then(run, RequestEnd));
            if InCompaction(run) || l.pendingCompactionTokens == 0 then k == l
            else k == l.(taskTokens := l.taskTokens + l.pendingCompactionTokens, pendingCompactionTokens := 0, hasUsage := true)
  {
    CompactionLineShows(run);
    LedgerSound(run);
  }

  /** A compaction's beginning and end count nothing; a task's end leaves nothing but the totals. */
  lemma EndsLeave(run: Run, step: Step)
    requires step.CompactionBegin? || step.CompactionEnd? || step.EndTask? || step.EndCompact?
    ensures var l, k := LedgerOf(run), LedgerOf(Then(run, step));
            && k.sessionTotal == l.sessionTotal && k.subagentTotal == l.subagentTotal
            && (if step.EndTask? || step.EndCompact? then k.taskTokens == k.pendingCompactionTokens == 0 && !k.hasUsage
                else k.taskTokens == l.taskTokens && k.pendingCompactionTokens == l.pendingCompactionTokens && k.hasUsage == l.hasUsage)
            && (k.compactionActive <==> step.CompactionBegin?) && k.compactionTokens == 0
  {
  }

  /** Usage after a compaction's end, with no other begun since, is the task's again. */
  lemma {:induction false} CompactionIsOver(run: Run, steps: seq<Step>)
    requires forall k :: 0 <= k < |steps| ==> !steps[k].CompactionBegin?
    ensures !InCompaction(Onward(Then(run, CompactionEnd), steps))
  {
    if steps != [] {
      CompactionIsOver(run, steps[..|steps| - 1]);
    }
  }

  function Onward(run: Run, steps: seq<Step>): Run {
    if steps == [] then run else Then(Onward(run, steps[..|steps| - 1]), steps[|steps| - 1])
  }

  // ---- The counters of the renderer ----

  class Counters {
    var taskTokens: int
    var sessionTotal: int
    var subagentTotal: int
    var hasUsage: bool
    var compactionActive: bool
    var compactionTokens: int
    var pendingCompactionTokens: int
    /** Printed and discarded so far, and how far the session's total drifted. */
    ghost var printed: int
    ghost var discarded: int
    ghost var drift: int

    ghost function Now(): Ledger
      reads this
    {
      Ledger(taskTokens, sessionTotal, subagentTotal, hasUsage, compactionActive, compactionTokens, pendingCompactionTokens)
    }

    /** Every token of the cumulative total is accounted for. */
    ghost predicate Valid()
      reads this
    {
      && Sound(Now()) && printed >= 0 && discarded >= 0
      && printed + discarded + taskTokens + pendingCompactionTokens + drift == sessionTotal + subagentTotal
    }

    constructor ()
      ensures Valid() && Now() == LedgerOf(Start) && printed == discarded == drift == 0
    {
      printed, discarded, drift := 0, 0, 0;
      taskTokens, sessionTotal, subagentTotal := 0, 0, 0;
      hasUsage, compactionActive, compactionTokens, pendingCompactionTokens := false, false, 0, 0;
    }

    method TokenUsage(request: nat, session: int)
      requires Valid()
      modifies this
      ensures Valid() && printed == old(printed) && discarded == old(discarded)
      ensures drift == old(drift) + Drift(old(Now()), Usage(request, session))
      ensures Now() == Next(old(Now()), Usage(request, session))
    {
      drift := drift + (session - sessionTotal - request);
      sessionTotal := session;
      if compactionActive {
        pendingCompactionTokens := pendingCompactionTokens + request;
        compactionTokens := compactionTokens + request;
      } else {
        taskTokens := taskTokens + request;
        hasUsage := true;
      }
    }

    method NestedTokenUsage(request: nat)
      requires Valid()
      modifies this
      ensures Valid() && printed == old(printed) && discarded == old(discarded) && drift == old(drift)
      ensures Now() == Next(old(Now()), ChildUsage(request))
    {
      taskTokens := taskTokens + request;
      subagentTotal := subagentTotal + request;
      hasUsage := true;
    }

    method RequestEnds()
      requires Valid()
      modifies this
      ensures Valid() && printed == old(printed) && discarded == old(discarded) && drift == old(drift)
      ensures Now() == Next(old(Now()), RequestEnd)
    {
      if !compactionActive {
        if pendingCompactionTokens > 0 {
          taskTokens := taskTokens + pendingCompactionTokens;
          pendingCompactionTokens := 0;
          hasUsage := true;
        }
      }
    }

    method CompactionBegins()
      requires Valid()
      modifies this
      ensures Valid() && printed == old(printed) && discarded == old(discarded) && drift == old(drift)
      ensures Now() == Next(old(Now()), CompactionBegin)
    {
      compactionActive := true;
      compactionTokens := 0;
    }

    /** The line that a compaction ends with shows its own usage. */
    method CompactionEnds() returns (delta: int)
      requires Valid()
      modifies this
      ensures Valid() && printed == old(printed) && discarded == old(discarded) && drift == old(drift)
      ensures Now() == Next(old(Now()), CompactionEnd) && delta == old(compactionTokens)
    {
      compactionActive := false;
      delta := compactionTokens;
      compactionTokens := 0;
    }

    /** The line of stats shows the cumulative total and the task's delta. */
    method EndTask() returns (shown: bool, total: int, delta: int)
      requires Valid()
      modifies this
      ensures Valid() && drift == old(drift)
      ensures printed == old(printed) + (if shown then delta else 0)
      ensures discarded == old(discarded) + Discarded(old(Now()), Step.EndTask)
      ensures drift == 0 ==> printed <= sessionTotal + subagentTotal
      ensures Now() == Next(old(Now()), Step.EndTask)
      ensures shown == old(hasUsage) && total == old(sessionTotal) + old(subagentTotal)
      ensures (if shown then delta else 0) == Printed(old(Now()), Step.EndTask)
    {
      printed := printed + taskTokens;
      discarded := discarded + pendingCompactionTokens;
      shown, total, delta := hasUsage, sessionTotal + subagentTotal, taskTokens;
      StartOver();
    }

    method EndCompact()
      requires Valid()
      modifies this
      ensures Valid() && drift == old(drift) && printed == old(printed)
      ensures discarded == old(discarded) + Discarded(old(Now()), Step.EndCompact)
      ensures Now() == Next(old(Now()), Step.EndCompact)
    {
      discarded := discarded + taskTokens + pendingCompactionTokens;
      StartOver();
    }

    method StartOver()
      modifies this
      ensures printed == old(printed) && discarded == old(discarded) && drift == old(drift)
      ensures Now() == Cleared(old(Now()))
    {
      taskTokens := 0;
      pendingCompactionTokens := 0;
      hasUsage := false;
      compactionActive := false;
      compactionTokens := 0;
    }
  }
}
