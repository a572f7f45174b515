/**
 * The queue in front of the screen (`StreamRenderer` in packages/cli/src/render.ts): a streaming
 * segment holds the screen until its stop, and a prompt or the user's typing holds back everything.
 */
module ScreenLock {
  import opened Wrappers

  /** A message, by number; `owner` is the stream it belongs to, none for one that stands alone. */
  datatype Msg = Msg(id: int, owner: Option<string>, stop: bool)

  /** What is on the screen, what waits, and the stream that holds the screen. */
  datatype Queue = Queue(rendered: seq<Msg>, pending: seq<Msg>, holder: Option<string>)

  // ---- One message at a time ----

  predicate Allowed(holder: Option<string>, m: Msg) {
    holder.None? || m.owner == holder
  }

  /** The holder after a message it lets through. */
  function After(holder: Option<string>, m: Msg): Option<string> {
    if m.owner.None? then holder else if m.stop then None else m.owner
  }

  /** The first message that may be rendered, or the length of the queue. */
  function FirstAllowed(pending: seq<Msg>, holder: Option<string>): (i: nat)
    ensures i <= |pending|
    ensures i < |pending| ==> Allowed(holder, pending[i])
    ensures forall k :: 0 <= k < i ==> !Allowed(holder, pending[k])
  {
    if pending == [] || Allowed(holder, pending[0]) then 0 else 1 + FirstAllowed(pending[1..], holder)
  }

  function RenderAt(q: Queue, i: nat): Queue
    requires i < |q.pending|
  {
    Queue(q.rendered + [q.pending[i]], q.pending[..i] + q.pending[i + 1..], After(q.holder, q.pending[i]))
  }

  /** Rendering, from the head of the queue each time, the first message that is allowed, until none is. */
  function Settled(q: Queue): Queue
    decreases |q.pending|
  {
    var i := FirstAllowed(q.pending, q.holder);
    if i == |q.pending| then q else Settled(RenderAt(q, i))
  }

  predicate Blocked(q: Queue) {
    forall k :: 0 <= k < |q.pending| ==> !Allowed(q.holder, q.pending[k])
  }

  lemma {:induction false} SettledBlocked(q: Queue)
    ensures Blocked(Settled(q))
    decreases |q.pending|
  {
    var i := FirstAllowed(q.pending, q.holder);
    if i < |q.pending| {
      SettledBlocked(RenderAt(q, i));
    }
  }

  /** What a drain leaves queued waits for a segment of another stream; with no segment open nothing is left. */
  lemma SettledLeaves(q: Queue)
    ensures var s := Settled(q);
            forall k :: 0 <= k < |s.pending| ==> s.holder.Some? && s.pending[k].owner != s.holder
  {
    SettledBlocked(q);
    hide Settled;
  }

  lemma {:induction false} FirstIs(pending: seq<Msg>, holder: Option<string>, i: nat)
    requires i <= |pending| && (i < |pending| ==> Allowed(holder, pending[i]))
    requires forall k :: 0 <= k < i ==> !Allowed(holder, pending[k])
    ensures FirstAllowed(pending, holder) == i
  {
    if i > 0 {
      FirstIs(pending[1..], holder, i - 1);
    }
  }

  // ---- The order of each stream ----

  /** The messages of one stream, or those that stand alone. */
  function Of(ms: seq<Msg>, owner: Option<string>): seq<Msg> {
    if ms == [] then []
    else
      var front := Of(ms[..|ms| - 1], owner);
      if ms[|ms| - 1].owner == owner then front + [ms[|ms| - 1]] else front
  }

  lemma {:induction false} OfConcat(xs: seq<Msg>, ys: seq<Msg>, owner: Option<string>)
    ensures Of(xs + ys, owner) == Of(xs, owner) + Of(ys, owner)
  {
    if ys == [] {
      assert xs + ys == xs;
    } else {
      OfConcat(xs, ys[..|ys| - 1], owner);
      assert (xs + ys)[..|xs + ys| - 1] == xs + ys[..|ys| - 1];
    }
  }

  lemma {:induction false} OfNone(ms: seq<Msg>, owner: Option<string>)
    requires forall k :: 0 <= k < |ms| ==> ms[k].owner != owner
    ensures Of(ms, owner) == []
  {
    if ms != [] {
      OfNone(ms[..|ms| - 1], owner);
    }
  }

  lemma OfOne(m: Msg, owner: Option<string>)
    ensures Of([m], owner) == if m.owner == owner then [m] else []
  {
    assert [m][..0] == [];
  }

  lemma OfAround(front: seq<Msg>, m: Msg, back: seq<Msg>, owner: Option<string>)
    ensures Of(front + ([m] + back), owner) == Of(front, owner) + (Of([m], owner) + Of(back, owner))
  {
    OfConcat(front, [m] + back, owner);
    OfConcat([m], back, owner);
  }

  /** A message may go before others of other streams. */
  lemma MovesAhead(rendered: seq<Msg>, front: seq<Msg>, m: Msg, back: seq<Msg>, owner: Option<string>)
    requires m.owner == owner ==> Of(front, owner) == []
    ensures Of(rendered + [m], owner) + Of(front + back, owner) == Of(rendered, owner) + Of(front + ([m] + back), owner)
  {
    OfAround(front, m, back, owner);
    OfConcat(rendered, [m], owner);
    OfConcat(front, back, owner);
    OfOne(m, owner);
    hide Of;
  }

  lemma RenderAtKeepsOrder(q: Queue, i: nat, owner: Option<string>)
    requires i < |q.pending| && (q.pending[i].owner == owner ==> Of(q.pending[..i], owner) == [])
    ensures Of(RenderAt(q, i).rendered, owner) + Of(RenderAt(q, i).pending, owner) == Of(q.rendered, owner) + Of(q.pending, owner)
  {
    hide Of, After;
    SplitAt(q.pending, i);
    MovesAhead(q.rendered, q.pending[..i], q.pending[i], q.pending[i + 1..], owner);
  }

  /** Taking the first allowed message moves nothing past a message of its own stream. */
  lemma RenderKeepsOrder(q: Queue, owner: Option<string>)
    requires FirstAllowed(q.pending, q.holder) < |q.pending|
    ensures var k := RenderAt(q, FirstAllowed(q.pending, q.holder));
            Of(k.rendered, owner) + Of(k.pending, owner) == Of(q.rendered, owner) + Of(q.pending, owner)
  {
    hide Of, RenderAt, Allowed;
    var i := FirstAllowed(q.pending, q.holder);
    if q.pending[i].owner == owner {
      FrontIsForeign(q, i);
      OfNone(q.pending[..i], owner);
    }
    RenderAtKeepsOrder(q, i, owner);
  }

  lemma SplitAt(ms: seq<Msg>, i: nat)
    requires i < |ms|
    ensures ms == ms[..i] + ([ms[i]] + ms[i + 1..])
  {
  }

  lemma FrontIsForeign(q: Queue, i: nat)
    requires i < |q.pending| && Allowed(q.holder, q.pending[i])
    requires forall k :: 0 <= k < i ==> !Allowed(q.holder, q.pending[k])
    ensures forall k :: 0 <= k < i ==> q.pending[k].owner != q.pending[i].owner
  {
    if i > 0 {
      assert !Allowed(q.holder, q.pending[0]);
    }
  }

  lemma {:induction false} SettledKeepsOrder(q: Queue, owner: Option<string>)
    ensures Of(Settled(q).rendered, owner) + Of(Settled(q).pending, owner) == Of(q.rendered, owner) + Of(q.pending, owner)
    decreases |q.pending|
  {
    var i := FirstAllowed(q.pending, q.holder);
    if i < |q.pending| {
      RenderKeepsOrder(q, owner);
      SettledKeepsOrder(RenderAt(q, i), owner);
      hide Of, RenderAt;
    }
  }

  lemma {:induction false} CountOf(ms: seq<Msg>, m: Msg)
    ensures multiset(Of(ms, m.owner))[m] == multiset(ms)[m]
  {
    if ms != [] {
      var front, last := ms[..|ms| - 1], ms[|ms| - 1];
      CountOf(front, m);
      assert ms == front + [last];
    }
  }

  lemma CountsAgree(shown: seq<Msg>, queued: seq<Msg>, handled: seq<Msg>, m: Msg)
    requires Of(shown, m.owner) + Of(queued, m.owner) == Of(handled, m.owner)
    ensures multiset(shown)[m] + multiset(queued)[m] == multiset(handled)[m]
  {
    CountOf(shown, m);
    CountOf(queued, m);
    CountOf(handled, m);
    hide Of;
    assert multiset(Of(shown, m.owner) + Of(queued, m.owner)) == multiset(Of(shown, m.owner)) + multiset(Of(queued, m.owner));
  }

  /** Each stream in order means that no message is lost, or rendered twice. */
  lemma OrderMeansPermutation(shown: seq<Msg>, queued: seq<Msg>, handled: seq<Msg>)
    requires forall owner :: Of(shown, owner) + Of(queued, owner) == Of(handled, owner)
    ensures multiset(shown) + multiset(queued) == multiset(handled)
  {
    hide Of;
    forall m: Msg
      ensures multiset(shown)[m] + multiset(queued)[m] == multiset(handled)[m]
    {
      CountsAgree(shown, queued, handled, m);
    }
  }

  // ---- A segment is not broken into ----

  /** The stream whose segment is open after these messages. */
  function OpenAfter(ms: seq<Msg>): Option<string> {
    if ms == [] then None else After(OpenAfter(ms[..|ms| - 1]), ms[|ms| - 1])
  }

  /** A stream's segment is open exactly if the last message of any stream is its own, and no stop. */
  lemma {:induction false} OpenIs(ms: seq<Msg>, stream: string)
    ensures OpenAfter(ms) == Some(stream) <==>
              exists i :: 0 <= i < |ms| && ms[i].owner == Some(stream) && !ms[i].stop
                          && forall j :: i < j < |ms| ==> ms[j].owner.None?
  {
    if ms != [] {
      var front, n := ms[..|ms| - 1], |ms| - 1;
      OpenIs(front, stream);
      assert forall j :: 0 <= j < n ==> front[j] == ms[j];
      if ms[n].owner.None? {
        if OpenAfter(front) == Some(stream) {
          var i :| 0 <= i < |front| && front[i].owner == Some(stream) && !front[i].stop
                   && forall j :: i < j < |front| ==> front[j].owner.None?;
          assert ms[i].owner == Some(stream);
        }
      } else if ms[n].owner == Some(stream) && !ms[n].stop {
        assert ms[n].owner == Some(stream);
      }
    }
  }

  /** Every message comes while no segment, or its own stream's, is open. */
  ghost predicate Unbroken(ms: seq<Msg>) {
    forall k :: 0 <= k < |ms| ==> Allowed(OpenAfter(ms[..k]), ms[k])
  }

  lemma UnbrokenNext(ms: seq<Msg>, m: Msg)
    requires Unbroken(ms) && Allowed(OpenAfter(ms), m)
    ensures Unbroken(ms + [m]) && OpenAfter(ms + [m]) == After(OpenAfter(ms), m)
  {
    var more := ms + [m];
    assert more[..|ms|] == ms;
    forall k | 0 <= k < |more|
      ensures Allowed(OpenAfter(more[..k]), more[k])
    {
      if k < |ms| {
        assert more[..k] == ms[..k];
      }
    }
  }

  /** From `start` on, nothing was rendered into another stream's open segment. */
  ghost predicate ScreenSafe(q: Queue, start: nat) {
    start <= |q.rendered| && Unbroken(q.rendered[start..]) && OpenAfter(q.rendered[start..]) == q.holder
  }

  lemma {:induction false} SettledSafe(q: Queue, start: nat)
    requires ScreenSafe(q, start)
    ensures ScreenSafe(Settled(q), start)
    decreases |q.pending|
  {
    var i := FirstAllowed(q.pending, q.holder);
    if i < |q.pending| {
      UnbrokenNext(q.rendered[start..], q.pending[i]);
      assert RenderAt(q, i).rendered[start..] == q.rendered[start..] + [q.pending[i]];
      SettledSafe(RenderAt(q, i), start);
    }
  }

  /**
   * Between a segment's message and its stop stand only messages of its stream: the same said
   * of the rendered messages alone.
   */
  lemma {:induction false} NothingForeignInside(ms: seq<Msg>, i: nat, k: nat)
    requires Unbroken(ms) && i < k < |ms| && ms[i].owner.Some? && !ms[i].stop
    requires forall j :: i < j < k && ms[j].owner == ms[i].owner ==> !ms[j].stop
    ensures ms[k].owner == ms[i].owner && OpenAfter(ms[..k]) == ms[i].owner
  {
    if i + 1 < k {
      NothingForeignInside(ms, i, k - 1);
    }
    assert ms[..k][..k - 1] == ms[..k - 1];
    assert Allowed(OpenAfter(ms[..k]), ms[k]);
  }

  /** Every stream's messages, and those that stand alone, are rendered and queued in the order they came. */
  ghost predicate InOrder(q: Queue, handled: seq<Msg>) {
    forall owner :: Of(q.rendered, owner) + Of(q.pending, owner) == Of(handled, owner)
  }

  // ---- The renderer ----

  class Screen {
    var pending: seq<Msg>
    var holder: Option<string>
    var promptActive: bool
    var inputHold: bool
    ghost var rendered: seq<Msg>
    ghost var handled: seq<Msg>
    /** How much was on the screen when the last task ended. */
    ghost var start: nat

    ghost function Now(): Queue
      reads this
    {
      Queue(rendered, pending, holder)
    }

    ghost predicate Locked()
      reads this
    {
      promptActive || inputHold
    }

    /**
     * Nothing is lost or reordered within a stream; no message is rendered into another stream's
     * segment; an unlocked screen has rendered all it may.
     */
    ghost predicate Valid()
      reads this
    {
      && InOrder(Now(), handled)
      && ScreenSafe(Now(), start)
      && (!Locked() ==> Blocked(Now()))
    }

    constructor ()
      ensures Valid() && handled == [] && rendered == [] && !Locked()
    {
      pending, holder, promptActive, inputHold := [], None, false, false;
      rendered, handled, start := [], [], 0;
    }

    /** The single pass renders what one message at a time would. */
    method Drain()
      modifies this`pending, this`holder, this`rendered
      ensures Now() == if Locked() then old(Now()) else Settled(old(Now()))
    {
      while !promptActive && !inputHold && |pending| > 0
        invariant Locked() ==> Now() == old(Now())
        invariant !Locked() ==> Settled(Now()) == Settled(old(Now()))
        decreases |pending|
      {
        if holder == None {
          var msg := pending[0];
          assert FirstAllowed(pending, holder) == 0;
          assert RenderAt(Now(), 0).pending == pending[1..];
          pending := pending[1..];
          if msg.owner != None {
            holder := if msg.stop then None else msg.owner;
          }
          rendered := rendered + [msg];
          continue;
        }
        var progressed := Pass();
        if !progressed {
          break;
        }
      }
      if !promptActive && !inputHold {
        SettledStays(Now());
      }
    }

    /** One pass over a held queue. */
    method Pass() returns (progressed: bool)
      requires !Locked() && holder.Some?
      modifies this`pending, this`holder, this`rendered
      ensures Settled(Now()) == Settled(old(Now()))
      ensures progressed ==> |pending| < |old(pending)|
      ensures !progressed ==> Now() == old(Now()) && Blocked(Now())
    {
      var queue, keep: seq<Msg>, held := pending, [], holder;
      var stream := holder;
      ghost var shown, was := rendered, rendered;
      ghost var settled := Settled(Now());
      hide Settled, Allowed;
      progressed := false;
      var i := 0;
      assert keep + queue[0..] == pending;
      while i < |queue| && held != None
        invariant 0 <= i <= |queue| && |keep| <= i
        invariant Settled(Queue(shown, keep + queue[i..], held)) == settled
        invariant held.Some? ==> NoneAllowed(held, keep)
        invariant progressed ==> |keep| < i
        invariant !progressed ==> keep == queue[..i] && shown == was && held == stream
      {
        var msg := queue[i];
        if msg.owner == held {
          PassRenders(shown, keep, queue, i, held);
          held := if msg.stop then None else held;
          shown := shown + [msg];
          progressed := true;
        } else {
          PassKeeps(keep, queue, i, held);
          keep := keep + [msg];
        }
        i := i + 1;
      }
      pending := keep + queue[i..];
      rendered, holder := shown, held;
      if !progressed {
        assert pending == queue && keep == queue;
        NoneIsBlocked(Now());
      }
    }

    method Handle(msg: Msg)
      requires Valid()
      modifies this
      ensures Valid() && handled == old(handled) + [msg] && start == old(start)
      ensures promptActive == old(promptActive) && inputHold == old(inputHold)
      ensures old(rendered) <= rendered && (Locked() ==> rendered == old(rendered))
    {
      hide Settled, Of, InOrder, Unbroken, Allowed;
      Arrives(Now(), handled, msg);
      handled := handled + [msg];
      pending := pending + [msg];
      DrainKeeps(Now(), start, handled);
      Drain();
    }

    method BeginUserPrompt()
      requires Valid()
      modifies this`promptActive
      ensures Valid() && promptActive
    {
      promptActive := true;
    }

    method EndUserPrompt()
      requires Valid()
      modifies this
      ensures Valid() && !promptActive && handled == old(handled) && start == old(start) && inputHold == old(inputHold)
      ensures old(rendered) <= rendered && (Locked() ==> rendered == old(rendered))
    {
      promptActive := false;
      DrainKeeps(Now(), start, handled);
      Drain();
    }

    method SetInputHold(active: bool)
      requires Valid()
      modifies this
      ensures Valid() && inputHold == active && handled == old(handled) && start == old(start)
      ensures promptActive == old(promptActive)
      ensures old(rendered) <= rendered && (Locked() || active == old(inputHold) ==> rendered == old(rendered))
    {
      if inputHold == active {
        return;
      }
      inputHold := active;
      if !active {
        DrainKeeps(Now(), start, handled);
        Drain();
      }
    }

    /** The task ends: every lock and the holder are let go, and the queue is drained once more. */
    method EndTask()
      requires Valid()
      modifies this
      ensures Valid() && !Locked() && handled == old(handled) && start == old(|rendered|)
      ensures old(rendered) <= rendered && (|pending| > 0 ==> holder.Some? && |rendered| > start)
    {
      LetGo(Now(), handled);
      hide Settled, InOrder, Unbroken, Allowed, OpenAfter;
      promptActive := false;
      inputHold := false;
      holder := None;
      start := |rendered|;
      FreshStart(Now());
      DrainKeeps(Now(), start, handled);
      hide ScreenSafe, Blocked;
      Drain();
      LeftBehind(Now(), start);
    }
  }

  predicate NoneAllowed(holder: Option<string>, ms: seq<Msg>) {
    forall k :: 0 <= k < |ms| ==> !Allowed(holder, ms[k])
  }

  lemma NoneIsBlocked(q: Queue)
    requires NoneAllowed(q.holder, q.pending)
    ensures Blocked(q)
  {
  }

  /** The holder's next message, after a scan of messages that are not its own. */
  lemma PassRenders(rendered: seq<Msg>, keep: seq<Msg>, queue: seq<Msg>, i: nat, holder: Option<string>)
    requires i < |queue| && holder.Some? && queue[i].owner == holder && NoneAllowed(holder, keep)
    ensures Settled(Queue(rendered, keep + queue[i..], holder)) ==
            Settled(Queue(rendered + [queue[i]], keep + queue[i + 1..], if queue[i].stop then None else holder))
  {
    var q := Queue(rendered, keep + queue[i..], holder);
    RenderNext(q, |keep|);
    hide Settled;
    assert q.pending[..|keep|] == keep && q.pending[|keep| + 1..] == queue[i + 1..];
  }

  lemma PassKeeps(keep: seq<Msg>, queue: seq<Msg>, i: nat, holder: Option<string>)
    requires i < |queue| && holder.Some? && queue[i].owner != holder && NoneAllowed(holder, keep)
    ensures keep + queue[i..] == (keep + [queue[i]]) + queue[i + 1..] && NoneAllowed(holder, keep + [queue[i]])
  {
  }

  lemma FreshStart(q: Queue)
    requires q.holder.None?
    ensures ScreenSafe(q, |q.rendered|)
  {
    assert q.rendered[|q.rendered|..] == [];
  }

  /** What a drain from a free screen leaves behind waits for a segment that the drain itself opened. */
  lemma LeftBehind(q: Queue, start: nat)
    requires ScreenSafe(q, start) && Blocked(q)
    ensures |q.pending| > 0 ==> q.holder.Some? && |q.rendered| > start
  {
    if |q.pending| > 0 {
      assert !Allowed(q.holder, q.pending[0]);
    }
  }

  lemma SettledStays(q: Queue)
    ensures Blocked(q) ==> Settled(q) == q
  {
    if Blocked(q) {
      FirstIs(q.pending, q.holder, |q.pending|);
    }
  }

  lemma RenderNext(q: Queue, i: nat)
    requires i < |q.pending| && Allowed(q.holder, q.pending[i])
    requires forall k :: 0 <= k < i ==> !Allowed(q.holder, q.pending[k])
    ensures Settled(q) == Settled(RenderAt(q, i))
  {
    FirstIs(q.pending, q.holder, i);
  }

  lemma {:induction false} SettledExtends(q: Queue)
    ensures q.rendered <= Settled(q).rendered
    decreases |q.pending|
  {
    var i := FirstAllowed(q.pending, q.holder);
    if i < |q.pending| {
      SettledExtends(RenderAt(q, i));
    }
  }

  lemma DrainKeeps(q: Queue, start: nat, handled: seq<Msg>)
    requires ScreenSafe(q, start) && InOrder(q, handled)
    ensures var k := Settled(q); ScreenSafe(k, start) && Blocked(k) && InOrder(k, handled) && q.rendered <= k.rendered
  {
    SettledSafe(q, start);
    SettledBlocked(q);
    SettledExtends(q);
    hide Settled, ScreenSafe, Blocked, Of;
    forall owner
      ensures Of(Settled(q).rendered, owner) + Of(Settled(q).pending, owner) == Of(handled, owner)
    {
      SettledKeepsOrder(q, owner);
    }
  }

  lemma Arrives(q: Queue, handled: seq<Msg>, msg: Msg)
    requires InOrder(q, handled)
    ensures InOrder(q.(pending := q.pending + [msg]), handled + [msg])
  {
    forall owner
      ensures Of(q.rendered, owner) + Of(q.pending + [msg], owner) == Of(handled + [msg], owner)
    {
      OfConcat(q.pending, [msg], owner);
      OfConcat(handled, [msg], owner);
      hide Of;
    }
  }

  lemma LetGo(q: Queue, handled: seq<Msg>)
    requires InOrder(q, handled)
    ensures InOrder(q.(holder := None), handled)
  {
  }
}
