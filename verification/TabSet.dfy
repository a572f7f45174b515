/**
 * The driven-tab set (packages/browser-extension/src/tab-set.ts): which browser tabs each paired
 * server may drive, as a reducer from an action to the next state and the effects to carry out.
 * What the effects tell a server must keep its picture of its tabs equal to the state.
 */
module TabSet {
  import opened Wrappers

  datatype Reason = ByUser | Detached | Restricted

  datatype Origin = Opened | HandedOver | Popup

  datatype DrivenTab = DrivenTab(
    tabId: int,
    server: string,
    windowId: int,
    how: Origin,
    openerTabId: Option<int>,
    groupId: Option<int>,
    released: Option<Reason>)

  /** The tabs by their id, and the tab groups by server and window. */
  datatype TabSetState = TabSetState(tabs: map<int, DrivenTab>, groups: map<string, int>)

  datatype Action =
    | Created(tabId: int, windowId: int, server: string)
    | Adopted(tabId: int, windowId: int, server: string)
    | PoppedUp(tabId: int, windowId: int, openerTabId: int)
    | Grouped(tabId: int, groupId: int)
    | GroupChanged(tabId: int, groupId: int, windowId: int)
    | GroupRemoved(groupId: int)
    | Release(tabIds: seq<int>, reason: Reason)
    | ReleaseAll(reason: Reason)
    | Returned(tabId: int)
    | Removed(tabId: int)
    | ServerForgotten(server: string)

  datatype Effect =
    | Announce(server: string, tabId: int)
    | Closed(server: string, tabId: int)
    | Released(server: string, tabId: int, reason: Reason)
    | Group(server: string, tabId: int, windowId: int)
    | Ungroup(tabIds: seq<int>)
    | Detach(tabId: int)

  datatype TabSetResult = TabSetResult(state: TabSetState, effects: seq<Effect>)

  const EMPTY := TabSetState(map[], map[])

  // ---- Group keys ----

  function Decimal(n: nat): string {
    if n < 10 then [(n + '0' as int) as char] else Decimal(n / 10) + Decimal(n % 10)
  }

  function GroupKey(server: string, windowId: int): string {
    (if windowId < 0 then "-" + Decimal(-windowId) else Decimal(windowId)) + " " + server
  }

  /** `key.slice(key.indexOf(" ") + 1)`: all of a key without a space. */
  function ServerOfGroupKey(key: string): string {
    if ' ' !in key then key else AfterSpace(key)
  }

  function AfterSpace(key: string): string
    requires ' ' in key
  {
    if key[0] == ' ' then key[1..] else AfterSpace(key[1..])
  }

  lemma {:induction false} DecimalHasNoSpace(n: nat)
    ensures ' ' !in Decimal(n)
  {
    if n >= 10 {
      DecimalHasNoSpace(n / 10);
      DecimalHasNoSpace(n % 10);
    }
  }

  lemma {:induction false} AfterFirstSpace(front: string, rest: string)
    requires ' ' !in front
    ensures AfterSpace(front + " " + rest) == rest
  {
    var key := front + " " + rest;
    if front == "" {
      assert key[1..] == rest;
    } else {
      assert key[1..] == front[1..] + " " + rest;
      AfterFirstSpace(front[1..], rest);
    }
  }

  /** A group key gives back its server, whatever the server's name. */
  lemma GroupKeyNamesServer(server: string, windowId: int)
    ensures ' ' in GroupKey(server, windowId) && ServerOfGroupKey(GroupKey(server, windowId)) == server
  {
    var front := if windowId < 0 then "-" + Decimal(-windowId) else Decimal(windowId);
    DecimalHasNoSpace(if windowId < 0 then -windowId else windowId);
    AfterFirstSpace(front, server);
    assert GroupKey(server, windowId)[|front|] == ' ';
  }

  // ---- The reducer ----

  function WithTab(state: TabSetState, tab: DrivenTab): TabSetState {
    state.(tabs := state.tabs[tab.tabId := tab])
  }

  function WithoutTab(state: TabSetState, tabId: int): TabSetState {
    state.(tabs := state.tabs - {tabId})
  }

  function Join(state: TabSetState, tab: DrivenTab): TabSetResult {
    TabSetResult(WithTab(state, tab),
                 [Group(tab.server, tab.tabId, tab.windowId), Announce(tab.server, tab.tabId)])
  }

  predicate Drivable(state: TabSetState, tabId: int) {
    tabId in state.tabs && state.tabs[tabId].released.None?
  }

  /** One turn of the loop in `release`. */
  function ReleaseOne(r: TabSetResult, tabId: int, reason: Reason): TabSetResult {
    if !Drivable(r.state, tabId) then r
    else
      var tab := r.state.tabs[tabId];
      TabSetResult(WithTab(r.state, tab.(released := Some(reason))),
                   r.effects + [Released(tab.server, tabId, reason), Detach(tabId)])
  }

  function ReleasedTabs(state: TabSetState, tabIds: seq<int>, reason: Reason): TabSetResult {
    if tabIds == [] then TabSetResult(state, [])
    else ReleaseOne(ReleasedTabs(state, tabIds[..|tabIds| - 1], reason), tabIds[|tabIds| - 1], reason)
  }

  method ReleaseTabs(state: TabSetState, tabIds: seq<int>, reason: Reason) returns (r: TabSetResult)
    ensures r == ReleasedTabs(state, tabIds, reason)
  {
    var next, effects: seq<Effect> := state, [];
    for i := 0 to |tabIds|
      invariant TabSetResult(next, effects) == ReleasedTabs(state, tabIds[..i], reason)
    {
      assert tabIds[..i + 1][..i] == tabIds[..i];
      var tabId := tabIds[i];
      if tabId !in next.tabs || next.tabs[tabId].released.Some? {
        continue;
      }
      var tab := next.tabs[tabId];
      next := WithTab(next, tab.(released := Some(reason)));
      effects := effects + [Released(tab.server, tabId, reason), Detach(tabId)];
    }
    assert tabIds[..|tabIds|] == tabIds;
    r := TabSetResult(next, effects);
  }

  /** `Object.values` and `Object.keys` list the tabs in some order, each once. */
  ghost predicate Lists(order: seq<int>, state: TabSetState) {
    && (forall k :: 0 <= k < |order| ==> order[k] in state.tabs)
    && state.tabs.Keys <= (set id | id in order)
    && forall i, k :: 0 <= i < k < |order| ==> order[i] != order[k]
  }

  /** The tabs of a server, as listed. */
  function TabsOf(state: TabSetState, server: string, order: seq<int>): (ids: seq<int>)
    requires forall k :: 0 <= k < |order| ==> order[k] in state.tabs
    ensures forall id :: id in ids <==> id in order && state.tabs[id].server == server
  {
    if order == [] then []
    else
      assert order == [order[0]] + order[1..];
      var rest := TabsOf(state, server, order[1..]);
      if state.tabs[order[0]].server == server then [order[0]] + rest else rest
  }

  function GroupedOf(state: TabSetState, ids: seq<int>): (grouped: seq<int>)
    requires forall k :: 0 <= k < |ids| ==> ids[k] in state.tabs
    ensures forall id :: id in grouped <==> id in ids && state.tabs[id].groupId.Some?
  {
    if ids == [] then []
    else
      assert ids == [ids[0]] + ids[1..];
      var rest := GroupedOf(state, ids[1..]);
      if state.tabs[ids[0]].groupId.Some? then [ids[0]] + rest else rest
  }

  function DetachAll(tabIds: seq<int>): seq<Effect> {
    seq(|tabIds|, i requires 0 <= i < |tabIds| => Detach(tabIds[i]))
  }

  /** `order` is how the tabs are listed where every tab is gone through. */
  function Reduce(state: TabSetState, action: Action, order: seq<int>): TabSetResult
    requires Lists(order, state)
  {
    match action
    case Created(tabId, windowId, server) =>
      Join(state, DrivenTab(tabId, server, windowId, Opened, None, None, None))

    case Adopted(tabId, windowId, server) =>
      var tab := DrivenTab(tabId, server, windowId, HandedOver, None, None, None);
      if Drivable(state, tabId) then
        if state.tabs[tabId].server == server then TabSetResult(state, [])
        else
          var moved := ReleasedTabs(state, [tabId], ByUser);
          var joined := Join(WithoutTab(moved.state, tabId), tab);
          TabSetResult(joined.state, WithoutDetach(moved.effects) + joined.effects)
      else
        Join(state, tab)

    case PoppedUp(tabId, windowId, openerTabId) =>
      if !Drivable(state, openerTabId) || tabId in state.tabs then TabSetResult(state, [])
      else
        var server := state.tabs[openerTabId].server;
        Join(state, DrivenTab(tabId, server, windowId, Popup, Some(openerTabId), None, None))

    case Grouped(tabId, groupId) =>
      if tabId !in state.tabs then TabSetResult(state, [])
      else
        var tab := state.tabs[tabId];
        var next := WithTab(state, tab.(groupId := Some(groupId)));
        TabSetResult(next.(groups := next.groups[GroupKey(tab.server, tab.windowId) := groupId]), [])

    case GroupChanged(tabId, groupId, windowId) =>
      if tabId !in state.tabs then TabSetResult(state, [])
      else
        var tab := state.tabs[tabId];
        if tab.groupId == None || tab.groupId == Some(groupId) then
          TabSetResult(WithTab(state, tab.(windowId := windowId)), [])
        else
          var released := ReleasedTabs(state, [tabId], ByUser);
          TabSetResult(WithoutTab(released.state, tabId), released.effects)

    case GroupRemoved(groupId) =>
      TabSetResult(state.(groups := map key | key in state.groups && state.groups[key] != groupId :: state.groups[key]), [])

    case Release(tabIds, reason) => ReleasedTabs(state, tabIds, reason)

    case ReleaseAll(reason) => ReleasedTabs(state, order, reason)

    case Returned(tabId) =>
      if tabId !in state.tabs then TabSetResult(state, [])
      else
        var tab := state.tabs[tabId];
        var released := ReleasedTabs(state, [tabId], ByUser);
        TabSetResult(WithoutTab(released.state, tabId),
                     released.effects + (if tab.groupId.Some? then [Ungroup([tab.tabId])] else []))

    case Removed(tabId) =>
      if tabId !in state.tabs then TabSetResult(state, [])
      else
        var tab := state.tabs[tabId];
        TabSetResult(WithoutTab(state, tabId),
                     if tab.released.None? then [Closed(tab.server, tab.tabId), Detach(tab.tabId)] else [])

    case ServerForgotten(server) =>
      var gone := TabsOf(state, server, order);
      assert forall k :: 0 <= k < |gone| ==> gone[k] in gone;
      var grouped := GroupedOf(state, gone);
      var tabs := map id | id in state.tabs && state.tabs[id].server != server :: state.tabs[id];
      var groups := map key | key in state.groups && ServerOfGroupKey(key) != server :: state.groups[key];
      TabSetResult(TabSetState(tabs, groups),
                   (if |grouped| > 0 then [Ungroup(grouped)] else []) + DetachAll(gone))
  }

  function WithoutDetach(effects: seq<Effect>): seq<Effect> {
    if effects == [] then []
    else if effects[0].Detach? then WithoutDetach(effects[1..])
    else [effects[0]] + WithoutDetach(effects[1..])
  }

  // ---- What the servers hear ----

  /** What an effect does to the servers' pictures: `view` holds a tab for each server told it may drive it. */
  function Hear(view: set<(string, int)>, effect: Effect): set<(string, int)> {
    match effect
    case Announce(server, tabId) => view + {(server, tabId)}
    case Closed(server, tabId) => view - {(server, tabId)}
    case Released(server, tabId, _) => view - {(server, tabId)}
    case _ => view
  }

  function HearAll(view: set<(string, int)>, effects: seq<Effect>): set<(string, int)> {
    if effects == [] then view else Hear(HearAll(view, effects[..|effects| - 1]), effects[|effects| - 1])
  }

  /** After a step: what the effects say, and a forgotten server has no picture left. */
  ghost function Seen(view: set<(string, int)>, action: Action, effects: seq<Effect>): set<(string, int)> {
    var heard := HearAll(view, effects);
    if action.ServerForgotten? then set p | p in heard && p.0 != action.server else heard
  }

  /** The tabs a server may drive now. */
  ghost function DrivenTabs(state: TabSetState, server: string): set<int> {
    set id | id in state.tabs && state.tabs[id].server == server && state.tabs[id].released.None?
  }

  ghost predicate Refined(state: TabSetState, view: set<(string, int)>) {
    forall server, id :: (server, id) in view <==> id in DrivenTabs(state, server)
  }

  /** Every tab sits under its own id. */
  ghost predicate Keyed(state: TabSetState) {
    forall id :: id in state.tabs ==> state.tabs[id].tabId == id
  }

  /** `created` names a tab that another server drives. */
  ghost predicate Steals(state: TabSetState, action: Action) {
    action.Created? && Drivable(state, action.tabId) && state.tabs[action.tabId].server != action.server
  }

  lemma {:induction false} HearAppend(view: set<(string, int)>, es: seq<Effect>, fs: seq<Effect>)
    ensures HearAll(view, es + fs) == HearAll(HearAll(view, es), fs)
  {
    if fs == [] {
      assert es + fs == es;
    } else {
      HearAppend(view, es, fs[..|fs| - 1]);
      assert (es + fs)[..|es + fs| - 1] == es + fs[..|fs| - 1];
    }
  }

  lemma HearTwo(view: set<(string, int)>, e: Effect, f: Effect)
    ensures HearAll(view, [e, f]) == Hear(Hear(view, e), f)
  {
    assert [e][..0] == [] && HearAll(view, [e]) == Hear(view, e);
    assert [e, f][..1] == [e];
  }

  lemma JoinRefines(state: TabSetState, tab: DrivenTab, view: set<(string, int)>)
    requires Refined(state, view)
    requires Drivable(state, tab.tabId) ==> state.tabs[tab.tabId].server == tab.server
    requires tab.released.None?
    ensures Refined(Join(state, tab).state, HearAll(view, Join(state, tab).effects))
  {
    HearTwo(view, Group(tab.server, tab.tabId, tab.windowId), Announce(tab.server, tab.tabId));
    hide HearAll;
  }

  lemma ReleaseOneRefines(r: TabSetResult, tabId: int, reason: Reason, view: set<(string, int)>)
    requires Keyed(r.state) && Refined(r.state, HearAll(view, r.effects))
    ensures Keyed(ReleaseOne(r, tabId, reason).state)
    ensures Refined(ReleaseOne(r, tabId, reason).state, HearAll(view, ReleaseOne(r, tabId, reason).effects))
  {
    if Drivable(r.state, tabId) {
      var tab := r.state.tabs[tabId];
      HearAppend(view, r.effects, [Released(tab.server, tabId, reason), Detach(tabId)]);
      HearTwo(HearAll(view, r.effects), Released(tab.server, tabId, reason), Detach(tabId));
      hide HearAll;
    }
  }

  lemma {:induction false} ReleaseRefines(state: TabSetState, tabIds: seq<int>, reason: Reason, view: set<(string, int)>)
    requires Keyed(state) && Refined(state, view)
    ensures var r := ReleasedTabs(state, tabIds, reason);
            Keyed(r.state) && Refined(r.state, HearAll(view, r.effects))
  {
    if tabIds != [] {
      var front := tabIds[..|tabIds| - 1];
      ReleaseRefines(state, front, reason, view);
      hide Refined, Keyed, HearAll, ReleaseOne;
      ReleaseOneRefines(ReleasedTabs(state, front, reason), tabIds[|tabIds| - 1], reason, view);
    }
  }

  // ---- Every step refines the view ----

  lemma AdoptionRefines(state: TabSetState, action: Action, order: seq<int>, view: set<(string, int)>)
    requires Lists(order, state) && action.Adopted? && Keyed(state) && Refined(state, view)
    ensures var r := Reduce(state, action, order); Refined(r.state, HearAll(view, r.effects))
  {
    var tab := DrivenTab(action.tabId, action.server, action.windowId, HandedOver, None, None, None);
    if Drivable(state, action.tabId) && state.tabs[action.tabId].server != action.server {
      MoveEffects(state, action.tabId);
      var was := state.tabs[action.tabId].server;
      var gone := HearAll(view, [Released(was, action.tabId, ByUser)]);
      HearOne(view, Released(was, action.tabId, ByUser));
      var moved := WithoutTab(ReleasedTabs(state, [action.tabId], ByUser).state, action.tabId);
      assert Refined(moved, gone);
      hide Refined, HearAll;
      JoinRefines(moved, tab, gone);
      HearAppend(view, [Released(was, action.tabId, ByUser)], Join(moved, tab).effects);
    } else if !Drivable(state, action.tabId) {
      JoinRefines(state, tab, view);
    } else {
      HearNone(view);
    }
  }

  lemma HearNone(view: set<(string, int)>)
    ensures HearAll(view, []) == view
  {
  }

  lemma HearOne(view: set<(string, int)>, e: Effect)
    ensures HearAll(view, [e]) == Hear(view, e)
  {
    assert [e][..0] == [];
  }

  lemma ReleaseSingle(state: TabSetState, tabId: int, reason: Reason)
    ensures ReleasedTabs(state, [tabId], reason) == ReleaseOne(TabSetResult(state, []), tabId, reason)
  {
    assert [tabId][..0] == [];
  }

  lemma MoveEffects(state: TabSetState, tabId: int)
    requires Drivable(state, tabId)
    ensures WithoutDetach(ReleasedTabs(state, [tabId], ByUser).effects) == [Released(state.tabs[tabId].server, tabId, ByUser)]
    ensures ReleasedTabs(state, [tabId], ByUser).state == WithTab(state, state.tabs[tabId].(released := Some(ByUser)))
  {
    ReleaseSingle(state, tabId, ByUser);
    var told := Released(state.tabs[tabId].server, tabId, ByUser);
    var es := [told, Detach(tabId)];
    assert ReleasedTabs(state, [tabId], ByUser).effects == es;
    assert es[1..] == [Detach(tabId)] && es[1..][1..] == [];
    assert WithoutDetach(es[1..]) == [];
  }

  /** A tab that leaves the set after its release. */
  lemma LeavingRefines(state: TabSetState, tabId: int, view: set<(string, int)>)
    requires Keyed(state) && Refined(state, view)
    ensures var r := ReleasedTabs(state, [tabId], ByUser); Refined(WithoutTab(r.state, tabId), HearAll(view, r.effects))
  {
    ReleaseSingle(state, tabId, ByUser);
    ReleaseRefines(state, [tabId], ByUser, view);
    hide HearAll, ReleasedTabs;
  }

  lemma {:induction false} Deaf(view: set<(string, int)>, es: seq<Effect>)
    requires forall e :: e in es ==> e.Ungroup? || e.Detach? || e.Group?
    ensures HearAll(view, es) == view
  {
    if es != [] {
      Deaf(view, es[..|es| - 1]);
      assert es[|es| - 1] in es;
    }
  }

  lemma ForgetRefines(state: TabSetState, server: string, order: seq<int>, view: set<(string, int)>)
    requires Lists(order, state) && Refined(state, view)
    ensures var r := Reduce(state, ServerForgotten(server), order);
            Refined(r.state, Seen(view, ServerForgotten(server), r.effects))
  {
    Deaf(view, Reduce(state, ServerForgotten(server), order).effects);
    hide HearAll;
  }

  lemma GroupChangeRefines(state: TabSetState, action: Action, order: seq<int>, view: set<(string, int)>)
    requires Lists(order, state) && action.GroupChanged? && Keyed(state) && Refined(state, view)
    ensures var r := Reduce(state, action, order); Refined(r.state, HearAll(view, r.effects))
  {
    HearNone(view);
    LeavingRefines(state, action.tabId, view);
    hide HearAll, ReleasedTabs;
  }

  lemma ReturnRefines(state: TabSetState, action: Action, order: seq<int>, view: set<(string, int)>)
    requires Lists(order, state) && action.Returned? && Keyed(state) && Refined(state, view)
    ensures var r := Reduce(state, action, order); Refined(r.state, HearAll(view, r.effects))
  {
    HearNone(view);
    LeavingRefines(state, action.tabId, view);
    if action.tabId in state.tabs {
      var released := ReleasedTabs(state, [action.tabId], ByUser);
      var last := if state.tabs[action.tabId].groupId.Some? then [Ungroup([action.tabId])] else [];
      HearAppend(view, released.effects, last);
      Deaf(HearAll(view, released.effects), last);
      hide HearAll, ReleasedTabs, Refined;
      assert Reduce(state, action, order).effects == released.effects + last;
    }
  }

  lemma RemovalRefines(state: TabSetState, action: Action, order: seq<int>, view: set<(string, int)>)
    requires Lists(order, state) && action.Removed? && Keyed(state) && Refined(state, view)
    ensures var r := Reduce(state, action, order); Refined(r.state, HearAll(view, r.effects))
  {
    HearNone(view);
    if action.tabId in state.tabs {
      HearTwo(view, Closed(state.tabs[action.tabId].server, action.tabId), Detach(action.tabId));
    }
    hide HearAll;
  }

  /**
   * One step keeps every server's picture equal to the state, exactly unless `created` names a tab
   * that another server drives: nobody tells that server it has lost the tab.
   */
  lemma StepRefines(state: TabSetState, action: Action, order: seq<int>, view: set<(string, int)>)
    requires Lists(order, state) && Keyed(state) && Refined(state, view)
    ensures Refined(Reduce(state, action, order).state, Seen(view, action, Reduce(state, action, order).effects)) <==> !Steals(state, action)
  {
    match action
    case Created(tabId, windowId, server) =>
      var tab := DrivenTab(tabId, server, windowId, Opened, None, None, None);
      if Steals(state, action) {
        StolenUnheard(state, tab, view);
      } else {
        JoinRefines(state, tab, view);
      }
    case Adopted(_, _, _) => AdoptionRefines(state, action, order, view);
    case PoppedUp(tabId, windowId, openerTabId) =>
      HearNone(view);
      if Drivable(state, openerTabId) && tabId !in state.tabs {
        var server := state.tabs[openerTabId].server;
        JoinRefines(state, DrivenTab(tabId, server, windowId, Popup, Some(openerTabId), None, None), view);
      }
    case Grouped(_, _) => HearNone(view);
    case GroupRemoved(_) => HearNone(view);
    case Release(tabIds, reason) => ReleaseRefines(state, tabIds, reason, view);
    case ReleaseAll(reason) => ReleaseRefines(state, order, reason, view);
    case ServerForgotten(server) => ForgetRefines(state, server, order, view);
    case GroupChanged(_, _, _) => GroupChangeRefines(state, action, order, view);
    case Returned(_) => ReturnRefines(state, action, order, view);
    case Removed(_) => RemovalRefines(state, action, order, view);
  }

  /** Two servers' `created` of one tab: the first goes on believing that it drives the tab. */
  lemma StolenTab()
    ensures var first := Reduce(EMPTY, Created(1, 1, "a"), []);
            var view := Seen({}, Created(1, 1, "a"), first.effects);
            var second := Reduce(first.state, Created(1, 1, "b"), [1]);
            ("a", 1) in Seen(view, Created(1, 1, "b"), second.effects) && DrivenTabs(second.state, "a") == {}
  {
    HearTwo({}, Group("a", 1, 1), Announce("a", 1));
    HearTwo({("a", 1)}, Group("b", 1, 1), Announce("b", 1));
    hide HearAll;
    var first := Reduce(EMPTY, Created(1, 1, "a"), []);
    assert Seen({}, Created(1, 1, "a"), first.effects) == {("a", 1)};
    assert "a" != "b";
  }

  lemma StolenUnheard(state: TabSetState, tab: DrivenTab, view: set<(string, int)>)
    requires Refined(state, view) && Drivable(state, tab.tabId) && state.tabs[tab.tabId].server != tab.server
    ensures !Refined(Join(state, tab).state, HearAll(view, Join(state, tab).effects))
  {
    var was := state.tabs[tab.tabId].server;
    HearTwo(view, Group(tab.server, tab.tabId, tab.windowId), Announce(tab.server, tab.tabId));
    assert tab.tabId in DrivenTabs(state, was);
    assert (was, tab.tabId) in HearAll(view, Join(state, tab).effects);
    hide HearAll;
  }

  // ---- Whole runs ----

  /** A run of the reducer from the empty set, each step with the order the tabs are listed in. */
  datatype Run = Start | Step(before: Run, action: Action, order: seq<int>)

  ghost predicate IsRun(run: Run)
    decreases run, 0
  {
    match run
    case Start => true
    case Step(before, _, order) => IsRun(before) && Lists(order, StateOf(before))
  }

  ghost function StateOf(run: Run): TabSetState
    requires IsRun(run)
    decreases run, 1
  {
    match run
    case Start => EMPTY
    case Step(before, action, order) => Reduce(StateOf(before), action, order).state
  }

  ghost function ViewOf(run: Run): set<(string, int)>
    requires IsRun(run)
  {
    match run
    case Start => {}
    case Step(before, action, order) => Seen(ViewOf(before), action, Reduce(StateOf(before), action, order).effects)
  }

  /** `created` never names a tab that another server drives. */
  ghost predicate Honest(run: Run)
    requires IsRun(run)
  {
    match run
    case Start => true
    case Step(before, action, _) => Honest(before) && !Steals(StateOf(before), action)
  }

  lemma {:induction false} ReleaseKeeps(state: TabSetState, tabIds: seq<int>, reason: Reason)
    requires Keyed(state)
    ensures var next := ReleasedTabs(state, tabIds, reason).state;
            && Keyed(next) && next.tabs.Keys == state.tabs.Keys && next.groups == state.groups
            && forall id :: id in state.tabs ==>
                 next.tabs[id] == if id in tabIds && Drivable(state, id) then state.tabs[id].(released := Some(reason)) else state.tabs[id]
  {
    if tabIds != [] {
      var front, last := tabIds[..|tabIds| - 1], tabIds[|tabIds| - 1];
      ReleaseKeeps(state, front, reason);
      assert tabIds == front + [last];
    }
  }

  lemma StepKeyed(state: TabSetState, action: Action, order: seq<int>)
    requires Lists(order, state) && Keyed(state)
    ensures Keyed(Reduce(state, action, order).state)
  {
    hide ReleasedTabs, TabsOf, GroupedOf, DetachAll, WithoutDetach, GroupKey;
    match action
    case Adopted(tabId, _, _) => ReleaseKeeps(state, [tabId], ByUser);
    case GroupChanged(tabId, _, _) => ReleaseKeeps(state, [tabId], ByUser);
    case Returned(tabId) => ReleaseKeeps(state, [tabId], ByUser);
    case Release(tabIds, reason) => ReleaseKeeps(state, tabIds, reason);
    case ReleaseAll(reason) => ReleaseKeeps(state, order, reason);
    case _ =>
  }

  lemma {:induction false} RunKeyed(run: Run)
    requires IsRun(run)
    ensures Keyed(StateOf(run))
  {
    if run.Step? {
      RunKeyed(run.before);
      hide Reduce, Keyed, Lists;
      StepKeyed(StateOf(run.before), run.action, run.order);
    }
  }

  /** After any honest run, what each server was told is exactly the tabs it may drive. */
  lemma {:induction false} ViewIsState(run: Run)
    requires IsRun(run) && Honest(run)
    ensures Refined(StateOf(run), ViewOf(run))
  {
    if run.Step? {
      ViewIsState(run.before);
      RunKeyed(run.before);
      hide Reduce, Keyed, Lists, Refined, Seen;
      StepRefines(StateOf(run.before), run.action, run.order, ViewOf(run.before));
    }
  }

  // ---- In which order ----

  function Without(ids: seq<int>, id: int): (r: seq<int>)
    ensures forall other :: other in r <==> other in ids && other != id
    ensures Once(ids) ==> Once(r)
  {
    if ids == [] then []
    else
      assert ids == ids[..|ids| - 1] + [ids[|ids| - 1]];
      var front, last := Without(ids[..|ids| - 1], id), ids[|ids| - 1];
      assert forall k :: 0 <= k < |front| ==> front[k] in front;
      if last == id then front else front + [last]
  }

  predicate Once(ids: seq<int>) {
    forall i, k :: 0 <= i < k < |ids| ==> ids[i] != ids[k]
  }

  predicate Ascending(ids: seq<int>) {
    forall i, k :: 0 <= i < k < |ids| ==> ids[i] < ids[k]
  }

  /** A server's tabs in the order they joined: an announced one comes last, a lost one is left out. */
  function JoinedOne(ids: seq<int>, effect: Effect, server: string): seq<int> {
    match effect
    case Announce(to, id) => if to == server then Without(ids, id) + [id] else ids
    case Closed(to, id) => if to == server then Without(ids, id) else ids
    case Released(to, id, _) => if to == server then Without(ids, id) else ids
    case _ => ids
  }

  function JoinedAll(ids: seq<int>, effects: seq<Effect>, server: string): seq<int> {
    if effects == [] then ids
    else JoinedOne(JoinedAll(ids, effects[..|effects| - 1], server), effects[|effects| - 1], server)
  }

  ghost function Joined(run: Run, server: string): seq<int>
    requires IsRun(run)
  {
    match run
    case Start => []
    case Step(before, action, order) =>
      if action == ServerForgotten(server) then []
      else JoinedAll(Joined(before, server), Reduce(StateOf(before), action, order).effects, server)
  }

  /** `drivenTabs`, as the tabs are listed. */
  function Driven(state: TabSetState, server: string, order: seq<int>): (ids: seq<int>)
    requires forall k :: 0 <= k < |order| ==> order[k] in state.tabs
    ensures forall id :: id in ids <==>
              id in order && state.tabs[id].server == server && state.tabs[id].released.None?
    ensures Ascending(order) ==> Ascending(ids)
  {
    if order == [] then []
    else
      assert order == order[..|order| - 1] + [order[|order| - 1]];
      var front, last := Driven(state, server, order[..|order| - 1]), order[|order| - 1];
      assert forall k :: 0 <= k < |front| ==> front[k] in front;
      if state.tabs[last].server == server && state.tabs[last].released.None? then front + [last] else front
  }

  /** The list of a server's tabs against its picture. */
  ghost predicate Pictures(ids: seq<int>, view: set<(string, int)>, server: string) {
    Once(ids) && forall id :: id in ids <==> (server, id) in view
  }

  lemma {:induction false} JoinedPictures(ids: seq<int>, view: set<(string, int)>, effects: seq<Effect>, server: string)
    requires Pictures(ids, view, server)
    ensures Pictures(JoinedAll(ids, effects, server), HearAll(view, effects), server)
  {
    if effects != [] {
      var front, last := effects[..|effects| - 1], effects[|effects| - 1];
      JoinedPictures(ids, view, front, server);
      hide JoinedAll, HearAll;
      OnePictures(JoinedAll(ids, front, server), HearAll(view, front), last, server);
    }
  }

  lemma OnePictures(ids: seq<int>, view: set<(string, int)>, effect: Effect, server: string)
    requires Pictures(ids, view, server)
    ensures Pictures(JoinedOne(ids, effect, server), Hear(view, effect), server)
  {
    hide Without;
    if effect.Announce? {
      var rest := Without(ids, effect.tabId);
      assert forall k :: 0 <= k < |rest| ==> rest[k] in rest;
    }
  }

  lemma {:induction false} RunPictures(run: Run, server: string)
    requires IsRun(run)
    ensures Pictures(Joined(run, server), ViewOf(run), server)
  {
    if run.Step? {
      RunPictures(run.before, server);
      hide Reduce, Lists, JoinedAll, HearAll;
      JoinedPictures(Joined(run.before, server), ViewOf(run.before),
                     Reduce(StateOf(run.before), run.action, run.order).effects, server);
    }
  }

  ghost predicate Among(xs: seq<int>, ys: seq<int>) {
    forall k :: 0 <= k < |xs| ==> Holds(ys, xs[k])
  }

  ghost predicate Holds(ids: seq<int>, id: int) {
    exists m :: 0 <= m < |ids| && ids[m] == id
  }

  lemma {:induction false} AscendingUnique(xs: seq<int>, ys: seq<int>)
    requires Ascending(xs) && Ascending(ys) && Among(xs, ys) && Among(ys, xs)
    ensures xs == ys
  {
    if xs != [] {
      SomeAmong(xs, ys);
    } else if ys != [] {
      SomeAmong(ys, xs);
    }
    if xs != [] {
      hide Ascending, Among;
      LeastFirst(xs, ys);
      LeastFirst(ys, xs);
      RestOf(xs, ys);
      RestOf(ys, xs);
      AscendingRest(xs);
      AscendingRest(ys);
      AscendingUnique(xs[1..], ys[1..]);
      assert xs == [xs[0]] + xs[1..] && ys == [ys[0]] + ys[1..];
    }
  }

  lemma SomeAmong(xs: seq<int>, ys: seq<int>)
    requires Among(xs, ys) && xs != []
    ensures ys != []
  {
    assert Holds(ys, xs[0]);
  }

  lemma AscendingRest(ids: seq<int>)
    requires Ascending(ids) && ids != []
    ensures Ascending(ids[1..])
  {
  }

  lemma LeastFirst(xs: seq<int>, ys: seq<int>)
    requires Ascending(ys) && xs != [] && ys != [] && Among(xs, ys)
    ensures ys[0] <= xs[0]
  {
    assert Holds(ys, xs[0]);
    var m :| 0 <= m < |ys| && ys[m] == xs[0];
  }

  lemma RestOf(xs: seq<int>, ys: seq<int>)
    requires Ascending(xs) && xs != [] && ys != [] && xs[0] == ys[0] && Among(xs, ys)
    ensures Among(xs[1..], ys[1..])
  {
    forall k | 0 <= k < |xs[1..]|
      ensures Holds(ys[1..], xs[1..][k])
    {
      assert Holds(ys, xs[k + 1]) && xs[0] < xs[k + 1];
      var m :| 0 <= m < |ys| && ys[m] == xs[k + 1];
      assert ys[1..][m - 1] == xs[1..][k];
    }
  }

  lemma InAmong(xs: seq<int>, ys: seq<int>)
    requires forall k :: 0 <= k < |xs| ==> xs[k] in ys
    ensures Among(xs, ys)
  {
    forall k | 0 <= k < |xs|
      ensures Holds(ys, xs[k])
    {
      HoldsIn(ys, xs[k]);
    }
  }

  lemma {:induction false} HoldsIn(ids: seq<int>, id: int)
    requires id in ids
    ensures Holds(ids, id)
  {
    if ids[0] != id {
      assert ids == [ids[0]] + ids[1..];
      HoldsIn(ids[1..], id);
      var m :| 0 <= m < |ids[1..]| && ids[1..][m] == id;
      assert ids[m + 1] == id;
    }
  }

  /**
   * `drivenTabs` promises the order in which the tabs joined. JavaScript lists integer keys in
   * ascending order, so this is what it gives exactly when they joined in ascending order.
   */
  lemma ListedAsJoined(run: Run, server: string, order: seq<int>)
    requires IsRun(run) && Honest(run) && Lists(order, StateOf(run)) && Ascending(order)
    ensures Driven(StateOf(run), server, order) == Joined(run, server) <==> Ascending(Joined(run, server))
  {
    var listed, joined := Driven(StateOf(run), server, order), Joined(run, server);
    hide StateOf, ViewOf, Joined, Driven, IsRun, Honest;
    forall k | 0 <= k < |listed|
      ensures listed[k] in joined
    {
      DrivenIsJoined(run, server, order, listed[k]);
    }
    forall k | 0 <= k < |joined|
      ensures joined[k] in listed
    {
      DrivenIsJoined(run, server, order, joined[k]);
    }
    InAmong(listed, joined);
    InAmong(joined, listed);
    if Ascending(joined) {
      AscendingUnique(listed, joined);
    }
  }

  lemma DrivenIsJoined(run: Run, server: string, order: seq<int>, id: int)
    requires IsRun(run) && Honest(run) && Lists(order, StateOf(run))
    ensures id in Driven(StateOf(run), server, order) <==> id in Joined(run, server)
  {
    RunPictures(run, server);
    ViewIsState(run);
    hide StateOf, ViewOf, Joined, Driven, IsRun, Honest;
    assert id in DrivenTabs(StateOf(run), server) <==> (server, id) in ViewOf(run);
  }

  /** Two tabs that joined in descending order are listed the other way round. */
  lemma ListedOtherwise() returns (run: Run)
    ensures IsRun(run) && Honest(run) && Lists([1, 2], StateOf(run))
    ensures Joined(run, "a") == [2, 1] && Driven(StateOf(run), "a", [1, 2]) == [1, 2]
  {
    var t1, t2 := DrivenTab(1, "a", 1, Opened, None, None, None), DrivenTab(2, "a", 1, Opened, None, None, None);
    var one := FirstTab();
    OtherTab(one);
    run := Step(one, Created(1, 1, "a"), [2]);
    assert Honest(run);
    hide *;
    DrivenPair(StateOf(run), t1, t2);
  }

  lemma FirstTab() returns (one: Run)
    ensures IsRun(one) && Honest(one) && Joined(one, "a") == [2]
    ensures StateOf(one) == TabSetState(map[2 := DrivenTab(2, "a", 1, Opened, None, None, None)], map[])
  {
    one := Step(Start, Created(2, 1, "a"), []);
    assert Lists([], EMPTY);
    JoinedOneTab([], 2, "a");
    assert Joined(Start, "a") == [];
  }

  lemma OtherTab(one: Run)
    requires IsRun(one) && StateOf(one) == TabSetState(map[2 := DrivenTab(2, "a", 1, Opened, None, None, None)], map[])
    requires Joined(one, "a") == [2]
    ensures var run := Step(one, Created(1, 1, "a"), [2]);
            && IsRun(run) && Joined(run, "a") == [2, 1] && !Steals(StateOf(one), Created(1, 1, "a"))
            && StateOf(run).tabs == StateOf(one).tabs[1 := DrivenTab(1, "a", 1, Opened, None, None, None)]
  {
    assert Lists([2], StateOf(one));
    JoinedOneTab([2], 1, "a");
  }

  lemma DrivenPair(state: TabSetState, t1: DrivenTab, t2: DrivenTab)
    requires state.tabs == map[2 := t2, 1 := t1] && t1.server == t2.server == "a" && t1.released.None? && t2.released.None?
    ensures Lists([1, 2], state) && Driven(state, "a", [1, 2]) == [1, 2]
  {
    PairListed(state);
    assert Driven(state, "a", []) == [];
    hide Lists, Driven;
    DrivenNext(state, "a", [], 1);
    assert [] + [1] == [1];
    DrivenNext(state, "a", [1], 2);
    assert [1] + [2] == [1, 2];
  }

  lemma DrivenNext(state: TabSetState, server: string, order: seq<int>, id: int)
    requires (forall k :: 0 <= k < |order| ==> order[k] in state.tabs) && id in state.tabs
    requires state.tabs[id].server == server && state.tabs[id].released.None?
    ensures Driven(state, server, order + [id]) == Driven(state, server, order) + [id]
  {
    assert (order + [id])[..|order|] == order;
    hide Ascending;
  }

  lemma PairListed(state: TabSetState)
    requires state.tabs.Keys == {2, 1}
    ensures Lists([1, 2], state)
  {
    assert 1 in [1, 2] && 2 in [1, 2];
  }

  lemma JoinedOneTab(ids: seq<int>, id: int, server: string)
    requires id !in ids && |ids| < 2
    ensures JoinedAll(ids, [Group(server, id, 1), Announce(server, id)], server) == ids + [id]
  {
    var effects := [Group(server, id, 1), Announce(server, id)];
    assert effects[..1] == [Group(server, id, 1)] && effects[..1][..0] == [];
    assert JoinedAll(ids, effects[..1], server) == ids;
    if |ids| == 1 {
      assert ids[..0] == [];
    }
    assert Without(ids, id) == ids;
  }

  // ---- Detaching ----

  lemma {:induction false} ReleaseDetaches(state: TabSetState, tabIds: seq<int>, reason: Reason)
    ensures forall id :: Detach(id) in ReleasedTabs(state, tabIds, reason).effects <==> id in tabIds && Drivable(state, id)
    ensures forall id :: Drivable(ReleasedTabs(state, tabIds, reason).state, id) <==> Drivable(state, id) && id !in tabIds
    requires Keyed(state)
  {
    if tabIds != [] {
      var front, last := tabIds[..|tabIds| - 1], tabIds[|tabIds| - 1];
      ReleaseDetaches(state, front, reason);
      ReleaseKeeps(state, front, reason);
      assert tabIds == front + [last];
    }
  }

  lemma MovedWithoutDetach(state: TabSetState, tabId: int, id: int)
    requires Drivable(state, tabId)
    ensures Detach(id) !in WithoutDetach(ReleasedTabs(state, [tabId], ByUser).effects)
  {
    MoveEffects(state, tabId);
  }

  lemma AllDetached(tabIds: seq<int>, id: int)
    ensures Detach(id) in DetachAll(tabIds) <==> id in tabIds
  {
    if id in tabIds {
      var i :| 0 <= i < |tabIds| && tabIds[i] == id;
      assert DetachAll(tabIds)[i] == Detach(id);
    }
  }

  /** A step stops debugging a tab exactly when it takes the tab from every server or forgets its server. */
  lemma DetachesTheLost(state: TabSetState, action: Action, order: seq<int>, id: int)
    requires Lists(order, state) && Keyed(state)
    ensures var r := Reduce(state, action, order);
            Detach(id) in r.effects <==>
              || (Drivable(state, id) && !Drivable(r.state, id))
              || (action.ServerForgotten? && id in state.tabs && state.tabs[id].server == action.server)
  {
    hide ReleasedTabs, TabsOf, GroupedOf, DetachAll, WithoutDetach, GroupKey;
    match action
    case Adopted(tabId, _, _) =>
      ReleaseDetaches(state, [tabId], ByUser);
      ReleaseKeeps(state, [tabId], ByUser);
      if Drivable(state, tabId) {
        MovedWithoutDetach(state, tabId, id);
      }
    case GroupChanged(tabId, _, _) =>
      ReleaseDetaches(state, [tabId], ByUser);
      ReleaseKeeps(state, [tabId], ByUser);
    case Returned(tabId) =>
      ReleaseDetaches(state, [tabId], ByUser);
      ReleaseKeeps(state, [tabId], ByUser);
    case Release(tabIds, reason) => ReleaseDetaches(state, tabIds, reason);
    case ReleaseAll(reason) => ReleaseDetaches(state, order, reason);
    case ServerForgotten(server) => AllDetached(TabsOf(state, server, order), id);
    case _ =>
  }

  /**
   * A tab becomes drivable only when the server opened it or the user handed it over, or as a page
   * that a drivable tab opened and that was not in the set: a released tab never by itself.
   */
  lemma BecomesDrivable(state: TabSetState, action: Action, order: seq<int>, id: int)
    requires Lists(order, state) && Keyed(state)
    requires !Drivable(state, id) && Drivable(Reduce(state, action, order).state, id)
    ensures (action.Created? || action.Adopted? || action.PoppedUp?) && action.tabId == id
    ensures id in state.tabs ==> !action.PoppedUp?
    ensures var server := Reduce(state, action, order).state.tabs[id].server;
            if action.PoppedUp? then Drivable(state, action.openerTabId) && server == state.tabs[action.openerTabId].server
            else server == action.server
    ensures var r := Reduce(state, action, order); var tab := r.state.tabs[id];
            r.effects == [Group(tab.server, id, tab.windowId), Announce(tab.server, id)]
  {
    hide ReleasedTabs, TabsOf, GroupedOf, DetachAll, WithoutDetach, GroupKey;
    match action
    case Adopted(tabId, _, _) => ReleaseKeeps(state, [tabId], ByUser);
    case GroupChanged(tabId, _, _) => ReleaseKeeps(state, [tabId], ByUser);
    case Returned(tabId) => ReleaseKeeps(state, [tabId], ByUser);
    case Release(tabIds, reason) => ReleaseDetaches(state, tabIds, reason);
    case ReleaseAll(reason) => ReleaseDetaches(state, order, reason);
    case _ =>
  }

  // ---- What each action does ----

  /**
   * The tabs a server may drive after an action: what is released, returned, closed or dragged out of
   * its group is taken from every server, and a tab that is opened, handed over or opened by a tab
   * the server drives is added to its own.
   */
  lemma DrivesAfter(state: TabSetState, action: Action, order: seq<int>, server: string)
    requires Lists(order, state) && Keyed(state)
    ensures var was, now := DrivenTabs(state, server), DrivenTabs(Reduce(state, action, order).state, server);
            match action
            case Created(tabId, _, owner) => now == if server == owner then was + {tabId} else was - {tabId}
            case Adopted(tabId, _, owner) => now == if server == owner then was + {tabId} else was - {tabId}
            case PoppedUp(tabId, _, openerTabId) => now == if openerTabId in was && tabId !in state.tabs then was + {tabId} else was
            case Release(tabIds, _) => now == was - (set id | id in tabIds)
            case ReleaseAll(_) => now == {}
            case Returned(tabId) => now == was - {tabId}
            case Removed(tabId) => now == was - {tabId}
            case GroupChanged(tabId, groupId, _) => now == if DraggedOut(state, tabId, groupId) then was - {tabId} else was
            case ServerForgotten(gone) => now == if server == gone then {} else was
            case _ => now == was
  {
    RecordsAfter(state, action, order);
    hide Reduce, Keyed;
    var next := Reduce(state, action, order).state;
    var was, now := DrivenTabs(state, server), DrivenTabs(next, server);
    match action
    case Release(tabIds, reason) => TakesReleased(state, next, server, (set id | id in tabIds), reason);
    case ReleaseAll(reason) => TakesReleased(state, next, server, state.tabs.Keys, reason);
    case ServerForgotten(gone) => OtherServers(state, next, server, gone);
    case GroupRemoved(_) =>
    case _ => OthersSame(state, next, server, action.tabId);
  }

  /** What is drivable of the tabs named is released; every other record stays. */
  lemma TakesReleased(state: TabSetState, next: TabSetState, server: string, named: set<int>, reason: Reason)
    requires next.tabs.Keys == state.tabs.Keys
    requires forall id :: id in state.tabs ==>
               next.tabs[id] == if id in named && Drivable(state, id) then state.tabs[id].(released := Some(reason)) else state.tabs[id]
    ensures DrivenTabs(next, server) == DrivenTabs(state, server) - named
  {
    forall id
      ensures id in DrivenTabs(next, server) <==> id in DrivenTabs(state, server) && id !in named
    {
      assert id in next.tabs <==> id in next.tabs.Keys;
      assert id in state.tabs <==> id in state.tabs.Keys;
    }
  }

  lemma OtherServers(state: TabSetState, next: TabSetState, server: string, gone: string)
    requires forall id :: if id in state.tabs && state.tabs[id].server == gone then id !in next.tabs else SameRecord(state, next, id)
    ensures DrivenTabs(next, server) == if server == gone then {} else DrivenTabs(state, server)
  {
    forall id
      ensures id in DrivenTabs(next, server) <==> server != gone && id in DrivenTabs(state, server)
    {
      assert (id in state.tabs && state.tabs[id].server == gone) || SameRecord(state, next, id);
    }
  }

  lemma OthersSame(state: TabSetState, next: TabSetState, server: string, tabId: int)
    requires forall id :: id != tabId ==> SameRecord(state, next, id)
    ensures var was, now := DrivenTabs(state, server), DrivenTabs(next, server);
            now == if tabId in now then was + {tabId} else was - {tabId}
  {
    var was, now := DrivenTabs(state, server), DrivenTabs(next, server);
    forall id | id != tabId
      ensures id in was <==> id in now
    {
      assert SameRecord(state, next, id);
    }
  }

  /** The tab is in one group and was reported in another: the user took it back. */
  predicate DraggedOut(state: TabSetState, tabId: int, groupId: int) {
    tabId in state.tabs && state.tabs[tabId].groupId.Some? && state.tabs[tabId].groupId != Some(groupId)
  }

  /** Two states hold the same record of a tab, or none. */
  predicate SameRecord(before: TabSetState, after: TabSetState, id: int) {
    (id in before.tabs <==> id in after.tabs) && (id in before.tabs ==> after.tabs[id] == before.tabs[id])
  }

  /**
   * The record of every tab after an action. A released tab stays in the set, with the reason;
   * what an action does not name keeps its record.
   */
  lemma RecordsAfter(state: TabSetState, action: Action, order: seq<int>)
    requires Lists(order, state) && Keyed(state)
    ensures var after := Reduce(state, action, order).state;
            match action
            case Created(tabId, windowId, server) =>
              && tabId in after.tabs && after.tabs[tabId] == DrivenTab(tabId, server, windowId, Opened, None, None, None)
              && forall id :: id != tabId ==> SameRecord(state, after, id)
            case Adopted(tabId, windowId, server) =>
              && tabId in after.tabs
              && after.tabs[tabId] == (if tabId in DrivenTabs(state, server) then state.tabs[tabId]
                                       else DrivenTab(tabId, server, windowId, HandedOver, None, None, None))
              && forall id :: id != tabId ==> SameRecord(state, after, id)
            case PoppedUp(tabId, windowId, openerTabId) =>
              if Drivable(state, openerTabId) && tabId !in state.tabs then
                && tabId in after.tabs
                && after.tabs[tabId] == DrivenTab(tabId, state.tabs[openerTabId].server, windowId, Popup, Some(openerTabId), None, None)
                && forall id :: id != tabId ==> SameRecord(state, after, id)
              else after == state
            case Release(tabIds, reason) =>
              && after.tabs.Keys == state.tabs.Keys
              && forall id :: id in state.tabs ==>
                   after.tabs[id] == if id in tabIds && Drivable(state, id) then state.tabs[id].(released := Some(reason)) else state.tabs[id]
            case ReleaseAll(reason) =>
              && after.tabs.Keys == state.tabs.Keys
              && forall id :: id in state.tabs ==>
                   after.tabs[id] == if Drivable(state, id) then state.tabs[id].(released := Some(reason)) else state.tabs[id]
            case Returned(tabId) => tabId !in after.tabs && forall id :: id != tabId ==> SameRecord(state, after, id)
            case Removed(tabId) => tabId !in after.tabs && forall id :: id != tabId ==> SameRecord(state, after, id)
            case Grouped(tabId, groupId) =>
              && (tabId in state.tabs ==> tabId in after.tabs && after.tabs[tabId] == state.tabs[tabId].(groupId := Some(groupId)))
              && (tabId !in state.tabs ==> tabId !in after.tabs)
              && forall id :: id != tabId ==> SameRecord(state, after, id)
            case GroupChanged(tabId, groupId, windowId) =>
              && (if tabId !in state.tabs || DraggedOut(state, tabId, groupId) then tabId !in after.tabs
                  else tabId in after.tabs && after.tabs[tabId] == state.tabs[tabId].(windowId := windowId))
              && forall id :: id != tabId ==> SameRecord(state, after, id)
            case GroupRemoved(_) => after.tabs == state.tabs
            case ServerForgotten(server) =>
              forall id :: if id in state.tabs && state.tabs[id].server == server then id !in after.tabs else SameRecord(state, after, id)
  {
    hide ReleasedTabs, TabsOf, GroupedOf, DetachAll, WithoutDetach, GroupKey;
    match action
    case Adopted(tabId, _, _) => ReleaseKeeps(state, [tabId], ByUser);
    case GroupChanged(tabId, _, _) => ReleaseKeeps(state, [tabId], ByUser);
    case Returned(tabId) => ReleaseKeeps(state, [tabId], ByUser);
    case Release(tabIds, reason) => ReleaseKeeps(state, tabIds, reason);
    case ReleaseAll(reason) => ReleaseKeeps(state, order, reason);
    case _ =>
  }

  /** The groups on record: one more when a tab is grouped, fewer when Chrome drops one or a server goes. */
  lemma GroupsAfter(state: TabSetState, action: Action, order: seq<int>)
    requires Lists(order, state) && Keyed(state)
    ensures var was, now := state.groups, Reduce(state, action, order).state.groups;
            match action
            case Grouped(tabId, groupId) =>
              now == if tabId in state.tabs
                     then was[GroupKey(state.tabs[tabId].server, state.tabs[tabId].windowId) := groupId] else was
            case GroupRemoved(groupId) => now.Keys <= was.Keys && forall key :: key in was ==>
              if was[key] == groupId then key !in now else key in now && now[key] == was[key]
            case ServerForgotten(server) => now.Keys <= was.Keys && forall key :: key in was ==>
              if ServerOfGroupKey(key) == server then key !in now else key in now && now[key] == was[key]
            case _ => now == was
  {
    hide ReleasedTabs, TabsOf, GroupedOf, DetachAll, WithoutDetach, GroupKey, ServerOfGroupKey;
    match action
    case Adopted(tabId, _, _) => ReleaseKeeps(state, [tabId], ByUser);
    case GroupChanged(tabId, _, _) => ReleaseKeeps(state, [tabId], ByUser);
    case Returned(tabId) => ReleaseKeeps(state, [tabId], ByUser);
    case Release(tabIds, reason) => ReleaseKeeps(state, tabIds, reason);
    case ReleaseAll(reason) => ReleaseKeeps(state, order, reason);
    case _ =>
  }

  // ---- What each action tells ----

  lemma {:induction false} ReleaseTells(state: TabSetState, tabIds: seq<int>, reason: Reason)
    requires Keyed(state)
    ensures forall server, id, why :: Released(server, id, why) in ReleasedTabs(state, tabIds, reason).effects <==>
              id in tabIds && id in DrivenTabs(state, server) && why == reason
    ensures forall e :: e in ReleasedTabs(state, tabIds, reason).effects ==> e.Released? || e.Detach?
  {
    if tabIds != [] {
      var front, last := tabIds[..|tabIds| - 1], tabIds[|tabIds| - 1];
      ReleaseTells(state, front, reason);
      ReleaseKeeps(state, front, reason);
      assert tabIds == front + [last];
    }
  }

  /** Why an action takes a tab from the server that drives it, and says so. */
  ghost function TakenBecause(state: TabSetState, action: Action, server: string, id: int): Option<Reason> {
    if id !in DrivenTabs(state, server) then None
    else
      match action
      case Release(tabIds, reason) => if id in tabIds then Some(reason) else None
      case ReleaseAll(reason) => Some(reason)
      case Adopted(tabId, _, owner) => if id == tabId && owner != server then Some(ByUser) else None
      case GroupChanged(tabId, groupId, _) => if id == tabId && DraggedOut(state, id, groupId) then Some(ByUser) else None
      case Returned(tabId) => if id == tabId then Some(ByUser) else None
      case _ => None
  }

  /** A server hears of a tab it loses, and why, exactly once taken; and of one that was closed. */
  lemma TellsTheLosers(state: TabSetState, action: Action, order: seq<int>, server: string, id: int, why: Reason)
    requires Lists(order, state) && Keyed(state)
    ensures Released(server, id, why) in Reduce(state, action, order).effects <==>
              TakenBecause(state, action, server, id) == Some(why)
    ensures Closed(server, id) in Reduce(state, action, order).effects <==>
              action == Removed(id) && id in DrivenTabs(state, server)
  {
    hide ReleasedTabs, TabsOf, GroupedOf, DetachAll, WithoutDetach, GroupKey;
    match action
    case Adopted(tabId, _, _) =>
      if Drivable(state, tabId) {
        MoveEffects(state, tabId);
      }
    case GroupChanged(tabId, _, _) => ReleaseTells(state, [tabId], ByUser);
    case Returned(tabId) => ReleaseTells(state, [tabId], ByUser);
    case Release(tabIds, reason) => ReleaseTells(state, tabIds, reason);
    case ReleaseAll(reason) => ReleaseTells(state, order, reason);
    case ServerForgotten(gone) => OnlyDetaches(TabsOf(state, gone, order));
    case _ =>
  }

  lemma OnlyDetaches(tabIds: seq<int>)
    ensures forall e :: e in DetachAll(tabIds) ==> e.Detach?
  {
  }

  /** What leaves with its server, or is handed back, leaves its group as well; nothing else does. */
  lemma UngroupsTheGone(state: TabSetState, action: Action, order: seq<int>, ids: seq<int>)
    requires Lists(order, state) && Keyed(state)
    ensures Ungroup(ids) in Reduce(state, action, order).effects ==>
              || (action.Returned? && ids == [action.tabId] && action.tabId in state.tabs && state.tabs[action.tabId].groupId.Some?)
              || (action.ServerForgotten? && forall id :: id in ids <==> HasGroup(state, action.server, id))
    ensures action.Returned? && action.tabId in state.tabs && state.tabs[action.tabId].groupId.Some? ==>
              Ungroup([action.tabId]) in Reduce(state, action, order).effects
    ensures action.ServerForgotten? && (exists id :: HasGroup(state, action.server, id)) ==>
              exists all :: Ungroup(all) in Reduce(state, action, order).effects
  {
    hide ReleasedTabs, TabsOf, GroupedOf, DetachAll, WithoutDetach, GroupKey;
    match action
    case Adopted(tabId, _, _) =>
      if Drivable(state, tabId) {
        MoveEffects(state, tabId);
      }
    case GroupChanged(tabId, _, _) => ReleaseTells(state, [tabId], ByUser);
    case Returned(tabId) => ReleaseTells(state, [tabId], ByUser);
    case Release(tabIds, reason) => ReleaseTells(state, tabIds, reason);
    case ReleaseAll(reason) => ReleaseTells(state, order, reason);
    case ServerForgotten(gone) => UngroupsTheServer(state, gone, order);
    case _ =>
  }

  ghost predicate HasGroup(state: TabSetState, server: string, id: int) {
    id in state.tabs && state.tabs[id].server == server && state.tabs[id].groupId.Some?
  }

  lemma UngroupsTheServer(state: TabSetState, server: string, order: seq<int>)
    requires Lists(order, state)
    ensures var effects := Reduce(state, ServerForgotten(server), order).effects;
            && (forall ids :: Ungroup(ids) in effects ==> forall id :: id in ids <==> HasGroup(state, server, id))
            && ((exists id :: HasGroup(state, server, id)) ==> exists all :: Ungroup(all) in effects)
  {
    var gone := TabsOf(state, server, order);
    OnlyDetaches(gone);
    hide DetachAll;
    assert forall k :: 0 <= k < |gone| ==> gone[k] in gone;
    var grouped := GroupedOf(state, gone);
    var effects := Reduce(state, ServerForgotten(server), order).effects;
    forall id | HasGroup(state, server, id)
      ensures id in grouped && effects[0] == Ungroup(grouped)
    {
      assert id in state.tabs.Keys && id in (set k | k in order);
    }
  }

  // ---- Stored and read back ----

  /** A stored JSON value: `Number` is an integer of any size, `Other` neither that nor a string. */
  datatype Raw = Missing | Number(n: int) | Text(s: string) | Other

  datatype RawTab = NotAnObject | RawTab(
    tabId: Raw, server: Raw, windowId: Raw, how: Raw, openerTabId: Raw, groupId: Raw, released: Raw)

  /** `tabs` by its values and `groups` by its entries, where they are objects at all. */
  datatype RawState = Garbage | RawState(tabs: Option<seq<RawTab>>, groups: Option<seq<(string, Raw)>>)

  const MAX_SAFE_INTEGER := 0x1F_FFFF_FFFF_FFFF

  predicate IsSafe(n: int) {
    -MAX_SAFE_INTEGER <= n <= MAX_SAFE_INTEGER
  }

  predicate IsSafeInteger(raw: Raw) {
    raw.Number? && IsSafe(raw.n)
  }

  function OptionalNumber(raw: Raw): Option<int> {
    if IsSafeInteger(raw) then Some(raw.n) else None
  }

  function OriginOf(raw: Raw): Option<Origin> {
    if raw == Text("created") then Some(Opened)
    else if raw == Text("user") then Some(HandedOver)
    else if raw == Text("popup") then Some(Popup)
    else None
  }

  function ReasonOf(raw: Raw): Option<Reason> {
    if raw == Text("user") then Some(ByUser)
    else if raw == Text("detached") then Some(Detached)
    else if raw == Text("restricted") then Some(Restricted)
    else None
  }

  function ParseTab(raw: RawTab): Option<DrivenTab> {
    if raw.NotAnObject? then None
    else if !IsSafeInteger(raw.tabId) || !IsSafeInteger(raw.windowId) then None
    else if !raw.server.Text? then None
    else if OriginOf(raw.how).None? then None
    else
      Some(DrivenTab(raw.tabId.n, raw.server.s, raw.windowId.n, OriginOf(raw.how).value,
                     OptionalNumber(raw.openerTabId), OptionalNumber(raw.groupId), ReasonOf(raw.released)))
  }

  function TabsFrom(values: seq<RawTab>): map<int, DrivenTab> {
    if values == [] then map[]
    else
      var tabs := TabsFrom(values[..|values| - 1]);
      match ParseTab(values[|values| - 1])
      case None => tabs
      case Some(tab) => tabs[tab.tabId := tab]
  }

  function GroupsFrom(entries: seq<(string, Raw)>): map<string, int> {
    if entries == [] then map[]
    else
      var groups, entry := GroupsFrom(entries[..|entries| - 1]), entries[|entries| - 1];
      if IsSafeInteger(entry.1) && ' ' in entry.0 then groups[entry.0 := entry.1.n] else groups
  }

  function Parsed(value: RawState): TabSetState {
    if value.Garbage? then EMPTY
    else
      TabSetState(if value.tabs.Some? then TabsFrom(value.tabs.value) else map[],
                  if value.groups.Some? then GroupsFrom(value.groups.value) else map[])
  }

  method ParseTabSet(value: RawState) returns (state: TabSetState)
    ensures state == Parsed(value)
  {
    state := EMPTY;
    if value.Garbage? {
      return;
    }
    if value.tabs.Some? {
      var values := value.tabs.value;
      for i := 0 to |values|
        invariant state == TabSetState(TabsFrom(values[..i]), map[])
      {
        assert values[..i + 1][..i] == values[..i];
        var tab := ParseTab(values[i]);
        if tab.Some? {
          state := WithTab(state, tab.value);
        }
      }
      assert values[..|values|] == values;
    }
    if value.groups.Some? {
      var entries := value.groups.value;
      for i := 0 to |entries|
        invariant state == TabSetState(Parsed(value).tabs, GroupsFrom(entries[..i]))
      {
        assert entries[..i + 1][..i] == entries[..i];
        var (key, groupId) := entries[i];
        if IsSafeInteger(groupId) && ' ' in key {
          state := state.(groups := state.groups[key := groupId.n]);
        }
      }
      assert entries[..|entries|] == entries;
    }
  }

  ghost predicate IsSafeTab(tab: DrivenTab) {
    && IsSafe(tab.tabId) && IsSafe(tab.windowId)
    && (tab.openerTabId.Some? ==> IsSafe(tab.openerTabId.value))
    && (tab.groupId.Some? ==> IsSafe(tab.groupId.value))
  }

  /** A state the reducer makes of the browser's own ids. */
  ghost predicate Valid(state: TabSetState) {
    && Keyed(state)
    && (forall id :: id in state.tabs ==> IsSafeTab(state.tabs[id]))
    && forall key :: key in state.groups ==> ' ' in key && IsSafe(state.groups[key])
  }

  /** Whatever was stored, what is read back is a state. */
  lemma ParsedIsValid(value: RawState)
    ensures Valid(Parsed(value))
  {
    if value.RawState? {
      if value.tabs.Some? {
        TabsAreSafe(value.tabs.value);
      }
      if value.groups.Some? {
        GroupsAreSafe(value.groups.value);
      }
    }
  }

  lemma {:induction false} TabsAreSafe(values: seq<RawTab>)
    ensures forall id :: id in TabsFrom(values) ==> TabsFrom(values)[id].tabId == id && IsSafeTab(TabsFrom(values)[id])
  {
    if values != [] {
      TabsAreSafe(values[..|values| - 1]);
    }
  }

  lemma {:induction false} GroupsAreSafe(entries: seq<(string, Raw)>)
    ensures forall key :: key in GroupsFrom(entries) ==> ' ' in key && IsSafe(GroupsFrom(entries)[key])
  {
    if entries != [] {
      GroupsAreSafe(entries[..|entries| - 1]);
    }
  }

  function EncodeNumber(n: Option<int>): Raw {
    if n.Some? then Number(n.value) else Missing
  }

  function EncodeTab(tab: DrivenTab): RawTab {
    var how := match tab.how case Opened => "created" case HandedOver => "user" case Popup => "popup";
    var released :=
      match tab.released
      case None => Missing
      case Some(ByUser) => Text("user")
      case Some(Detached) => Text("detached")
      case Some(Restricted) => Text("restricted");
    RawTab(Number(tab.tabId), Text(tab.server), Number(tab.windowId), Text(how),
           EncodeNumber(tab.openerTabId), EncodeNumber(tab.groupId), released)
  }

  function EncodeTabs(state: TabSetState, order: seq<int>): seq<RawTab>
    requires forall k :: 0 <= k < |order| ==> order[k] in state.tabs
  {
    seq(|order|, k requires 0 <= k < |order| => EncodeTab(state.tabs[order[k]]))
  }

  function EncodeGroups(state: TabSetState, keys: seq<string>): seq<(string, Raw)>
    requires forall k :: 0 <= k < |keys| ==> keys[k] in state.groups
  {
    seq(|keys|, k requires 0 <= k < |keys| => (keys[k], Number(state.groups[keys[k]])))
  }

  ghost predicate ListsGroups(keys: seq<string>, state: TabSetState) {
    && (forall k :: 0 <= k < |keys| ==> keys[k] in state.groups)
    && forall key :: key in state.groups ==> key in keys
  }

  lemma TabRoundTrip(tab: DrivenTab)
    requires IsSafeTab(tab)
    ensures ParseTab(EncodeTab(tab)) == Some(tab)
  {
    OriginRoundTrip(tab.how);
    ReasonRoundTrip();
    hide OriginOf, ReasonOf;
  }

  lemma OriginRoundTrip(how: Origin)
    ensures OriginOf(Text(match how case Opened => "created" case HandedOver => "user" case Popup => "popup")) == Some(how)
  {
    assert |"created"| == 7 && |"user"| == 4 && |"popup"| == 5;
  }

  lemma ReasonRoundTrip()
    ensures ReasonOf(Missing) == None && ReasonOf(Text("user")) == Some(ByUser)
    ensures ReasonOf(Text("detached")) == Some(Detached) && ReasonOf(Text("restricted")) == Some(Restricted)
  {
    assert |"user"| == 4 && |"detached"| == 8 && |"restricted"| == 10;
  }

  lemma {:induction false} TabsRoundTrip(state: TabSetState, order: seq<int>)
    requires Valid(state) && forall k :: 0 <= k < |order| ==> order[k] in state.tabs
    ensures TabsFrom(EncodeTabs(state, order)) == map id | id in state.tabs && id in order :: state.tabs[id]
  {
    if order != [] {
      var front, last := order[..|order| - 1], order[|order| - 1];
      TabsRoundTrip(state, front);
      LastTab(state, order);
      hide TabsFrom, EncodeTabs, Valid;
      assert order == front + [last];
    }
  }

  lemma LastTab(state: TabSetState, order: seq<int>)
    requires Valid(state) && order != [] && forall k :: 0 <= k < |order| ==> order[k] in state.tabs
    ensures var front, last := order[..|order| - 1], order[|order| - 1];
            TabsFrom(EncodeTabs(state, order)) == TabsFrom(EncodeTabs(state, front))[last := state.tabs[last]]
  {
    var last := order[|order| - 1];
    assert last in state.tabs && state.tabs[last].tabId == last && IsSafeTab(state.tabs[last]);
    TabRoundTrip(state.tabs[last]);
    hide ParseTab, EncodeTab, IsSafeTab;
    assert EncodeTabs(state, order)[..|order| - 1] == EncodeTabs(state, order[..|order| - 1]);
  }

  lemma {:induction false} GroupsRoundTrip(state: TabSetState, keys: seq<string>)
    requires Valid(state) && forall k :: 0 <= k < |keys| ==> keys[k] in state.groups
    ensures GroupsFrom(EncodeGroups(state, keys)) == map key | key in state.groups && key in keys :: state.groups[key]
  {
    if keys != [] {
      var front, last := keys[..|keys| - 1], keys[|keys| - 1];
      GroupsRoundTrip(state, front);
      assert EncodeGroups(state, keys)[..|keys| - 1] == EncodeGroups(state, front);
      assert keys == front + [last];
    }
  }

  /** A stored state is read back unchanged, whatever order the browser keeps it in. */
  lemma StoredStateRoundTrip(state: TabSetState, order: seq<int>, keys: seq<string>)
    requires Valid(state) && Lists(order, state) && ListsGroups(keys, state)
    ensures Parsed(RawState(Some(EncodeTabs(state, order)), Some(EncodeGroups(state, keys)))) == state
  {
    TabsRoundTrip(state, order);
    GroupsRoundTrip(state, keys);
    hide TabsFrom, GroupsFrom, EncodeTabs, EncodeGroups;
    assert (map id | id in state.tabs && id in order :: state.tabs[id]) == state.tabs;
    assert (map key | key in state.groups && key in keys :: state.groups[key]) == state.groups;
  }

  /** The browser's ids are safe integers. */
  ghost predicate IsSafeAction(action: Action) {
    match action
    case Created(tabId, windowId, _) => IsSafe(tabId) && IsSafe(windowId)
    case Adopted(tabId, windowId, _) => IsSafe(tabId) && IsSafe(windowId)
    case PoppedUp(tabId, windowId, openerTabId) => IsSafe(tabId) && IsSafe(windowId) && IsSafe(openerTabId)
    case Grouped(tabId, groupId) => IsSafe(tabId) && IsSafe(groupId)
    case GroupChanged(tabId, groupId, windowId) => IsSafe(tabId) && IsSafe(groupId) && IsSafe(windowId)
    case _ => true
  }

  lemma StepTabsSafe(state: TabSetState, action: Action, order: seq<int>)
    requires Lists(order, state) && Valid(state) && IsSafeAction(action)
    ensures forall id :: id in Reduce(state, action, order).state.tabs ==> IsSafeTab(Reduce(state, action, order).state.tabs[id])
  {
    hide ReleasedTabs, TabsOf, GroupedOf, DetachAll, WithoutDetach, GroupKey, IsSafe;
    match action
    case Adopted(tabId, _, _) => ReleaseKeeps(state, [tabId], ByUser);
    case GroupChanged(tabId, _, _) => ReleaseKeeps(state, [tabId], ByUser);
    case Returned(tabId) => ReleaseKeeps(state, [tabId], ByUser);
    case Release(tabIds, reason) => ReleaseKeeps(state, tabIds, reason);
    case ReleaseAll(reason) => ReleaseKeeps(state, order, reason);
    case _ =>
  }

  lemma StepGroupsSafe(state: TabSetState, action: Action, order: seq<int>)
    requires Lists(order, state) && Valid(state) && IsSafeAction(action)
    ensures var groups := Reduce(state, action, order).state.groups;
            forall key :: key in groups ==> ' ' in key && IsSafe(groups[key])
  {
    hide ReleasedTabs, TabsOf, GroupedOf, DetachAll, WithoutDetach, GroupKey, IsSafe, IsSafeTab;
    match action
    case Adopted(tabId, _, _) => ReleaseKeeps(state, [tabId], ByUser);
    case Grouped(tabId, _) =>
      if tabId in state.tabs {
        GroupKeyNamesServer(state.tabs[tabId].server, state.tabs[tabId].windowId);
      }
    case GroupChanged(tabId, _, _) => ReleaseKeeps(state, [tabId], ByUser);
    case Returned(tabId) => ReleaseKeeps(state, [tabId], ByUser);
    case Release(tabIds, reason) => ReleaseKeeps(state, tabIds, reason);
    case ReleaseAll(reason) => ReleaseKeeps(state, order, reason);
    case _ =>
  }

  lemma StepValid(state: TabSetState, action: Action, order: seq<int>)
    requires Lists(order, state) && Valid(state) && IsSafeAction(action)
    ensures Valid(Reduce(state, action, order).state)
  {
    StepKeyed(state, action, order);
    StepTabsSafe(state, action, order);
    StepGroupsSafe(state, action, order);
    hide Reduce;
  }

  ghost predicate SafeRun(run: Run) {
    match run
    case Start => true
    case Step(before, action, _) => SafeRun(before) && IsSafeAction(action)
  }

  /** Every state a run reaches survives being stored and read back. */
  lemma {:induction false} RunRoundTrip(run: Run, order: seq<int>, keys: seq<string>)
    requires IsRun(run) && SafeRun(run) && Lists(order, StateOf(run)) && ListsGroups(keys, StateOf(run))
    ensures var state := StateOf(run);
            Parsed(RawState(Some(EncodeTabs(state, order)), Some(EncodeGroups(state, keys)))) == state
  {
    RunValid(run);
    hide StateOf, Parsed;
    StoredStateRoundTrip(StateOf(run), order, keys);
  }

  lemma {:induction false} RunValid(run: Run)
    requires IsRun(run) && SafeRun(run)
    ensures Valid(StateOf(run))
  {
    if run.Step? {
      RunValid(run.before);
      hide Reduce, Valid, Lists, IsSafeAction;
      StepValid(StateOf(run.before), run.action, run.order);
    }
  }
}
