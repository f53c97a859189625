/**
 * The browser page's live views, in the gateway: which page watches which window,
 * and who controls it.
 *
 * View ids are made fresh for every page and every full desktop. A VM has one live
 * socket: a new one takes the old one's place, and the old one's close is handled
 * before anything is sent on the new one.
 */
module Handoffs {
  import opened Wrappers

  type VmId = nat
  type ViewId = nat
  type WindowId = nat
  type TargetId = nat
  type Owner = nat

  datatype Watched = Watched(windowId: WindowId, targetId: TargetId, owner: Owner)

  /** A page's viewer object, whether or not it is still signed in. */
  datatype Page = Page(vmId: VmId, watching: Option<Watched>)

  /** What is sent to a VM about a view, and what is heard of it. `Gone` is its live socket closing or being replaced. */
  datatype Event =
    | Start(viewId: ViewId, targetId: TargetId)
    | Stop(viewId: ViewId)
    | Ended(viewId: ViewId)
    | Input(viewId: ViewId)
    | DesktopOpen(viewId: ViewId)
    | DesktopClose(viewId: ViewId)
    | DesktopClosed(viewId: ViewId)
    | BrowserRelease(owner: Owner)
    | Gone

  /** What a page is told of a window. */
  datatype Message = Watching(windowId: WindowId, control: bool) | Control(windowId: WindowId, yours: bool) | EndedAt(windowId: WindowId)

  type Key = (VmId, WindowId)

  datatype Registry = Registry(
    pages: map<ViewId, Page>,
    joined: seq<ViewId>,
    control: map<Key, ViewId>,
    desktops: map<ViewId, VmId>,
    connected: set<VmId>,
    log: seq<(VmId, Event)>,
    told: seq<(ViewId, Message)>)

  // ---------------------------------------------------------------- Operations on the whole registry

  function Send(r: Registry, vmId: VmId, e: Event): Registry {
    if vmId in r.connected then r.(log := r.log + [(vmId, e)]) else r
  }

  function Tell(r: Registry, v: ViewId, m: Message): Registry {
    r.(told := r.told + [(v, m)])
  }

  function WatchedBy(r: Registry, v: ViewId): Option<Watched> {
    if v in r.pages then r.pages[v].watching else None
  }

  function Looking(r: Registry, v: ViewId, watching: Option<Watched>): Registry
    requires v in r.pages
  {
    r.(pages := r.pages[v := r.pages[v].(watching := watching)])
  }

  function CloseDesktop(r: Registry, v: ViewId): Registry {
    if v in r.desktops then Send(r.(desktops := r.desktops - {v}), r.desktops[v], DesktopClose(v)) else r
  }

  function StopWatching(r: Registry, v: ViewId): Registry
    requires v in r.pages
  {
    if r.pages[v].watching.None? then r else Looking(Send(r, r.pages[v].vmId, Stop(v)), v, None)
  }

  /** A page's stream starts over, in a session of its own. */
  function Restart(r: Registry, vmId: VmId, v: ViewId, targetId: TargetId): Registry {
    Send(Send(r, vmId, Stop(v)), vmId, Start(v, targetId))
  }

  function DropControl(r: Registry, vmId: VmId, windowId: WindowId): Registry {
    var key := (vmId, windowId);
    if key !in r.control then r
    else
      var holder := r.control[key];
      var r1 := r.(control := r.control - {key});
      var r2 := if holder !in r.joined then r1
                else
                  var r3 := Tell(r1, holder, Control(windowId, false));
                  var watched := WatchedBy(r, holder);
                  if watched.Some? && watched.value.windowId == windowId then Restart(r3, vmId, holder, watched.value.targetId)
                  else r3;
      CloseDesktop(r2, holder)
  }

  predicate Controls(r: Registry, v: ViewId) {
    && v in r.pages && r.pages[v].watching.Some?
    && var key := (r.pages[v].vmId, r.pages[v].watching.value.windowId);
    && key in r.control && r.control[key] == v
  }

  function Join(r: Registry, v: ViewId, vmId: VmId): Registry {
    r.(pages := r.pages[v := Page(vmId, None)], joined := r.joined + [v])
  }

  /** Starts a stream for a page that watches nothing. */
  function StartWatching(r: Registry, v: ViewId, window: Watched): Registry
    requires v in r.pages
  {
    var vmId := r.pages[v].vmId;
    if vmId !in r.connected then r
    else
      var r' := Looking(Send(r, vmId, Start(v, window.targetId)), v, Some(window));
      Tell(r', v, Watching(window.windowId, Controls(r', v)))
  }

  function Watch(r: Registry, v: ViewId, window: Watched): Registry {
    if v !in r.joined || v !in r.pages then r else StartWatching(StopWatching(r, v), v, window)
  }

  function Grant(r: Registry, v: ViewId): Registry {
    if WatchedBy(r, v).None? then r
    else
      var windowId := r.pages[v].watching.value.windowId;
      var key := (r.pages[v].vmId, windowId);
      if key in r.control && r.control[key] == v then r
      else
        var r' := DropControl(r, key.0, windowId);
        Tell(r'.(control := r'.control[key := v]), v, Control(windowId, true))
  }

  function SendInput(r: Registry, v: ViewId): Registry {
    if v in r.joined && Controls(r, v) then Send(r, r.pages[v].vmId, Input(v)) else r
  }

  function Without(views: seq<ViewId>, gone: set<ViewId>): (rest: seq<ViewId>)
    ensures forall v :: v in rest <==> v in views && v !in gone
  {
    if views == [] then []
    else if views[0] in gone then Without(views[1..], gone)
    else [views[0]] + Without(views[1..], gone)
  }

  function LetGo(control: map<Key, ViewId>, v: ViewId): map<Key, ViewId> {
    map key | key in control && control[key] != v :: control[key]
  }

  function Leave(r: Registry, v: ViewId): Registry {
    if v !in r.joined || v !in r.pages then r
    else
      var r' := StopWatching(r, v);
      CloseDesktop(r'.(joined := Without(r.joined, {v}), control := LetGo(r.control, v)), v)
  }

  predicate Matching(r: Registry, vmId: VmId, owner: Owner, windowId: Option<WindowId>, v: ViewId) {
    && v in r.pages && r.pages[v].vmId == vmId && r.pages[v].watching.Some?
    && r.pages[v].watching.value.owner == owner
    && (windowId.None? || r.pages[v].watching.value.windowId == windowId.value)
  }

  function ReleaseEach(r: Registry, vmId: VmId, owner: Owner, windowId: Option<WindowId>, views: seq<ViewId>): Registry
    decreases |views|
  {
    if views == [] then r
    else
      var r' := ReleaseEach(r, vmId, owner, windowId, views[..|views| - 1]);
      var v := views[|views| - 1];
      if Matching(r', vmId, owner, windowId, v) then DropControl(r', vmId, r'.pages[v].watching.value.windowId) else r'
  }

  function Release(r: Registry, vmId: VmId, owner: Owner, windowId: Option<WindowId>): Registry {
    Send(ReleaseEach(r, vmId, owner, windowId, r.joined), vmId, BrowserRelease(owner))
  }

  function StreamEnded(r: Registry, vmId: VmId, v: ViewId): Registry {
    if v !in r.joined || v !in r.pages || r.pages[v].vmId != vmId || r.pages[v].watching.None? then r
    else
      var windowId := r.pages[v].watching.value.windowId;
      var r' := Looking(r, v, None).(control := r.control - {(vmId, windowId)}, log := r.log + [(vmId, Ended(v))]);
      Tell(r', v, EndedAt(windowId))
  }

  function OpenDesktop(r: Registry, v: ViewId, vmId: VmId): Registry {
    var r' := CloseDesktop(r, v);
    if vmId in r'.connected then Send(r'.(desktops := r'.desktops[v := vmId]), vmId, DesktopOpen(v)) else r'
  }

  function DesktopEnded(r: Registry, vmId: VmId, v: ViewId): Registry {
    if v in r.desktops && r.desktops[v] == vmId then
      r.(desktops := r.desktops - {v}, log := r.log + [(vmId, DesktopClosed(v))])
    else r
  }

  function PagesOn(pages: map<ViewId, Page>, vmId: VmId): set<ViewId> {
    set v | v in pages && pages[v].vmId == vmId
  }

  /** A VM's socket closed: nothing is sent, and whatever it had under way is over. */
  function VmClosed(r: Registry, vmId: VmId): Registry {
    r.(pages := map v | v in r.pages :: if v in r.joined && r.pages[v].vmId == vmId then Page(vmId, None) else r.pages[v],
       joined := Without(r.joined, PagesOn(r.pages, vmId)),
       control := map key | key in r.control && key.0 != vmId :: r.control[key],
       desktops := map v | v in r.desktops && r.desktops[v] != vmId :: r.desktops[v],
       log := r.log + [(vmId, Gone)])
  }

  /** A VM connects; the socket it had before, if any, is closed at once. */
  function Connect(r: Registry, vmId: VmId): Registry {
    (if vmId in r.connected then VmClosed(r, vmId) else r).(connected := r.connected + {vmId})
  }

  /** Its live socket closes. One that was replaced closed then, and its `remove` does nothing. */
  function Disconnect(r: Registry, vmId: VmId): Registry {
    VmClosed(r, vmId).(connected := r.connected - {vmId})
  }

  datatype Op =
    | Connects(vmId: VmId)
    | Closes(vmId: VmId)
    | Joins(viewId: ViewId, vmId: VmId)
    | Watches(viewId: ViewId, window: Watched)
    | Grants(viewId: ViewId)
    | Acts(viewId: ViewId)
    | Leaves(viewId: ViewId)
    | Releases(vmId: VmId, owner: Owner, windowId: Option<WindowId>)
    | StreamEnds(vmId: VmId, viewId: ViewId)
    | OpensDesktop(viewId: ViewId, vmId: VmId)
    | ClosesDesktop(viewId: ViewId)
    | DesktopEnds(vmId: VmId, viewId: ViewId)

  /** View ids are fresh, a page that never was can do nothing, and only a live socket closes. */
  predicate Allowed(r: Registry, used: set<ViewId>, op: Op) {
    match op
    case Joins(v, _) => v !in used
    case OpensDesktop(v, _) => v !in used
    case Closes(vmId) => vmId in r.connected
    case _ => true
  }

  function Used(used: set<ViewId>, op: Op): set<ViewId> {
    match op
    case Joins(v, _) => used + {v}
    case OpensDesktop(v, _) => used + {v}
    case _ => used
  }

  function Do(r: Registry, op: Op): Registry {
    match op
    case Connects(vmId) => Connect(r, vmId)
    case Closes(vmId) => Disconnect(r, vmId)
    case Joins(v, vmId) => Join(r, v, vmId)
    case Watches(v, window) => Watch(r, v, window)
    case Grants(v) => Grant(r, v)
    case Acts(v) => SendInput(r, v)
    case Leaves(v) => Leave(r, v)
    case Releases(vmId, owner, windowId) => Release(r, vmId, owner, windowId)
    case StreamEnds(vmId, v) => StreamEnded(r, vmId, v)
    case OpensDesktop(v, vmId) => OpenDesktop(r, v, vmId)
    case ClosesDesktop(v) => CloseDesktop(r, v)
    case DesktopEnds(vmId, v) => DesktopEnded(r, vmId, v)
  }

  function Empty(): Registry {
    Registry(map[], [], map[], map[], {}, [], [])
  }

  predicate Legal(r: Registry, used: set<ViewId>, ops: seq<Op>)
    decreases |ops|
  {
    ops == [] || (Allowed(r, used, ops[0]) && Legal(Do(r, ops[0]), Used(used, ops[0]), ops[1..]))
  }

  function DoAll(r: Registry, ops: seq<Op>): Registry
    decreases |ops|
  {
    if ops == [] then r else DoAll(Do(r, ops[0]), ops[1..])
  }

  // ---------------------------------------------------------------- What the log adds up to

  /** What a view streams, by the log: the last that was said of it. */
  function Streams(log: seq<(VmId, Event)>, vmId: VmId, v: ViewId): Option<TargetId> {
    if log == [] then None
    else
      var before, last := log[..|log| - 1], log[|log| - 1];
      if last.0 != vmId then Streams(before, vmId, v)
      else
        match last.1
        case Start(v', targetId) => if v' == v then Some(targetId) else Streams(before, vmId, v)
        case Stop(v') => if v' == v then None else Streams(before, vmId, v)
        case Ended(v') => if v' == v then None else Streams(before, vmId, v)
        case Gone => None
        case _ => Streams(before, vmId, v)
  }

  function DesktopOn(log: seq<(VmId, Event)>, vmId: VmId, v: ViewId): bool {
    if log == [] then false
    else
      var before, last := log[..|log| - 1], log[|log| - 1];
      if last.0 != vmId then DesktopOn(before, vmId, v)
      else
        match last.1
        case DesktopOpen(v') => v' == v || DesktopOn(before, vmId, v)
        case DesktopClose(v') => v' != v && DesktopOn(before, vmId, v)
        case DesktopClosed(v') => v' != v && DesktopOn(before, vmId, v)
        case Gone => false
        case _ => DesktopOn(before, vmId, v)
  }

  /** One entry makes sense after the others: nothing starts twice, and only what runs is stopped or acted on. */
  ghost predicate SensibleAt(log: seq<(VmId, Event)>, k: nat)
    requires k < |log|
  {
    var (vmId, e) := log[k];
    match e
    case Start(v, _) => Streams(log[..k], vmId, v).None?
    case Stop(v) => Streams(log[..k], vmId, v).Some?
    case Ended(v) => Streams(log[..k], vmId, v).Some?
    case Input(v) => Streams(log[..k], vmId, v).Some?
    case DesktopOpen(v) => !DesktopOn(log[..k], vmId, v)
    case DesktopClose(v) => DesktopOn(log[..k], vmId, v)
    case DesktopClosed(v) => DesktopOn(log[..k], vmId, v)
    case _ => true
  }

  ghost predicate Sensible(log: seq<(VmId, Event)>) {
    forall k :: 0 <= k < |log| ==> SensibleAt(log, k)
  }

  function TargetOf(pages: map<ViewId, Page>, vmId: VmId, v: ViewId): Option<TargetId> {
    if v in pages && pages[v].vmId == vmId && pages[v].watching.Some? then Some(pages[v].watching.value.targetId) else None
  }

  /** What a page was last told of its control of a window. */
  function Believes(told: seq<(ViewId, Message)>, v: ViewId, windowId: WindowId): bool {
    if told == [] then false
    else
      var before, last := told[..|told| - 1], told[|told| - 1];
      if last.0 != v || last.1.windowId != windowId then Believes(before, v, windowId)
      else
        match last.1
        case Watching(_, control) => control
        case Control(_, yours) => yours
        case EndedAt(_) => false
  }

  // ---------------------------------------------------------------- The invariant

  /** Who watches is signed in, on a connected VM. */
  ghost predicate WatchersJoined(pages: map<ViewId, Page>, joined: seq<ViewId>, connected: set<VmId>) {
    && (forall v :: v in joined ==> v in pages)
    && (forall v :: v in pages && pages[v].watching.Some? ==> v in joined && pages[v].vmId in connected)
  }

  /** Who controls a window is signed in, on its VM. */
  ghost predicate HoldersJoined(pages: map<ViewId, Page>, joined: seq<ViewId>, control: map<Key, ViewId>) {
    forall key :: key in control ==> control[key] in joined && control[key] in pages && pages[control[key]].vmId == key.0
  }

  /** The log adds up to exactly what the pages watch. */
  ghost predicate StreamsAgree(log: seq<(VmId, Event)>, pages: map<ViewId, Page>) {
    forall vmId: VmId, v: ViewId :: Streams(log, vmId, v) == TargetOf(pages, vmId, v)
  }

  ghost predicate DesktopsAgree(log: seq<(VmId, Event)>, desktops: map<ViewId, VmId>, connected: set<VmId>) {
    && (forall vmId: VmId, v: ViewId :: DesktopOn(log, vmId, v) <==> v in desktops && desktops[v] == vmId)
    && (forall v :: v in desktops ==> desktops[v] in connected)
  }

  /** Who controls a window was told so, and nothing else of it since. */
  ghost predicate HoldersKnow(told: seq<(ViewId, Message)>, control: map<Key, ViewId>) {
    forall key :: key in control ==> Believes(told, control[key], key.1)
  }

  /** A view is a page or a full desktop. */
  ghost predicate ViewsOk(pages: map<ViewId, Page>, desktops: map<ViewId, VmId>, used: set<ViewId>) {
    pages.Keys + desktops.Keys <= used && pages.Keys !! desktops.Keys
  }

  ghost predicate Inv(r: Registry, used: set<ViewId>) {
    && ViewsOk(r.pages, r.desktops, used)
    && WatchersJoined(r.pages, r.joined, r.connected)
    && HoldersJoined(r.pages, r.joined, r.control)
    && StreamsAgree(r.log, r.pages)
    && DesktopsAgree(r.log, r.desktops, r.connected)
    && Sensible(r.log)
    && HoldersKnow(r.told, r.control)
  }

  // ---------------------------------------------------------------- One entry more, one message more

  lemma LogOne(log: seq<(VmId, Event)>, vmId: VmId, e: Event)
    requires Sensible(log)
    requires SensibleAt(log + [(vmId, e)], |log|)
    ensures Sensible(log + [(vmId, e)])
    ensures (log + [(vmId, e)])[..|log|] == log
  {
    var log' := log + [(vmId, e)];
    forall k | 0 <= k < |log'| ensures SensibleAt(log', k) {
      if k < |log| {
        assert log'[..k] == log[..k];
        assert SensibleAt(log, k);
      }
    }
  }

  lemma ToldOne(told: seq<(ViewId, Message)>, v: ViewId, m: Message)
    ensures forall v', w ::
              Believes(told + [(v, m)], v', w)
              == if v' == v && m.windowId == w then (match m case Watching(_, c) => c case Control(_, y) => y case EndedAt(_) => false)
                 else Believes(told, v', w)
  {
    assert (told + [(v, m)])[..|told|] == told;
  }

  function StreamAfter(before: Option<TargetId>, e: Event, v: ViewId): Option<TargetId> {
    match e
    case Start(v', targetId) => if v' == v then Some(targetId) else before
    case Stop(v') => if v' == v then None else before
    case Ended(v') => if v' == v then None else before
    case Gone => None
    case _ => before
  }

  function DesktopAfter(before: bool, e: Event, v: ViewId): bool {
    match e
    case DesktopOpen(v') => v' == v || before
    case DesktopClose(v') => v' != v && before
    case DesktopClosed(v') => v' != v && before
    case Gone => false
    case _ => before
  }

  lemma LogEffect(log: seq<(VmId, Event)>, vmId: VmId, e: Event)
    ensures var log' := log + [(vmId, e)];
            && (forall vm: VmId, v: ViewId ::
                  Streams(log', vm, v) == if vm == vmId then StreamAfter(Streams(log, vm, v), e, v) else Streams(log, vm, v))
            && (forall vm: VmId, v: ViewId ::
                  DesktopOn(log', vm, v) == if vm == vmId then DesktopAfter(DesktopOn(log, vm, v), e, v) else DesktopOn(log, vm, v))
  {
    assert (log + [(vmId, e)])[..|log|] == log;
  }

  /** An entry that makes sense where the log stands. */
  ghost predicate SensibleNext(log: seq<(VmId, Event)>, vmId: VmId, e: Event) {
    match e
    case Start(v, _) => Streams(log, vmId, v).None?
    case Stop(v) => Streams(log, vmId, v).Some?
    case Ended(v) => Streams(log, vmId, v).Some?
    case Input(v) => Streams(log, vmId, v).Some?
    case DesktopOpen(v) => !DesktopOn(log, vmId, v)
    case DesktopClose(v) => DesktopOn(log, vmId, v)
    case DesktopClosed(v) => DesktopOn(log, vmId, v)
    case _ => true
  }

  lemma LogSensible(log: seq<(VmId, Event)>, vmId: VmId, e: Event)
    requires Sensible(log) && SensibleNext(log, vmId, e)
    ensures Sensible(log + [(vmId, e)])
  {
    assert (log + [(vmId, e)])[..|log|] == log;
    hide Sensible, Streams, DesktopOn;
    assert SensibleAt(log + [(vmId, e)], |log|);
    LogOne(log, vmId, e);
  }

  // ---------------------------------------------------------------- The small steps

  lemma StopKeeps(r: Registry, used: set<ViewId>, v: ViewId)
    requires Inv(r, used) && v in r.pages
    ensures Inv(StopWatching(r, v), used)
  {
    hide Streams, DesktopOn, Sensible, Believes, HoldersKnow;
    if r.pages[v].watching.Some? {
      var vmId := r.pages[v].vmId;
      LogEffect(r.log, vmId, Stop(v));
      assert Streams(r.log, vmId, v) == TargetOf(r.pages, vmId, v);
      LogSensible(r.log, vmId, Stop(v));
    }
  }

  lemma StartKeeps(r: Registry, used: set<ViewId>, v: ViewId, window: Watched)
    requires Inv(r, used) && v in r.joined && r.pages[v].watching.None?
    ensures Inv(StartWatching(r, v, window), used)
  {
    var vmId := r.pages[v].vmId;
    if vmId in r.connected {
      var r' := Looking(Send(r, vmId, Start(v, window.targetId)), v, Some(window));
      assert Inv(r', used) by {
        hide Streams, DesktopOn, Sensible, Believes, HoldersKnow;
        LogEffect(r.log, vmId, Start(v, window.targetId));
        assert Streams(r.log, vmId, v) == TargetOf(r.pages, vmId, v);
        LogSensible(r.log, vmId, Start(v, window.targetId));
      }
      hide Streams, DesktopOn, Sensible, Believes, WatchersJoined, StreamsAgree, DesktopsAgree, ViewsOk;
      ToldOne(r.told, v, Watching(window.windowId, Controls(r', v)));
    }
  }

  lemma CloseDesktopKeeps(r: Registry, used: set<ViewId>, v: ViewId)
    requires Inv(r, used)
    ensures Inv(CloseDesktop(r, v), used)
  {
    hide Streams, DesktopOn, Sensible, Believes, HoldersKnow, HoldersJoined, WatchersJoined;
    if v in r.desktops {
      LogEffect(r.log, r.desktops[v], DesktopClose(v));
      assert DesktopOn(r.log, r.desktops[v], v);
      LogSensible(r.log, r.desktops[v], DesktopClose(v));
    }
  }

  lemma RestartKeeps(r: Registry, used: set<ViewId>, v: ViewId)
    requires Inv(r, used) && v in r.pages && r.pages[v].watching.Some?
    ensures Inv(Restart(r, r.pages[v].vmId, v, r.pages[v].watching.value.targetId), used)
  {
    hide Streams, DesktopOn, Sensible, Believes, HoldersKnow, HoldersJoined;
    var vmId, targetId := r.pages[v].vmId, r.pages[v].watching.value.targetId;
    var log1 := r.log + [(vmId, Stop(v))];
    assert Streams(r.log, vmId, v) == TargetOf(r.pages, vmId, v);
    LogEffect(r.log, vmId, Stop(v));
    LogSensible(r.log, vmId, Stop(v));
    LogEffect(log1, vmId, Start(v, targetId));
    LogSensible(log1, vmId, Start(v, targetId));
  }

  /** Control of a window goes, and whoever had it hears. */
  lemma DropControlKeeps(r: Registry, used: set<ViewId>, vmId: VmId, windowId: WindowId)
    requires Inv(r, used)
    ensures var r' := DropControl(r, vmId, windowId);
            && Inv(r', used) && r'.pages == r.pages && r'.joined == r.joined && r'.connected == r.connected
            && r'.control == r.control - {(vmId, windowId)} && r'.desktops == r.desktops
  {
    var key := (vmId, windowId);
    if key in r.control {
      var holder := r.control[key];
      var r1 := r.(control := r.control - {key});
      assert holder in r.joined && holder in r.pages && r.pages[holder].vmId == vmId;
      assert holder !in r.desktops;
      var r2 := Tell(r1, holder, Control(windowId, false));
      assert Inv(r2, used) by {
        hide Streams, DesktopOn, Sensible, Believes, WatchersJoined, StreamsAgree, DesktopsAgree, ViewsOk;
        ToldOne(r.told, holder, Control(windowId, false));
      }
      hide Inv;
      var watched := WatchedBy(r, holder);
      if watched.Some? && watched.value.windowId == windowId { RestartKeeps(r2, used, holder); }
    }
  }

  lemma WatchKeeps(r: Registry, used: set<ViewId>, v: ViewId, window: Watched)
    requires Inv(r, used)
    ensures Inv(Watch(r, v, window), used)
  {
    hide Inv;
    if v in r.joined && v in r.pages {
      StopKeeps(r, used, v);
      StartKeeps(StopWatching(r, v), used, v, window);
    }
  }

  lemma GrantKeeps(r: Registry, used: set<ViewId>, v: ViewId)
    requires Inv(r, used)
    ensures Inv(Grant(r, v), used)
  {
    if WatchedBy(r, v).Some? {
      var vmId, windowId := r.pages[v].vmId, r.pages[v].watching.value.windowId;
      var r1 := DropControl(r, vmId, windowId);
      assert v in r.joined;
      hide Inv, DropControl;
      DropControlKeeps(r, used, vmId, windowId);
      HolderAdded(r1, used, v, windowId);
    }
  }

  lemma HolderAdded(r: Registry, used: set<ViewId>, v: ViewId, windowId: WindowId)
    requires Inv(r, used) && v in r.joined && v in r.pages && (r.pages[v].vmId, windowId) !in r.control
    ensures Inv(Tell(r.(control := r.control[(r.pages[v].vmId, windowId) := v]), v, Control(windowId, true)), used)
  {
    hide Streams, DesktopOn, Sensible, Believes, WatchersJoined, StreamsAgree, DesktopsAgree, ViewsOk;
    var key, m := (r.pages[v].vmId, windowId), Control(windowId, true);
    var control', told' := r.control[key := v], r.told + [(v, m)];
    ToldOne(r.told, v, m);
    forall k | k in control' ensures Believes(told', control'[k], k.1) {
      if k != key {
        assert control'[k] == r.control[k];
        assert control'[k] == v ==> k.0 == key.0;
      }
    }
  }

  lemma InputKeeps(r: Registry, used: set<ViewId>, v: ViewId)
    requires Inv(r, used)
    ensures Inv(SendInput(r, v), used)
  {
    hide Streams, DesktopOn, Sensible, Believes, HoldersKnow, HoldersJoined;
    if v in r.joined && Controls(r, v) {
      var vmId := r.pages[v].vmId;
      assert Streams(r.log, vmId, v) == TargetOf(r.pages, vmId, v);
      LogEffect(r.log, vmId, Input(v));
      LogSensible(r.log, vmId, Input(v));
    }
  }

  lemma LeaveKeeps(r: Registry, used: set<ViewId>, v: ViewId)
    requires Inv(r, used)
    ensures Inv(Leave(r, v), used)
  {
    if v in r.joined && v in r.pages {
      var r1 := StopWatching(r, v);
      var r2 := r1.(joined := Without(r.joined, {v}), control := LetGo(r.control, v));
      StopKeeps(r, used, v);
      assert r1.joined == r.joined && r1.control == r.control && r1.pages[v].watching.None?;
      hide StopWatching;
      assert Inv(r2, used) by { hide Streams, DesktopOn, Sensible, Believes, StreamsAgree, DesktopsAgree; }
      hide Inv;
      CloseDesktopKeeps(r2, used, v);
    }
  }

  lemma StreamEndedKeeps(r: Registry, used: set<ViewId>, vmId: VmId, v: ViewId)
    requires Inv(r, used)
    ensures Inv(StreamEnded(r, vmId, v), used)
  {
    if v in r.joined && v in r.pages && r.pages[v].vmId == vmId && r.pages[v].watching.Some? {
      var windowId := r.pages[v].watching.value.windowId;
      var r1 := Looking(r, v, None).(control := r.control - {(vmId, windowId)}, log := r.log + [(vmId, Ended(v))]);
      assert Inv(r1, used) by {
        hide Streams, DesktopOn, Sensible, Believes;
        assert Streams(r.log, vmId, v) == TargetOf(r.pages, vmId, v);
        LogEffect(r.log, vmId, Ended(v));
        LogSensible(r.log, vmId, Ended(v));
      }
      hide Streams, DesktopOn, Sensible, Believes, WatchersJoined, StreamsAgree, DesktopsAgree, ViewsOk;
      ToldOne(r.told, v, EndedAt(windowId));
    }
  }

  lemma OpenDesktopKeeps(r: Registry, used: set<ViewId>, v: ViewId, vmId: VmId)
    requires Inv(r, used) && v !in used
    ensures Inv(OpenDesktop(r, v, vmId), used + {v})
  {
    hide Streams, DesktopOn, Sensible, Believes, HoldersKnow, HoldersJoined, WatchersJoined;
    assert CloseDesktop(r, v) == r;
    if vmId in r.connected {
      LogEffect(r.log, vmId, DesktopOpen(v));
      LogSensible(r.log, vmId, DesktopOpen(v));
    }
  }

  lemma DesktopEndedKeeps(r: Registry, used: set<ViewId>, vmId: VmId, v: ViewId)
    requires Inv(r, used)
    ensures Inv(DesktopEnded(r, vmId, v), used)
  {
    hide Streams, DesktopOn, Sensible, Believes, HoldersKnow, HoldersJoined, WatchersJoined;
    if v in r.desktops && r.desktops[v] == vmId {
      LogEffect(r.log, vmId, DesktopClosed(v));
      LogSensible(r.log, vmId, DesktopClosed(v));
    }
  }

  lemma VmClosedKeeps(r: Registry, used: set<ViewId>, vmId: VmId)
    requires Inv(r, used)
    ensures Inv(VmClosed(r, vmId), used)
  {
    hide Streams, DesktopOn, Sensible, Believes;
    LogEffect(r.log, vmId, Gone);
    LogSensible(r.log, vmId, Gone);
  }

  lemma DisconnectKeeps(r: Registry, used: set<ViewId>, vmId: VmId)
    requires Inv(r, used)
    ensures Inv(Disconnect(r, vmId), used)
  {
    VmClosedKeeps(r, used, vmId);
    hide Streams, DesktopOn, Sensible, Believes, HoldersKnow, HoldersJoined, VmClosed, StreamsAgree;
    ClosedIsGone(r, vmId);
  }

  lemma ClosedIsGone(r: Registry, vmId: VmId)
    ensures var r' := VmClosed(r, vmId);
            && (forall v :: v in r'.joined && v in r.pages ==> r.pages[v].vmId != vmId)
            && (forall v :: v in r'.pages && v !in r'.joined && v in r.joined ==> r'.pages[v].watching.None?)
            && (forall v :: v in r'.desktops ==> r'.desktops[v] != vmId)
            && (forall v :: v in r'.pages ==> r'.pages[v].vmId == r.pages[v].vmId)
  {
  }

  lemma ConnectKeeps(r: Registry, used: set<ViewId>, vmId: VmId)
    requires Inv(r, used)
    ensures Inv(Connect(r, vmId), used)
  {
    VmClosedKeeps(r, used, vmId);
    hide Streams, DesktopOn, Sensible, Believes, HoldersKnow, HoldersJoined, VmClosed, StreamsAgree;
    assert VmClosed(r, vmId).connected == r.connected by { ClosedStaysConnected(r, vmId); }
  }

  lemma ClosedStaysConnected(r: Registry, vmId: VmId)
    ensures VmClosed(r, vmId).connected == r.connected
  {
  }

  lemma JoinKeeps(r: Registry, used: set<ViewId>, v: ViewId, vmId: VmId)
    requires Inv(r, used) && v !in used
    ensures Inv(Join(r, v, vmId), used + {v})
  {
    hide Streams, DesktopOn, Sensible, Believes, HoldersKnow;
  }

  // ---------------------------------------------------------------- Release

  /** The windows a release takes back, as long as the first pages are looked at. */
  function Taken(r: Registry, vmId: VmId, owner: Owner, windowId: Option<WindowId>, views: seq<ViewId>): set<Key> {
    set v | v in views && Matching(r, vmId, owner, windowId, v) :: (vmId, r.pages[v].watching.value.windowId)
  }

  /**
   * A release takes back exactly the windows that some page is watching for that
   * owner: no other window changes hands, and nobody stops watching.
   */
  lemma {:induction false} ReleaseEachKeeps(r: Registry, used: set<ViewId>, vmId: VmId, owner: Owner, windowId: Option<WindowId>,
                                            views: seq<ViewId>)
    requires Inv(r, used)
    ensures var r' := ReleaseEach(r, vmId, owner, windowId, views);
            && Inv(r', used) && r'.pages == r.pages && r'.joined == r.joined && r'.connected == r.connected
            && r'.control == r.control - Taken(r, vmId, owner, windowId, views)
    decreases |views|
  {
    if views == [] {
      assert Taken(r, vmId, owner, windowId, views) == {};
    } else {
      var before, v := views[..|views| - 1], views[|views| - 1];
      hide Inv, DropControl;
      ReleaseEachKeeps(r, used, vmId, owner, windowId, before);
      var r1 := ReleaseEach(r, vmId, owner, windowId, before);
      assert Matching(r1, vmId, owner, windowId, v) == Matching(r, vmId, owner, windowId, v);
      TakenOneMore(r, vmId, owner, windowId, views);
      hide Taken;
      if Matching(r, vmId, owner, windowId, v) {
        DropControlKeeps(r1, used, vmId, r.pages[v].watching.value.windowId);
      }
    }
  }

  lemma TakenOneMore(r: Registry, vmId: VmId, owner: Owner, windowId: Option<WindowId>, views: seq<ViewId>)
    requires views != []
    ensures var before, v := Taken(r, vmId, owner, windowId, views[..|views| - 1]), views[|views| - 1];
            r.control - Taken(r, vmId, owner, windowId, views)
            == if Matching(r, vmId, owner, windowId, v) then r.control - before - {(vmId, r.pages[v].watching.value.windowId)}
               else r.control - before
  {
    var before, v := views[..|views| - 1], views[|views| - 1];
    assert views == before + [v];
    var more: set<Key> := if Matching(r, vmId, owner, windowId, v) then {(vmId, r.pages[v].watching.value.windowId)} else {};
    assert Taken(r, vmId, owner, windowId, views) == Taken(r, vmId, owner, windowId, before) + more;
  }

  lemma ReleaseKeeps(r: Registry, used: set<ViewId>, vmId: VmId, owner: Owner, windowId: Option<WindowId>)
    requires Inv(r, used)
    ensures Inv(Release(r, vmId, owner, windowId), used)
  {
    ReleaseEachKeeps(r, used, vmId, owner, windowId, r.joined);
    var r1 := ReleaseEach(r, vmId, owner, windowId, r.joined);
    hide Streams, DesktopOn, Sensible, Believes, HoldersKnow, HoldersJoined, WatchersJoined, ReleaseEach, Taken;
    LogEffect(r1.log, vmId, BrowserRelease(owner));
    LogSensible(r1.log, vmId, BrowserRelease(owner));
  }

  // ---------------------------------------------------------------- Every run

  lemma DoKeeps(r: Registry, used: set<ViewId>, op: Op)
    requires Inv(r, used) && Allowed(r, used, op)
    ensures Inv(Do(r, op), Used(used, op))
  {
    match op
    case Connects(vmId) => hide Inv; ConnectKeeps(r, used, vmId);
    case Closes(vmId) => hide Inv; DisconnectKeeps(r, used, vmId);
    case Joins(v, vmId) => hide Inv; JoinKeeps(r, used, v, vmId);
    case Watches(v, window) => hide Inv; WatchKeeps(r, used, v, window);
    case Grants(v) => hide Inv; GrantKeeps(r, used, v);
    case Acts(v) => hide Inv; InputKeeps(r, used, v);
    case Leaves(v) => hide Inv; LeaveKeeps(r, used, v);
    case Releases(vmId, owner, windowId) => hide Inv; ReleaseKeeps(r, used, vmId, owner, windowId);
    case StreamEnds(vmId, v) => hide Inv; StreamEndedKeeps(r, used, vmId, v);
    case OpensDesktop(v, vmId) => hide Inv; OpenDesktopKeeps(r, used, v, vmId);
    case ClosesDesktop(v) => hide Inv; CloseDesktopKeeps(r, used, v);
    case DesktopEnds(vmId, v) => hide Inv; DesktopEndedKeeps(r, used, vmId, v);
  }

  lemma {:induction false} RunKeeps(r: Registry, used: set<ViewId>, ops: seq<Op>)
    requires Inv(r, used) && Legal(r, used, ops)
    ensures exists used' :: Inv(DoAll(r, ops), used')
    decreases |ops|
  {
    if ops == [] {
      assert Inv(DoAll(r, ops), used);
    } else {
      DoKeeps(r, used, ops[0]);
      hide Inv, Do, Allowed;
      RunKeeps(Do(r, ops[0]), Used(used, ops[0]), ops[1..]);
      var used' :| Inv(DoAll(Do(r, ops[0]), ops[1..]), used');
      assert Inv(DoAll(r, ops), used');
    }
  }

  /** A registry some run leads to, from an empty one. */
  ghost predicate Reached(r: Registry) {
    exists ops :: LeadsTo(ops, r)
  }

  ghost predicate LeadsTo(ops: seq<Op>, r: Registry) {
    Legal(Empty(), {}, ops) && DoAll(Empty(), ops) == r
  }

  lemma ReachedInv(r: Registry) returns (used: set<ViewId>)
    requires Reached(r)
    ensures Inv(r, used)
  {
    var ops :| LeadsTo(ops, r);
    assert Inv(Empty(), {});
    RunKeeps(Empty(), {}, ops);
    used :| Inv(r, used);
  }

  /**
   * In every run: who watches is signed in; who controls a window is signed in on the
   * window's own VM, and was told last that it does.
   */
  lemma ControlIsConsistent(r: Registry)
    requires Reached(r)
    ensures forall v :: WatchedBy(r, v).Some? ==> v in r.joined && r.pages[v].vmId in r.connected
    ensures forall key :: key in r.control ==>
              var v := r.control[key];
              v in r.joined && v in r.pages && r.pages[v].vmId == key.0 && Believes(r.told, v, key.1)
  {
    var used := ReachedInv(r);
    hide Streams, DesktopOn, Sensible, Believes, StreamsAgree, DesktopsAgree;
  }

  /**
   * In every run: a view streams, by the log of what was sent and heard, exactly what
   * its page watches; nothing is started twice without an end, and nothing is stopped
   * or acted on that does not stream.
   */
  lemma StreamsMatchPages(r: Registry)
    requires Reached(r)
    ensures forall vmId: VmId, v: ViewId, t: TargetId ::
              Streams(r.log, vmId, v) == Some(t) <==>
              WatchedBy(r, v).Some? && r.pages[v].vmId == vmId && r.pages[v].watching.value.targetId == t
    ensures forall vmId: VmId, v: ViewId :: DesktopOn(r.log, vmId, v) <==> v in r.desktops && r.desktops[v] == vmId
    ensures Sensible(r.log)
  {
    var used := ReachedInv(r);
    hide Streams, DesktopOn, Sensible, Believes;
    forall vmId: VmId, v: ViewId, t: TargetId
      ensures Streams(r.log, vmId, v) == Some(t) <==>
              WatchedBy(r, v).Some? && r.pages[v].vmId == vmId && r.pages[v].watching.value.targetId == t
    {
      assert Streams(r.log, vmId, v) == TargetOf(r.pages, vmId, v);
    }
  }

  // ---------------------------------------------------------------- Input

  function Inputs(log: seq<(VmId, Event)>): seq<(VmId, ViewId)> {
    if log == [] then []
    else
      var last := log[|log| - 1];
      Inputs(log[..|log| - 1]) + if last.1.Input? then [(last.0, last.1.viewId)] else []
  }

  lemma InputsOne(log: seq<(VmId, Event)>, vmId: VmId, e: Event)
    ensures Inputs(log + [(vmId, e)]) == Inputs(log) + if e.Input? then [(vmId, e.viewId)] else []
  {
    assert (log + [(vmId, e)])[..|log|] == log;
  }

  lemma SendsNoInput(r: Registry, vmId: VmId, e: Event)
    requires !e.Input?
    ensures Inputs(Send(r, vmId, e).log) == Inputs(r.log)
  {
    InputsOne(r.log, vmId, e);
  }

  lemma CloseDesktopSendsNoInput(r: Registry, v: ViewId)
    ensures Inputs(CloseDesktop(r, v).log) == Inputs(r.log)
  {
    if v in r.desktops { InputsOne(r.log, r.desktops[v], DesktopClose(v)); }
  }

  lemma DropControlSendsNoInput(r: Registry, vmId: VmId, windowId: WindowId)
    ensures Inputs(DropControl(r, vmId, windowId).log) == Inputs(r.log)
  {
    hide Inputs, CloseDesktop, Send;
    if (vmId, windowId) in r.control {
      var holder := r.control[(vmId, windowId)];
      var r1 := r.(control := r.control - {(vmId, windowId)});
      var r2 := Tell(r1, holder, Control(windowId, false));
      var watched := WatchedBy(r, holder);
      CloseDesktopSendsNoInput(r1, holder);
      CloseDesktopSendsNoInput(r2, holder);
      if watched.Some? {
        SendsNoInput(r2, vmId, Stop(holder));
        SendsNoInput(Send(r2, vmId, Stop(holder)), vmId, Start(holder, watched.value.targetId));
        CloseDesktopSendsNoInput(Restart(r2, vmId, holder, watched.value.targetId), holder);
      }
    }
  }

  lemma {:induction false} ReleaseSendsNoInput(r: Registry, vmId: VmId, owner: Owner, windowId: Option<WindowId>, views: seq<ViewId>)
    ensures Inputs(ReleaseEach(r, vmId, owner, windowId, views).log) == Inputs(r.log)
    decreases |views|
  {
    if views == [] {
    } else {
      var v, r' := views[|views| - 1], ReleaseEach(r, vmId, owner, windowId, views[..|views| - 1]);
      ReleaseSendsNoInput(r, vmId, owner, windowId, views[..|views| - 1]);
      if Matching(r', vmId, owner, windowId, v) { DropControlSendsNoInput(r', vmId, r'.pages[v].watching.value.windowId); }
    }
  }

  /**
   * Input reaches a VM only when its page acts, and only while that page is signed in,
   * is the one holder of the window it watches, and streams that window.
   */
  lemma OnlyTheHolderActs(r: Registry, used: set<ViewId>, op: Op)
    requires Inv(r, used) && Allowed(r, used, op) && Inputs(Do(r, op).log) != Inputs(r.log)
    ensures op.Acts? && op.viewId in r.joined && Controls(r, op.viewId)
    ensures var page := r.pages[op.viewId];
            && Inputs(Do(r, op).log) == Inputs(r.log) + [(page.vmId, op.viewId)]
            && Streams(r.log, page.vmId, op.viewId) == Some(page.watching.value.targetId)
  {
    if op.Acts? {
      var v := op.viewId;
      assert Controls(r, v);
      InputsOne(r.log, r.pages[v].vmId, Input(v));
      assert Streams(r.log, r.pages[v].vmId, v) == TargetOf(r.pages, r.pages[v].vmId, v);
    } else {
      OthersSendNoInput(r, op);
    }
  }

  lemma ClosingSendsNoInput(r: Registry, vmId: VmId)
    ensures Inputs(Disconnect(r, vmId).log) == Inputs(r.log) && Inputs(Connect(r, vmId).log) == Inputs(r.log)
  {
    InputsOne(r.log, vmId, Gone);
    hide Inputs;
  }

  lemma OthersSendNoInput(r: Registry, op: Op)
    requires !op.Acts?
    ensures Inputs(Do(r, op).log) == Inputs(r.log)
  {
    hide Inputs;
    match op
    case Closes(vmId) => ClosingSendsNoInput(r, vmId);
    case Connects(vmId) => ClosingSendsNoInput(r, vmId);
    case Watches(v, window) =>
      if v in r.joined && v in r.pages {
        SendsNoInput(r, r.pages[v].vmId, Stop(v));
        SendsNoInput(StopWatching(r, v), r.pages[v].vmId, Start(v, window.targetId));
      }
    case Grants(v) =>
      if WatchedBy(r, v).Some? { DropControlSendsNoInput(r, r.pages[v].vmId, r.pages[v].watching.value.windowId); }
      hide DropControl;
    case Leaves(v) =>
      if v in r.joined && v in r.pages {
        SendsNoInput(r, r.pages[v].vmId, Stop(v));
        CloseDesktopSendsNoInput(StopWatching(r, v).(joined := Without(r.joined, {v}), control := LetGo(r.control, v)), v);
        hide CloseDesktop;
      }
    case Releases(vmId, owner, windowId) =>
      ReleaseSendsNoInput(r, vmId, owner, windowId, r.joined);
      SendsNoInput(ReleaseEach(r, vmId, owner, windowId, r.joined), vmId, BrowserRelease(owner));
    case StreamEnds(vmId, v) => InputsOne(r.log, vmId, Ended(v));
    case OpensDesktop(v, vmId) =>
      CloseDesktopSendsNoInput(r, v);
      SendsNoInput(CloseDesktop(r, v), vmId, DesktopOpen(v));
      hide CloseDesktop;
    case ClosesDesktop(v) => CloseDesktopSendsNoInput(r, v);
    case DesktopEnds(vmId, v) => InputsOne(r.log, vmId, DesktopClosed(v));
    case _ =>
  }

  // ---------------------------------------------------------------- Losing control

  predicate Holds(r: Registry, v: ViewId, key: Key) {
    key in r.control && r.control[key] == v
  }

  /** Dropping control of a window changes nothing else that anyone believes. */
  lemma DropControlTells(r: Registry, used: set<ViewId>, vmId: VmId, windowId: WindowId)
    requires Inv(r, used)
    ensures var r', key := DropControl(r, vmId, windowId), (vmId, windowId);
            forall v, w ::
              Believes(r'.told, v, w) == if Holds(r, v, key) && w == windowId then false else Believes(r.told, v, w)
  {
    var key := (vmId, windowId);
    hide Streams, DesktopOn, Sensible, Believes, StreamsAgree, DesktopsAgree;
    if key in r.control { ToldOne(r.told, r.control[key], Control(windowId, false)); }
  }

  lemma {:induction false} ReleaseTells(r: Registry, used: set<ViewId>, vmId: VmId, owner: Owner, windowId: Option<WindowId>,
                                        views: seq<ViewId>, v: ViewId, key: Key)
    requires Inv(r, used) && Holds(r, v, key)
    ensures var r' := ReleaseEach(r, vmId, owner, windowId, views);
            Holds(r', v, key) || !Believes(r'.told, v, key.1)
    decreases |views|
  {
    hide Inv, DropControl, Believes;
    if views == [] {
    } else {
      var before, last := views[..|views| - 1], views[|views| - 1];
      var r1 := ReleaseEach(r, vmId, owner, windowId, before);
      ReleaseTells(r, used, vmId, owner, windowId, before, v, key);
      ReleaseEachKeeps(r, used, vmId, owner, windowId, before);
      if Matching(r1, vmId, owner, windowId, last) { DropTells(r1, used, vmId, r1.pages[last].watching.value.windowId, v, key); }
    }
  }

  lemma DropTells(r: Registry, used: set<ViewId>, vmId: VmId, windowId: WindowId, v: ViewId, key: Key)
    requires Inv(r, used) && (Holds(r, v, key) || !Believes(r.told, v, key.1))
    ensures var r' := DropControl(r, vmId, windowId); Holds(r', v, key) || !Believes(r'.told, v, key.1)
  {
    hide Inv, DropControl, Believes;
    DropControlKeeps(r, used, vmId, windowId);
    DropControlTells(r, used, vmId, windowId);
  }

  lemma GrantTells(r: Registry, used: set<ViewId>, v': ViewId, v: ViewId, key: Key)
    requires Inv(r, used) && Holds(r, v, key)
    ensures Holds(Grant(r, v'), v, key) || !Believes(Grant(r, v').told, v, key.1)
  {
    hide Inv, DropControl, Believes;
    if WatchedBy(r, v').Some? {
      var w := r.pages[v'].watching.value.windowId;
      DropControlKeeps(r, used, r.pages[v'].vmId, w);
      DropControlTells(r, used, r.pages[v'].vmId, w);
      ToldOne(DropControl(r, r.pages[v'].vmId, w).told, v', Control(w, true));
    }
  }

  /**
   * A page that loses a window and stays signed in is told so, with one exception:
   * the window's control also goes when another page's stream of it ends, and then
   * its holder hears nothing.
   */
  lemma LoserIsTold(r: Registry, used: set<ViewId>, op: Op, v: ViewId, key: Key)
    requires Inv(r, used) && Allowed(r, used, op) && Holds(r, v, key)
    requires v in Do(r, op).joined && !Holds(Do(r, op), v, key)
    ensures Believes(Do(r, op).told, v, key.1) <==> op.StreamEnds? && op.viewId != v
  {
    hide Inv, Believes, DropControl;
    HolderIs(r, used, v, key);
    match op
    case Grants(v') =>
      GrantTells(r, used, v', v, key);
    case Releases(vmId, owner, windowId) =>
      ReleaseTells(r, used, vmId, owner, windowId, r.joined, v, key);
    case StreamEnds(vmId, v') =>
      ToldOne(r.told, v', EndedAt(key.1));
    case Connects(_) =>
    case Closes(_) =>
    case Leaves(_) =>
    case _ =>
      ControlSame(r, op);
      hide Do;
  }

  lemma ControlSame(r: Registry, op: Op)
    requires !op.Grants? && !op.Releases? && !op.StreamEnds? && !op.Connects? && !op.Closes? && !op.Leaves?
    ensures Do(r, op).control == r.control
  {
  }

  lemma HolderIs(r: Registry, used: set<ViewId>, v: ViewId, key: Key)
    requires Inv(r, used) && Holds(r, v, key)
    ensures v in r.joined && v in r.pages && r.pages[v].vmId == key.0 && Believes(r.told, v, key.1)
  {
    hide Streams, DesktopOn, Sensible, Believes, StreamsAgree, DesktopsAgree;
  }

  // ---------------------------------------------------------------- A holder who is not told

  const WINDOW := Watched(5, 9, 3)

  /** Two pages watch one window, and the first has it in hand. */
  function TwoPages(): seq<Op> {
    [Connects(1), Joins(0, 1), Joins(1, 1), Watches(0, WINDOW), Watches(1, WINDOW), Grants(0)]
  }

  function TwoPagesState(k: nat): Registry {
    var page, looking := Page(1, None), Page(1, Some(WINDOW));
    var r1 := Registry(map[], [], map[], map[], {1}, [], []);
    var starts: seq<(VmId, Event)> := [(1, Start(0, 9)), (1, Start(1, 9))];
    var tells := [(0, Watching(5, false)), (1, Watching(5, false)), (0, Control(5, true))];
    match k
    case 0 => Empty()
    case 1 => r1
    case 2 => r1.(pages := map[0 := page], joined := [0])
    case 3 => r1.(pages := map[0 := page, 1 := page], joined := [0, 1])
    case 4 => r1.(pages := map[0 := looking, 1 := page], joined := [0, 1], log := starts[..1], told := tells[..1])
    case 5 => r1.(pages := map[0 := looking, 1 := looking], joined := [0, 1], log := starts, told := tells[..2])
    case _ => r1.(pages := map[0 := looking, 1 := looking], joined := [0, 1], log := starts, told := tells, control := map[(1, 5) := 0])
  }

  function TwoPagesUsed(k: nat): set<ViewId> {
    if k < 2 then {} else if k == 2 then {0} else {0, 1}
  }

  ghost predicate TwoPagesLead(k: nat)
    requires k < 6
  {
    && Allowed(TwoPagesState(k), TwoPagesUsed(k), TwoPages()[k])
    && Do(TwoPagesState(k), TwoPages()[k]) == TwoPagesState(k + 1)
    && Used(TwoPagesUsed(k), TwoPages()[k]) == TwoPagesUsed(k + 1)
  }

  lemma PagesSignIn(k: nat)
    requires k < 3
    ensures TwoPagesLead(k)
  {
  }

  lemma FirstWatches()
    ensures TwoPagesLead(3)
  {
  }

  lemma SecondWatches()
    ensures TwoPagesLead(4)
  {
  }

  lemma FirstTakesIt()
    ensures TwoPagesLead(5)
  {
  }

  lemma TwoPagesStep(k: nat)
    requires k < 6
    ensures TwoPagesLead(k)
  {
    hide TwoPagesLead;
    match k
    case 3 => FirstWatches();
    case 4 => SecondWatches();
    case 5 => FirstTakesIt();
    case _ => PagesSignIn(k);
  }

  lemma Prepend(r: Registry, used: set<ViewId>, op: Op, rest: seq<Op>)
    requires Allowed(r, used, op) && Legal(Do(r, op), Used(used, op), rest)
    ensures Legal(r, used, [op] + rest) && DoAll(r, [op] + rest) == DoAll(Do(r, op), rest)
  {
    assert ([op] + rest)[1..] == rest;
  }

  /** The second page's stream ends: the first has lost the window, and still believes it holds it. */
  lemma HolderIsNotTold() returns (r: Registry, op: Op, v: ViewId, key: Key)
    ensures Reached(r) && Holds(r, v, key) && Allowed(r, TwoPagesUsed(6), op)
    ensures v in Do(r, op).joined && !Holds(Do(r, op), v, key) && Believes(Do(r, op).told, v, key.1)
  {
    var ops: seq<Op> := [];
    for k := 6 downto 0
      invariant Legal(TwoPagesState(k), TwoPagesUsed(k), ops) && DoAll(TwoPagesState(k), ops) == TwoPagesState(6)
    {
      TwoPagesStep(k);
      hide TwoPagesState, TwoPages, Allowed, Do, Used, TwoPagesUsed;
      Prepend(TwoPagesState(k), TwoPagesUsed(k), TwoPages()[k], ops);
      ops := [TwoPages()[k]] + ops;
    }
    r, op, v, key := TwoPagesState(6), StreamEnds(1, 1), 0, (1, 5);
    assert LeadsTo(ops, r);
    ToldOne(r.told[..2], 0, Control(5, true));
    assert r.told[..2] + [(0, Control(5, true))] == r.told;
    ToldOne(r.told, 1, EndedAt(5));
  }

  // ---------------------------------------------------------------- The registry as it is kept

  // ---------------------------------------------------------------- What each operation comes to

  /** Nobody controls the window any more; who did is told, and its stream of that window starts over. */
  ghost predicate Dropped(r: Registry, r': Registry, vmId: VmId, windowId: WindowId) {
    var key := (vmId, windowId);
    && (r'.pages, r'.joined, r'.desktops, r'.connected) == (r.pages, r.joined, r.desktops, r.connected)
    && r'.control == r.control - {key}
    && if key !in r.control then r'.told == r.told && r'.log == r.log
       else
         var holder := r.control[key];
         && holder in r.pages && r'.told == r.told + [(holder, Control(windowId, false))]
         && r'.log == r.log + match r.pages[holder].watching {
              case Some(window) => if window.windowId == windowId then [(vmId, Stop(holder)), (vmId, Start(holder, window.targetId))] else []
              case None => []
            }
  }

  /** A page signed in watches the window, or nothing where the VM is gone, and is told of it and whether it has control. */
  ghost predicate NowWatches(r: Registry, r': Registry, v: ViewId, window: Watched) {
    if v !in r.joined then r' == r
    else
      && v in r.pages
      && var vmId := r.pages[v].vmId;
      && (r'.joined, r'.control, r'.desktops, r'.connected) == (r.joined, r.control, r.desktops, r.connected)
      && if vmId !in r.connected then r'.pages == r.pages && r.pages[v].watching == None && r'.log == r.log && r'.told == r.told
         else
           && r'.pages == r.pages[v := Page(vmId, Some(window))]
           && r'.log == r.log + (if r.pages[v].watching.Some? then [(vmId, Stop(v))] else []) + [(vmId, Start(v, window.targetId))]
           && r'.told == r.told + [(v, Message.Watching(window.windowId,
                                                        (vmId, window.windowId) in r.control && r.control[(vmId, window.windowId)] == v))]
  }

  /** The window the page watches is its own from then on: it is told so, and whoever had it that it is not theirs. */
  ghost predicate Granted(r: Registry, r': Registry, v: ViewId) {
    && (r'.pages, r'.joined, r'.desktops, r'.connected) == (r.pages, r.joined, r.desktops, r.connected)
    && if v !in r.pages || r.pages[v].watching.None? then r' == r
       else
         var windowId := r.pages[v].watching.value.windowId;
         var key := (r.pages[v].vmId, windowId);
         && r'.control == r.control[key := v]
         && if key in r.control && r.control[key] == v then r' == r
            else if key in r.control then r'.told == r.told + [(r.control[key], Control(windowId, false))] + [(v, Control(windowId, true))]
            else r'.told == r.told + [(v, Control(windowId, true))] && r'.log == r.log
  }

  /** A page signed out watches nothing and holds nothing; no other page notices. */
  ghost predicate Left(r: Registry, r': Registry, v: ViewId) {
    if v !in r.joined then r' == r
    else
      && v in r.pages && (r'.told, r'.connected, r'.desktops) == (r.told, r.connected, r.desktops)
      && (forall x :: x in r'.joined <==> x in r.joined && x != v)
      && r'.pages == r.pages[v := Page(r.pages[v].vmId, None)]
      && (forall key :: key in r'.control <==> key in r.control && r.control[key] != v)
      && (forall key <- r'.control :: r'.control[key] == r.control[key])
      && r'.log == r.log + if r.pages[v].watching.Some? then [(r.pages[v].vmId, Stop(v))] else []
  }

  /** The windows that some page signed in watches for the owner are nobody's, all of them or the one asked for; no other window is touched. */
  ghost predicate Released(r: Registry, r': Registry, vmId: VmId, owner: Owner, windowId: Option<WindowId>) {
    && (r'.pages, r'.joined, r'.connected) == (r.pages, r.joined, r.connected)
    && (forall key :: key in r'.control <==> key in r.control && !ReleasedKey(r, vmId, owner, windowId, key))
    && (forall key <- r'.control :: r'.control[key] == r.control[key])
    && (vmId in r.connected ==> r'.log != [] && r'.log[|r'.log| - 1] == (vmId, BrowserRelease(owner)))
  }

  ghost predicate ReleasedKey(r: Registry, vmId: VmId, owner: Owner, windowId: Option<WindowId>, key: Key) {
    && key.0 == vmId && (windowId == None || windowId == Some(key.1))
    && exists v :: v in r.joined && v in r.pages && r.pages[v].vmId == vmId && r.pages[v].watching.Some?
                   && r.pages[v].watching.value.owner == owner && r.pages[v].watching.value.windowId == key.1
  }

  /** The page watches nothing, is told so, and the window it watched is nobody's. */
  ghost predicate StreamOver(r: Registry, r': Registry, vmId: VmId, v: ViewId) {
    if v !in r.pages || r.pages[v].vmId != vmId || r.pages[v].watching.None? then r' == r
    else
      var windowId := r.pages[v].watching.value.windowId;
      && (r'.joined, r'.desktops, r'.connected) == (r.joined, r.desktops, r.connected)
      && r'.pages == r.pages[v := Page(vmId, None)] && r'.control == r.control - {(vmId, windowId)}
      && r'.told == r.told + [(v, EndedAt(windowId))] && r'.log == r.log + [(vmId, Ended(v))]
  }

  /** What a VM that went away leaves: its pages signed out, its windows nobody's, its desktops closed, and nobody told. */
  ghost predicate WithoutVm(r: Registry, r': Registry, vmId: VmId) {
    && r'.told == r.told && r'.log == r.log + [(vmId, Gone)]
    && r'.pages.Keys == r.pages.Keys
    && (forall v <- r.pages :: r'.pages[v] == if v in r.joined && r.pages[v].vmId == vmId then Page(vmId, None) else r.pages[v])
    && (forall v :: v in r'.joined <==> v in r.joined && !(v in r.pages && r.pages[v].vmId == vmId))
    && (forall key :: key in r'.control <==> key in r.control && key.0 != vmId)
    && (forall key <- r'.control :: r'.control[key] == r.control[key])
    && (forall v :: v in r'.desktops <==> v in r.desktops && r.desktops[v] != vmId)
    && (forall v <- r'.desktops :: r'.desktops[v] == r.desktops[v])
  }

  lemma DropComesTo(r: Registry, used: set<ViewId>, vmId: VmId, windowId: WindowId)
    requires Inv(r, used)
    ensures Dropped(r, DropControl(r, vmId, windowId), vmId, windowId)
  {
    hide Streams, DesktopOn, Sensible, Believes, StreamsAgree, DesktopsAgree, HoldersKnow;
    if (vmId, windowId) in r.control {
      var holder := r.control[(vmId, windowId)];
      assert holder in r.joined && holder !in r.desktops;
    }
  }

  lemma WatchComesTo(r: Registry, used: set<ViewId>, v: ViewId, window: Watched)
    requires Inv(r, used)
    ensures NowWatches(r, Watch(r, v, window), v, window)
  {
    hide Streams, DesktopOn, Sensible, Believes, StreamsAgree, DesktopsAgree, HoldersKnow;
  }

  lemma GrantComesTo(r: Registry, used: set<ViewId>, v: ViewId)
    requires Inv(r, used)
    ensures Granted(r, Grant(r, v), v)
  {
    if WatchedBy(r, v).Some? { DropComesTo(r, used, r.pages[v].vmId, r.pages[v].watching.value.windowId); }
    hide Inv, DropControl;
  }

  lemma LeaveComesTo(r: Registry, used: set<ViewId>, v: ViewId)
    requires Inv(r, used)
    ensures Left(r, Leave(r, v), v)
  {
    hide Streams, DesktopOn, Sensible, Believes, StreamsAgree, DesktopsAgree, HoldersKnow;
  }

  lemma ReleaseComesTo(r: Registry, used: set<ViewId>, vmId: VmId, owner: Owner, windowId: Option<WindowId>)
    requires Inv(r, used)
    ensures Released(r, Release(r, vmId, owner, windowId), vmId, owner, windowId)
  {
    hide Inv, ReleaseEach;
    ReleaseEachKeeps(r, used, vmId, owner, windowId, r.joined);
    forall key: Key | key in r.control
      ensures key in Taken(r, vmId, owner, windowId, r.joined) <==> ReleasedKey(r, vmId, owner, windowId, key)
    {
      if ReleasedKey(r, vmId, owner, windowId, key) {
        var v :| v in r.joined && v in r.pages && r.pages[v].vmId == vmId && r.pages[v].watching.Some?
                 && r.pages[v].watching.value.owner == owner && r.pages[v].watching.value.windowId == key.1;
        assert Matching(r, vmId, owner, windowId, v);
      }
    }
    hide Taken, ReleasedKey;
  }

  lemma StreamEndedComesTo(r: Registry, used: set<ViewId>, vmId: VmId, v: ViewId)
    requires Inv(r, used)
    ensures StreamOver(r, StreamEnded(r, vmId, v), vmId, v)
  {
    hide Streams, DesktopOn, Sensible, Believes, StreamsAgree, DesktopsAgree, HoldersKnow;
  }

  lemma GoneComesTo(r: Registry, vmId: VmId)
    ensures WithoutVm(r, VmClosed(r, vmId), vmId)
  {
  }

  class LiveViews {
    var pages: map<ViewId, Page>
    var joined: seq<ViewId>
    var control: map<Key, ViewId>
    var desktops: map<ViewId, VmId>
    var connected: set<VmId>
    var log: seq<(VmId, Event)>
    var told: seq<(ViewId, Message)>
    /** The view ids made so far. */
    ghost var used: set<ViewId>

    function Contents(): Registry
      reads this
    {
      Registry(pages, joined, control, desktops, connected, log, told)
    }

    /** Who watches and who controls is consistent, and the VMs stream exactly what is watched. */
    ghost predicate Valid()
      reads this
    {
      Inv(Contents(), used)
    }

    constructor ()
      ensures Contents() == Empty() && used == {} && Valid()
    {
      pages, joined, control, desktops, connected, log, told := map[], [], map[], map[], {}, [], [];
      used := {};
    }

    method SendFrame(vmId: VmId, e: Event) returns (sent: bool)
      modifies this`log
      ensures Contents() == Send(old(Contents()), vmId, e) && sent == (vmId in connected)
    {
      sent := vmId in connected;
      if sent {
        log := log + [(vmId, e)];
      }
    }

    /** Whatever was open at this view is not any more, on any VM. */
    method CloseFullDesktop(viewId: ViewId)
      modifies this`desktops, this`log
      ensures Contents() == CloseDesktop(old(Contents()), viewId)
      ensures old(Valid()) ==> Valid() && forall vmId :: !DesktopOn(log, vmId, viewId)
    {
      ghost var r, ids := Contents(), used;
      if Inv(r, ids) { DesktopIsClosed(r, ids, viewId); }
      hide Inv, DesktopOn;
      if viewId !in desktops {
        return;
      }
      var vmId := desktops[viewId];
      desktops := desktops - {viewId};
      var _ := SendFrame(vmId, DesktopClose(viewId));
    }

    /** Whatever streamed to this page does not any more, on any VM. */
    method StopStream(viewId: ViewId)
      requires viewId in pages
      modifies this`pages, this`log
      ensures Contents() == StopWatching(old(Contents()), viewId)
      ensures old(Valid()) ==> Valid() && forall vmId :: Streams(log, vmId, viewId).None?
    {
      ghost var r, ids := Contents(), used;
      if Inv(r, ids) { StreamIsStopped(r, ids, viewId); }
      hide Inv, Streams;
      if pages[viewId].watching.None? {
        return;
      }
      var _ := SendFrame(pages[viewId].vmId, Stop(viewId));
      pages := pages[viewId := pages[viewId].(watching := None)];
    }

    /** That window alone is free, its holder knows, nobody stops watching and no desktop closes. */
    method DropWindow(vmId: VmId, windowId: WindowId)
      requires Valid()
      modifies this`control, this`desktops, this`log, this`told
      ensures Contents() == DropControl(old(Contents()), vmId, windowId) && Valid()
      ensures Dropped(old(Contents()), Contents(), vmId, windowId)
      ensures control == old(control) - {(vmId, windowId)} && desktops == old(desktops)
      ensures forall v, w ::
                Believes(told, v, w) == if old(Holds(Contents(), v, (vmId, windowId))) && w == windowId then false else old(Believes(told, v, w))
    {
      DropControlKeeps(Contents(), used, vmId, windowId);
      DropControlTells(Contents(), used, vmId, windowId);
      DropComesTo(Contents(), used, vmId, windowId);
      hide Inv, Believes, CloseDesktop, Dropped;
      if (vmId, windowId) !in control {
        return;
      }
      var holder := control[(vmId, windowId)];
      control := control - {(vmId, windowId)};
      if holder in joined {
        told := told + [(holder, Control(windowId, false))];
        if holder in pages && pages[holder].watching.Some? && pages[holder].watching.value.windowId == windowId {
          var _ := SendFrame(vmId, Stop(holder));
          var _ := SendFrame(vmId, Start(holder, pages[holder].watching.value.targetId));
        }
      }
      CloseFullDesktop(holder);
    }

    method WatchWindow(viewId: ViewId, window: Watched)
      requires Valid()
      modifies this
      ensures Contents() == Watch(old(Contents()), viewId, window) && Valid()
      ensures NowWatches(old(Contents()), Contents(), viewId, window)
    {
      WatchKeeps(Contents(), used, viewId, window);
      WatchComesTo(Contents(), used, viewId, window);
      hide Inv, Streams, NowWatches;
      if viewId !in joined || viewId !in pages {
        return;
      }
      StopStream(viewId);
      pages := pages[viewId := pages[viewId].(watching := Some(window))];
      var started := SendFrame(pages[viewId].vmId, Start(viewId, window.targetId));
      if !started {
        pages := pages[viewId := pages[viewId].(watching := None)];
        return;
      }
      told := told + [(viewId, Watching(window.windowId, Controls(Contents(), viewId)))];
    }

    method GrantControl(viewId: ViewId)
      requires Valid()
      modifies this
      ensures Contents() == Grant(old(Contents()), viewId) && Valid()
      ensures Granted(old(Contents()), Contents(), viewId)
    {
      GrantKeeps(Contents(), used, viewId);
      GrantComesTo(Contents(), used, viewId);
      hide Inv, Believes, DropControl, Granted, Dropped;
      if viewId !in pages || pages[viewId].watching.None? {
        return;
      }
      var windowId := pages[viewId].watching.value.windowId;
      var key := (pages[viewId].vmId, windowId);
      if key in control && control[key] == viewId {
        return;
      }
      NothingToDrop(Contents(), key.0, windowId);
      if key in control {
        DropWindow(key.0, windowId);
      }
      control := control[key := viewId];
      told := told + [(viewId, Control(windowId, true))];
    }

    /** Input goes to the VM exactly if the page is signed in, holds its window and streams it there. */
    method InputFrom(viewId: ViewId)
      requires Valid()
      modifies this`log
      ensures Contents() == SendInput(old(Contents()), viewId) && Valid()
      ensures viewId in joined && Controls(Contents(), viewId) ==>
                var vmId := pages[viewId].vmId;
                log == old(log) + [(vmId, Input(viewId))] && old(Streams(log, vmId, viewId)).Some?
      ensures !(viewId in joined && Controls(Contents(), viewId)) ==> log == old(log)
    {
      InputKeeps(Contents(), used, viewId);
      if viewId in joined && Controls(Contents(), viewId) { WatchedStreams(Contents(), used, viewId); }
      hide Inv, Streams;
      if viewId !in joined || !Controls(Contents(), viewId) {
        return;
      }
      var _ := SendFrame(pages[viewId].vmId, Input(viewId));
    }

    /** Gives an owner's windows, or one of them, back to Winston. */
    method ReleaseWindows(vmId: VmId, owner: Owner, windowId: Option<WindowId>) returns (sent: bool)
      requires Valid()
      modifies this`control, this`desktops, this`log, this`told
      ensures Contents() == Release(old(Contents()), vmId, owner, windowId) && sent == (vmId in connected) && Valid()
      ensures Released(old(Contents()), Contents(), vmId, owner, windowId)
    {
      ReleaseKeeps(Contents(), used, vmId, owner, windowId);
      ReleaseComesTo(Contents(), used, vmId, owner, windowId);
      hide Inv, Believes, DropControl, Released, Dropped, ReleaseEach;
      assert joined[..0] == [];
      ReleaseNone(Contents(), vmId, owner, windowId);
      for k := 0 to |joined|
        invariant Contents() == ReleaseEach(old(Contents()), vmId, owner, windowId, joined[..k]) && Valid()
      {
        ReleaseOneMore(old(Contents()), vmId, owner, windowId, joined, k);
        if Matching(Contents(), vmId, owner, windowId, joined[k]) {
          DropWindow(vmId, pages[joined[k]].watching.value.windowId);
        }
      }
      assert joined[..|joined|] == joined;
      sent := SendFrame(vmId, BrowserRelease(owner));
    }

    /** Signs a page out, with whatever it watched or held. */
    method Disconnected(viewId: ViewId)
      requires Valid()
      modifies this
      ensures Contents() == Leave(old(Contents()), viewId) && Valid()
      ensures Left(old(Contents()), Contents(), viewId)
    {
      LeaveKeeps(Contents(), used, viewId);
      LeaveComesTo(Contents(), used, viewId);
      hide Inv, Streams, DesktopOn, Left;
      if viewId !in joined || viewId !in pages {
        return;
      }
      joined := Without(joined, {viewId});
      StopStream(viewId);
      LetGoOf(viewId);
      CloseFullDesktop(viewId);
    }

    /** The loop over the windows a page may hold. */
    method LetGoOf(viewId: ViewId)
      modifies this`control
      ensures control == LetGo(old(control), viewId)
    {
      var rest := control.Keys;
      while rest != {}
        modifies this`control
        invariant rest <= control.Keys
        invariant forall key :: key in control <==> key in old(control) && (key in rest || old(control)[key] != viewId)
        invariant forall key :: key in control ==> control[key] == old(control)[key]
      {
        var key :| key in rest;
        rest := rest - {key};
        if control[key] == viewId {
          control := control - {key};
        }
      }
    }

    /** The page's stream is over and the window it watched is free, whoever held it. */
    method HandleEnded(vmId: VmId, viewId: ViewId)
      requires Valid()
      modifies this
      ensures Contents() == StreamEnded(old(Contents()), vmId, viewId) && Valid()
      ensures StreamOver(old(Contents()), Contents(), vmId, viewId)
      ensures Streams(log, vmId, viewId).None?
    {
      StreamEndedKeeps(Contents(), used, vmId, viewId);
      EndedIsOver(Contents(), used, vmId, viewId);
      StreamEndedComesTo(Contents(), used, vmId, viewId);
      hide Inv, Streams, StreamOver;
      if viewId !in joined || viewId !in pages || pages[viewId].vmId != vmId || pages[viewId].watching.None? {
        return;
      }
      var windowId := pages[viewId].watching.value.windowId;
      pages := pages[viewId := pages[viewId].(watching := None)];
      control := control - {(vmId, windowId)};
      log := log + [(vmId, Ended(viewId))];
      told := told + [(viewId, EndedAt(windowId))];
    }

    method OpenFullDesktop(viewId: ViewId, vmId: VmId)
      requires Valid() && viewId !in used
      modifies this`desktops, this`log, this`used
      ensures Contents() == OpenDesktop(old(Contents()), viewId, vmId) && used == old(used) + {viewId} && Valid()
      ensures vmId in connected ==> desktops == old(desktops)[viewId := vmId] && log == old(log) + [(vmId, DesktopOpen(viewId))]
      ensures vmId !in connected ==> desktops == old(desktops) && log == old(log)
    {
      OpenDesktopKeeps(Contents(), used, viewId, vmId);
      assert viewId !in desktops;
      hide Inv, DesktopOn;
      used := used + {viewId};
      CloseFullDesktop(viewId);
      desktops := desktops[viewId := vmId];
      var sent := SendFrame(vmId, DesktopOpen(viewId));
      if !sent {
        desktops := desktops - {viewId};
        assert desktops == CloseDesktop(old(Contents()), viewId).desktops;
      }
    }

    /** A VM connects, and takes the place of the socket it had. */
    method VmConnected(vmId: VmId)
      requires Valid()
      modifies this
      ensures Contents() == Connect(old(Contents()), vmId) && used == old(used) && Valid()
      ensures connected == old(connected) + {vmId}
      ensures if vmId in old(connected) then WithoutVm(old(Contents()), Contents(), vmId)
              else Contents() == old(Contents()).(connected := connected)
    {
      ConnectKeeps(Contents(), used, vmId);
      ClosedStaysConnected(Contents(), vmId);
      hide Inv, VmClosed, WithoutVm;
      var replaced := vmId in connected;
      connected := connected + {vmId};
      if replaced {
        assert connected == old(connected);
        VmGone(vmId);
      }
    }

    method VmDisconnected(vmId: VmId)
      requires Valid()
      modifies this
      ensures Contents() == Disconnect(old(Contents()), vmId) && used == old(used) && Valid()
      ensures connected == old(connected) - {vmId} && WithoutVm(old(Contents()), Contents(), vmId)
    {
      DisconnectKeeps(Contents(), used, vmId);
      ClosedAlone(Contents(), connected - {vmId}, vmId);
      GoneComesTo(Contents(), vmId);
      hide Inv, VmClosed;
      connected := connected - {vmId};
      VmGone(vmId);
    }

    /** A VM's socket closed: its pages are signed out, and nobody controls its windows. */
    method VmGone(vmId: VmId)
      modifies this`pages, this`joined, this`control, this`desktops, this`log
      ensures Contents() == VmClosed(old(Contents()), vmId) && WithoutVm(old(Contents()), Contents(), vmId)
    {
      GoneComesTo(Contents(), vmId);
      log := log + [(vmId, Gone)];
      SignOut(vmId);
      FreeWindows(vmId);
      var views := desktops.Keys;
      while views != {}
        modifies this`desktops
        invariant views <= desktops.Keys
        invariant forall v :: v in desktops <==> v in old(desktops) && (v in views || old(desktops)[v] != vmId)
        invariant forall v :: v in desktops ==> desktops[v] == old(desktops)[v]
      {
        var v :| v in views;
        views := views - {v};
        if desktops[v] == vmId {
          desktops := desktops - {v};
        }
      }
      ghost var after := VmClosed(old(Contents()), vmId);
      assert control == after.control && desktops == after.desktops;
      hide WithoutVm;
    }

    /** The loop over the windows of a VM that went away. */
    method FreeWindows(vmId: VmId)
      modifies this`control
      ensures control == map key | key in old(control) && key.0 != vmId :: old(control)[key]
    {
      var keys := control.Keys;
      while keys != {}
        modifies this`control
        invariant keys <= control.Keys
        invariant forall key :: key in control <==> key in old(control) && (key in keys || key.0 != vmId)
        invariant forall key :: key in control ==> control[key] == old(control)[key]
      {
        var key :| key in keys;
        keys := keys - {key};
        if key.0 == vmId {
          control := control - {key};
        }
      }
    }

    /** The loop over the pages of a VM that went away. */
    method SignOut(vmId: VmId)
      modifies this`pages, this`joined
      ensures pages == VmClosed(old(Contents()), vmId).pages
      ensures joined == VmClosed(old(Contents()), vmId).joined
    {
      for k := 0 to |joined|
        invariant joined == old(joined) && pages.Keys == old(pages).Keys
        invariant forall v :: v in pages ==>
                    pages[v] == if v in joined[..k] && old(pages)[v].vmId == vmId then Page(vmId, None) else old(pages)[v]
      {
        var v := joined[k];
        assert forall x :: x in joined[..k + 1] <==> x in joined[..k] || x == v;
        if v in pages && pages[v].vmId == vmId {
          pages := pages[v := pages[v].(watching := None)];
        }
      }
      assert joined[..|joined|] == joined;
      assert pages == VmClosed(old(Contents()), vmId).pages;
      joined := Without(joined, PagesOn(pages, vmId));
      assert PagesOn(pages, vmId) == PagesOn(old(pages), vmId);
    }
  }

  lemma ClosedAlone(r: Registry, connected: set<VmId>, vmId: VmId)
    ensures VmClosed(r.(connected := connected), vmId) == VmClosed(r, vmId).(connected := connected)
  {
  }

  lemma ReleaseNone(r: Registry, vmId: VmId, owner: Owner, windowId: Option<WindowId>)
    ensures ReleaseEach(r, vmId, owner, windowId, []) == r
  {
  }

  lemma ReleaseOneMore(r: Registry, vmId: VmId, owner: Owner, windowId: Option<WindowId>, views: seq<ViewId>, k: nat)
    requires k < |views|
    ensures var r' := ReleaseEach(r, vmId, owner, windowId, views[..k]);
            ReleaseEach(r, vmId, owner, windowId, views[..k + 1])
            == if Matching(r', vmId, owner, windowId, views[k]) then DropControl(r', vmId, r'.pages[views[k]].watching.value.windowId) else r'
  {
    assert views[..k + 1][..k] == views[..k];
  }

  lemma NothingToDrop(r: Registry, vmId: VmId, windowId: WindowId)
    ensures (vmId, windowId) !in r.control ==> DropControl(r, vmId, windowId) == r
  {
  }

  lemma DesktopIsClosed(r: Registry, used: set<ViewId>, v: ViewId)
    requires Inv(r, used)
    ensures var r' := CloseDesktop(r, v); Inv(r', used) && forall vmId :: !DesktopOn(r'.log, vmId, v)
  {
    CloseDesktopKeeps(r, used, v);
    hide DesktopOn, Streams, Sensible;
  }

  lemma StreamIsStopped(r: Registry, used: set<ViewId>, v: ViewId)
    requires Inv(r, used) && v in r.pages
    ensures var r' := StopWatching(r, v); Inv(r', used) && forall vmId :: Streams(r'.log, vmId, v).None?
  {
    var r' := StopWatching(r, v);
    StopKeeps(r, used, v);
    hide DesktopOn, Streams, Sensible;
    forall vmId: VmId ensures Streams(r'.log, vmId, v).None? {
      assert Streams(r'.log, vmId, v) == TargetOf(r'.pages, vmId, v);
    }
  }

  lemma EndedIsOver(r: Registry, used: set<ViewId>, vmId: VmId, v: ViewId)
    requires Inv(r, used)
    ensures Streams(StreamEnded(r, vmId, v).log, vmId, v).None?
    ensures WatchedBy(r, v).Some? ==> v in r.joined
  {
    var r' := StreamEnded(r, vmId, v);
    StreamEndedKeeps(r, used, vmId, v);
    hide DesktopOn, Streams, Sensible, Believes;
    assert Streams(r'.log, vmId, v) == TargetOf(r'.pages, vmId, v);
  }

  lemma WatchedStreams(r: Registry, used: set<ViewId>, v: ViewId)
    requires Inv(r, used) && Controls(r, v)
    ensures Streams(r.log, r.pages[v].vmId, v).Some? && r.pages[v].vmId in r.connected
  {
    hide DesktopOn, Streams, Sensible, Believes;
    assert Streams(r.log, r.pages[v].vmId, v) == TargetOf(r.pages, r.pages[v].vmId, v);
  }
}
