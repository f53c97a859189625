/**
 * Sites' guardrails: usage counted since it was last counted, charged to the
 * ledger, and caps that pause a site.
 *
 * Instants are milliseconds; a month is a number that grows with time. Money is in
 * micro-dollars, over the reals until it is rounded.
 */
module SiteUsage {
  import opened Wrappers
  import Texts

  type SiteId = nat
  type UserId = nat

  const SITE_REQUEST_CAP := 1_000_000
  const DATABASE_BYTE_CAP := 500 * 1024 * 1024
  const MONTHLY_HOSTING_CAP_MICROS := 10_000_000
  const MICROS_PER_REQUEST := 0.3
  const MICROS_PER_CPU_MS := 0.02

  datatype Reason = Requests | Spend | Database | KillSwitch

  datatype Used = Used(requests: nat, cpuMs: nat)

  datatype Site = Site(
    userId: UserId, deployed: bool, databaseId: Option<nat>, createdAt: int, usageAccruedAt: Option<int>,
    usageMonth: Option<int>, monthRequests: nat, monthCpuMs: nat, paused: bool, reason: Option<Reason>)

  datatype Charge = Charge(userId: UserId, micros: int, occurredAt: int)

  /** What a pass counted: the site and its owner, the interval, the usage in it, and the month it was counted in. */
  datatype Counted = Counted(id: SiteId, userId: UserId, from: int, to: int, used: Used, month: int)

  /** The host: usage over an interval and the size of a database at an instant; and the calendar. */
  datatype World = World(usage: (SiteId, int, int) -> Used, size: (nat, int) -> nat, monthOf: int -> int, startOfMonth: int -> int)

  ghost predicate Monotone(w: World) {
    forall a: int, b: int :: a <= b ==> w.monthOf(a) <= w.monthOf(b)
  }

  // ---------------------------------------------------------------- Pausing

  function Paused(site: Site, reason: Reason): Site {
    site.(paused := true, reason := Some(reason))
  }

  function Resumed(site: Site): Site {
    site.(paused := false, reason := None)
  }

  predicate ResumesWithTheMonth(reason: Option<Reason>) {
    reason == Some(Requests) || reason == Some(Spend)
  }

  // ---------------------------------------------------------------- One site in one pass

  /** A new month: fresh counters, and month-long pauses lifted. */
  function NewMonth(site: Site, month: int): Site {
    if site.usageMonth == Some(month) then site
    else
      var reset := site.(usageMonth := Some(month), monthRequests := 0, monthCpuMs := 0);
      if ResumesWithTheMonth(site.reason) then Resumed(reset) else reset
  }

  function CountedFrom(site: Site): int {
    if site.usageAccruedAt.Some? then site.usageAccruedAt.value else site.createdAt
  }

  function Count(site: Site, used: Used, now: int): Site {
    site.(monthRequests := site.monthRequests + used.requests, monthCpuMs := site.monthCpuMs + used.cpuMs,
          usageAccruedAt := Some(now))
  }

  function Cost(used: Used): real {
    used.requests as real * MICROS_PER_REQUEST + used.cpuMs as real * MICROS_PER_CPU_MS
  }

  /** To the nearest micro-dollar, halves up. */
  function Round(micros: real): int {
    (micros + 0.5).Floor
  }

  predicate Oversized(w: World, site: Site, now: int) {
    site.databaseId.Some? && w.size(site.databaseId.value, now) > DATABASE_BYTE_CAP
  }

  function Capped(site: Site, oversized: bool): Site {
    if site.reason == Some(Database) && !oversized then Resumed(site)
    else if !site.paused && site.monthRequests > SITE_REQUEST_CAP then Paused(site, Requests)
    else if !site.paused && oversized then Paused(site, Database)
    else site
  }

  datatype Passed = Passed(site: Site, counted: Option<Counted>)

  function Pass(w: World, id: SiteId, site: Site, now: int): Passed {
    var s1 := NewMonth(site, w.monthOf(now));
    var from := CountedFrom(s1);
    if from >= now then Passed(s1, None)
    else
      var used := w.usage(id, from, now);
      Passed(Capped(Count(s1, used, now), Oversized(w, site, now)), Some(Counted(id, site.userId, from, now, used, w.monthOf(now))))
  }

  // ---------------------------------------------------------------- What every pass keeps of a site

  /** Back to back, the intervals cover exactly [from, to). */
  ghost predicate Tiles(history: seq<Counted>, from: int, to: int) {
    if history == [] then from == to
    else
      var last := history[|history| - 1];
      last.to == to && last.from < to && Tiles(history[..|history| - 1], from, last.from)
  }

  /** The usage of the latest intervals counted in this month. */
  function SinceReset(history: seq<Counted>, month: Option<int>): Used {
    if history == [] || Some(history[|history| - 1].month) != month then Used(0, 0)
    else
      var rest, last := SinceReset(history[..|history| - 1], month), history[|history| - 1].used;
      Used(rest.requests + last.requests, rest.cpuMs + last.cpuMs)
  }

  ghost predicate SiteOk(w: World, site: Site, history: seq<Counted>, clock: int) {
    && (site.paused <==> site.reason.Some?)
    && Tiles(history, site.createdAt, CountedFrom(site))
    && (site.usageAccruedAt.None? ==> history == [])
    && Used(site.monthRequests, site.monthCpuMs) == SinceReset(history, site.usageMonth)
    && (site.usageMonth.Some? ==> site.usageMonth.value <= w.monthOf(clock))
    && (history != [] ==> site.usageMonth.Some? && history[|history| - 1].month <= site.usageMonth.value)
  }

  function Grown(history: seq<Counted>, counted: Option<Counted>): seq<Counted> {
    if counted.Some? then history + [counted.value] else history
  }

  lemma NewMonthKeeps(w: World, site: Site, history: seq<Counted>, clock: int, now: int)
    requires Monotone(w) && SiteOk(w, site, history, clock) && clock <= now
    ensures SiteOk(w, NewMonth(site, w.monthOf(now)), history, now)
  {
    assert w.monthOf(clock) <= w.monthOf(now);
    hide Tiles;
  }

  lemma CountKeeps(w: World, site: Site, history: seq<Counted>, c: Counted)
    requires SiteOk(w, site, history, c.to) && site.usageMonth == Some(w.monthOf(c.to)) && CountedFrom(site) < c.to
    requires c.from == CountedFrom(site) && c.month == w.monthOf(c.to)
    ensures SiteOk(w, Count(site, c.used, c.to), history + [c], c.to)
  {
    assert (history + [c])[..|history|] == history;
  }

  lemma CappedKeeps(w: World, site: Site, history: seq<Counted>, oversized: bool, now: int)
    requires SiteOk(w, site, history, now)
    ensures SiteOk(w, Capped(site, oversized), history, now)
  {
    hide Tiles, SinceReset;
  }

  /**
   * Usage is counted once: whatever the passes, at times that don't go back, the
   * intervals counted tile the site's life up to now, the month's counters are the sum
   * since they were reset, and a site is paused just when there is a reason.
   */
  lemma PassKeeps(w: World, id: SiteId, site: Site, history: seq<Counted>, clock: int, now: int)
    requires Monotone(w) && SiteOk(w, site, history, clock) && clock <= now
    ensures var p := Pass(w, id, site, now); SiteOk(w, p.site, Grown(history, p.counted), now)
  {
    hide SiteOk;
    var s1 := NewMonth(site, w.monthOf(now));
    NewMonthKeeps(w, site, history, clock, now);
    if CountedFrom(s1) < now {
      var c := Counted(id, site.userId, CountedFrom(s1), now, w.usage(id, CountedFrom(s1), now), w.monthOf(now));
      CountKeeps(w, s1, history, c);
      hide Count, Capped, NewMonth;
      CappedKeeps(w, Count(s1, c.used, now), history + [c], Oversized(w, site, now), now);
    }
  }

  /**
   * A site over its request cap after a pass that counted is paused, unless the pass
   * has just lifted its database pause, which skips that check.
   */
  lemma OverTheCapIsPaused(w: World, id: SiteId, site: Site, now: int)
    requires (site.paused <==> site.reason.Some?) && Pass(w, id, site, now).counted.Some?
    requires Pass(w, id, site, now).site.monthRequests > SITE_REQUEST_CAP
    ensures !Pass(w, id, site, now).site.paused <==> site.reason == Some(Database) && !Oversized(w, site, now)
  {
  }

  /** Passes later in time keep what a pass made of a site. */
  lemma LaterIsOk(w: World, site: Site, history: seq<Counted>, clock: int, now: int)
    requires Monotone(w) && SiteOk(w, site, history, clock) && clock <= now
    ensures SiteOk(w, site, history, now)
  {
  }

  /** Counted twice in one pass, a site changes once. */
  lemma PassAgain(w: World, id: SiteId, site: Site, now: int)
    ensures var p := Pass(w, id, site, now); Pass(w, id, p.site, now) == Passed(p.site, None)
  {
  }

  function Total(history: seq<Counted>): Used {
    if history == [] then Used(0, 0)
    else
      var rest, last := Total(history[..|history| - 1]), history[|history| - 1].used;
      Used(rest.requests + last.requests, rest.cpuMs + last.cpuMs)
  }

  /** A host whose usage adds up over adjacent intervals. */
  ghost predicate AddsUp(w: World, id: SiteId) {
    && (forall a: int :: w.usage(id, a, a) == Used(0, 0))
    && (forall a: int, b: int, c: int :: a <= b <= c ==>
          w.usage(id, a, c) == Used(w.usage(id, a, b).requests + w.usage(id, b, c).requests, w.usage(id, a, b).cpuMs + w.usage(id, b, c).cpuMs))
  }

  ghost predicate AsHostSays(w: World, id: SiteId, history: seq<Counted>) {
    forall k :: 0 <= k < |history| ==> history[k].used == w.usage(id, history[k].from, history[k].to)
  }

  /** Counted in pieces, a site's usage comes to what the host says of its whole life. */
  lemma {:induction false} CountedOnce(w: World, id: SiteId, history: seq<Counted>, from: int, to: int)
    requires AddsUp(w, id) && AsHostSays(w, id, history) && Tiles(history, from, to)
    ensures from <= to && Total(history) == w.usage(id, from, to)
    decreases |history|
  {
    if history == [] {
    } else {
      var n := |history| - 1;
      CountedOnce(w, id, history[..n], from, history[n].from);
    }
  }

  // ---------------------------------------------------------------- What is charged

  /** The ledger's entry for what a pass counted; nothing where it rounds to nothing. */
  function ChargeOf(c: Counted): seq<Charge> {
    if Round(Cost(c.used)) > 0 then [Charge(c.userId, Round(Cost(c.used)), c.to)] else []
  }

  function Entries(counted: Option<Counted>): seq<Charge> {
    if counted.Some? then ChargeOf(counted.value) else []
  }

  /** What these passes charge, in order. */
  function LedgerOf(passes: seq<Counted>): seq<Charge> {
    if passes == [] then [] else LedgerOf(passes[..|passes| - 1]) + ChargeOf(passes[|passes| - 1])
  }

  function Micros(charges: seq<Charge>): int {
    if charges == [] then 0 else Micros(charges[..|charges| - 1]) + charges[|charges| - 1].micros
  }

  function ExactCost(passes: seq<Counted>): real {
    if passes == [] then 0.0 else ExactCost(passes[..|passes| - 1]) + Cost(passes[|passes| - 1].used)
  }

  /** What a user is charged from an instant on. */
  function Spent(ledger: seq<Charge>, userId: UserId, since: int): int {
    if ledger == [] then 0
    else
      var rest, last := Spent(ledger[..|ledger| - 1], userId, since), ledger[|ledger| - 1];
      if last.userId == userId && last.occurredAt >= since then rest + last.micros else rest
  }

  function ExactSpent(passes: seq<Counted>, userId: UserId, since: int): real {
    if passes == [] then 0.0
    else
      var rest, last := ExactSpent(passes[..|passes| - 1], userId, since), passes[|passes| - 1];
      if last.userId == userId && last.to >= since then rest + Cost(last.used) else rest
  }

  lemma RoundIsNear(micros: real)
    requires micros >= 0.0
    ensures Round(micros) >= 0 && -0.5 <= Round(micros) as real - micros <= 0.5
  {
  }

  lemma LedgerOne(passes: seq<Counted>, c: Counted)
    ensures LedgerOf(passes + [c]) == LedgerOf(passes) + ChargeOf(c)
  {
    assert (passes + [c])[..|passes|] == passes;
  }

  lemma MicrosOne(ledger: seq<Charge>, c: Counted, userId: UserId, since: int)
    ensures Micros(ledger + ChargeOf(c)) == Micros(ledger) + Round(Cost(c.used))
    ensures Spent(ledger + ChargeOf(c), userId, since)
            == Spent(ledger, userId, since) + if c.userId == userId && c.to >= since then Round(Cost(c.used)) else 0
  {
    RoundIsNear(Cost(c.used));
    if ChargeOf(c) == [] {
      assert ledger + ChargeOf(c) == ledger;
    } else {
      assert (ledger + ChargeOf(c))[..|ledger|] == ledger;
    }
  }

  ghost predicate Near(micros: int, exact: real, n: nat) {
    -0.5 * n as real <= micros as real - exact <= 0.5 * n as real
  }

  /** A ledger, and what it says any user spent, is off by at most half a micro-dollar for every pass. */
  lemma {:induction false} LedgerIsNear(passes: seq<Counted>, userId: UserId, since: int)
    ensures Near(Micros(LedgerOf(passes)), ExactCost(passes), |passes|)
    ensures Near(Spent(LedgerOf(passes), userId, since), ExactSpent(passes, userId, since), |passes|)
    decreases |passes|
  {
    if passes == [] {
    } else {
      var n := |passes| - 1;
      LedgerIsNear(passes[..n], userId, since);
      RoundIsNear(Cost(passes[n].used));
      MicrosOne(LedgerOf(passes[..n]), passes[n], userId, since);
      hide Cost, Round, ChargeOf;
    }
  }

  // ---------------------------------------------------------------- All sites

  type Sites = map<SiteId, Site>

  /** Every pause has a reason, and every reason pauses. */
  predicate PausesOk(sites: Sites) {
    forall id :: id in sites ==> (sites[id].paused <==> sites[id].reason.Some?)
  }

  predicate Running(site: Site) {
    !site.paused && site.deployed
  }

  /** Some of the sites, each changed on its own. */
  function Changed(sites: Sites, which: Site -> bool, change: Site -> Site): Sites {
    map id | id in sites :: if which(sites[id]) then change(sites[id]) else sites[id]
  }

  function AllPaused(sites: Sites): Sites {
    Changed(sites, Running, (s: Site) => Paused(s, KillSwitch))
  }

  function AllResumed(sites: Sites): Sites {
    Changed(sites, (s: Site) => s.reason == Some(KillSwitch), Resumed)
  }

  predicate Overspent(ledger: seq<Charge>, userId: UserId, since: int) {
    Spent(ledger, userId, since) > MONTHLY_HOSTING_CAP_MICROS
  }

  /** The running sites of whichever of these users spent over the cap pause, and no other site changes. */
  function SpendPaused(sites: Sites, ledger: seq<Charge>, since: int, users: set<UserId>): Sites {
    Changed(sites, (s: Site) => Running(s) && s.userId in users && Overspent(ledger, s.userId, since), (s: Site) => Paused(s, Spend))
  }

  /** The kill switch undone: every site is as it was, if none was switched off before. */
  lemma KillSwitchIsUndone(sites: Sites)
    requires PausesOk(sites) && forall id :: id in sites ==> sites[id].reason != Some(KillSwitch)
    ensures AllResumed(AllPaused(sites)) == sites
    ensures forall id :: id in sites && sites[id].deployed ==> AllPaused(sites)[id].paused
    ensures PausesOk(AllPaused(sites))
  {
  }

  // ---------------------------------------------------------------- Any run

  /** `passes` is what was counted so far, of all sites; `made` are the sites ever made; no pass goes back before `clock`. */
  datatype State = State(sites: Sites, ledger: seq<Charge>, passes: seq<Counted>, made: set<SiteId>, clock: int)

  datatype Op =
    | Makes(id: SiteId, userId: UserId, createdAt: int)
    | Deploys(id: SiteId, databaseId: Option<nat>)
    | Removes(id: SiteId)
    | Passes(id: SiteId, now: int)
    | ChecksSpend(userId: UserId, now: int)
    | PausesAll
    | ResumesAll

  predicate Allowed(s: State, op: Op) {
    match op
    case Makes(id, _, _) => id !in s.made
    case Passes(_, now) => s.clock <= now
    case _ => true
  }

  function NewSite(userId: UserId, createdAt: int): Site {
    Site(userId, false, None, createdAt, None, None, 0, 0, false, None)
  }

  /** One site under its row lock; none if it was removed meanwhile. */
  function PassOne(w: World, s: State, id: SiteId, now: int): State {
    if id !in s.sites then s.(clock := now)
    else
      var p := Pass(w, id, s.sites[id], now);
      s.(sites := s.sites[id := p.site], ledger := s.ledger + Entries(p.counted),
         passes := s.passes + (if p.counted.Some? then [p.counted.value] else []), clock := now)
  }

  function Do(w: World, s: State, op: Op): State {
    match op
    case Makes(id, userId, createdAt) => s.(sites := s.sites[id := NewSite(userId, createdAt)], made := s.made + {id})
    case Deploys(id, databaseId) =>
      if id in s.sites then s.(sites := s.sites[id := s.sites[id].(deployed := true, databaseId := databaseId)]) else s
    case Removes(id) => s.(sites := s.sites - {id})
    case Passes(id, now) => PassOne(w, s, id, now)
    case ChecksSpend(userId, now) => s.(sites := SpendPaused(s.sites, s.ledger, w.startOfMonth(now), {userId}))
    case PausesAll => s.(sites := AllPaused(s.sites))
    case ResumesAll => s.(sites := AllResumed(s.sites))
  }

  predicate Legal(w: World, s: State, ops: seq<Op>)
    decreases |ops|
  {
    ops == [] || (Allowed(s, ops[0]) && Legal(w, Do(w, s, ops[0]), ops[1..]))
  }

  function DoAll(w: World, s: State, ops: seq<Op>): State
    decreases |ops|
  {
    if ops == [] then s else DoAll(w, Do(w, s, ops[0]), ops[1..])
  }

  function Start(clock: int): State {
    State(map[], [], [], {}, clock)
  }

  /** What was counted of one site. */
  function HistoryOf(passes: seq<Counted>, id: SiteId): seq<Counted> {
    if passes == [] then []
    else HistoryOf(passes[..|passes| - 1], id) + if passes[|passes| - 1].id == id then [passes[|passes| - 1]] else []
  }

  ghost predicate OneOk(w: World, s: State, id: SiteId)
    requires id in s.sites
  {
    SiteOk(w, s.sites[id], HistoryOf(s.passes, id), s.clock) && AsHostSays(w, id, HistoryOf(s.passes, id))
  }

  /** The ledger is what the passes charged, and every site is in order by what they counted of it. */
  ghost predicate Inv(w: World, s: State) {
    && Monotone(w)
    && s.ledger == LedgerOf(s.passes)
    && s.sites.Keys <= s.made
    && (forall k :: 0 <= k < |s.passes| ==> s.passes[k].id in s.made)
    && (forall id :: id in s.sites ==> OneOk(w, s, id))
  }

  lemma HistoryOne(passes: seq<Counted>, c: Counted, id: SiteId)
    ensures HistoryOf(passes + [c], id) == HistoryOf(passes, id) + if c.id == id then [c] else []
  {
    assert (passes + [c])[..|passes|] == passes;
  }

  lemma {:induction false} NoHistory(passes: seq<Counted>, id: SiteId)
    requires forall k :: 0 <= k < |passes| ==> passes[k].id != id
    ensures HistoryOf(passes, id) == []
    decreases |passes|
  {
    if passes == [] {
    } else {
      NoHistory(passes[..|passes| - 1], id);
    }
  }

  lemma PassOneKeeps(w: World, s: State, id: SiteId, now: int)
    requires Inv(w, s) && s.clock <= now
    ensures Inv(w, PassOne(w, s, id, now))
  {
    var s' := PassOne(w, s, id, now);
    LedgerKept(w, s, id, now);
    hide SiteOk, AsHostSays, Pass, PassOne, LedgerOf;
    forall i | i in s'.sites ensures OneOk(w, s', i) {
      SiteKept(w, s, id, now, i);
    }
  }

  lemma SiteKept(w: World, s: State, id: SiteId, now: int, i: SiteId)
    requires Inv(w, s) && s.clock <= now && i in PassOne(w, s, id, now).sites
    ensures OneOk(w, PassOne(w, s, id, now), i)
  {
    hide SiteOk, AsHostSays, Pass, LedgerOf;
    assert OneOk(w, s, i);
    if i == id {
      OnePassed(w, s, id, now);
    } else {
      LaterIsOk(w, s.sites[i], HistoryOf(s.passes, i), s.clock, now);
      OthersHistory(w, s, id, now, i);
    }
  }

  lemma LedgerKept(w: World, s: State, id: SiteId, now: int)
    requires Inv(w, s)
    ensures var s' := PassOne(w, s, id, now);
            && s'.ledger == LedgerOf(s'.passes) && s'.made == s.made && s'.clock == now && s'.sites.Keys == s.sites.Keys
            && forall k :: 0 <= k < |s'.passes| ==> s'.passes[k].id in s.made
  {
    hide OneOk;
    if id in s.sites {
      var c := Pass(w, id, s.sites[id], now).counted;
      CountsItself(w, id, s.sites[id], now);
      hide Pass;
      if c.Some? {
        LedgerOne(s.passes, c.value);
      } else {
        assert s.passes + [] == s.passes && s.ledger + [] == s.ledger;
      }
      hide LedgerOf, ChargeOf;
    }
  }

  lemma OthersHistory(w: World, s: State, id: SiteId, now: int, other: SiteId)
    requires other != id
    ensures HistoryOf(PassOne(w, s, id, now).passes, other) == HistoryOf(s.passes, other)
  {
    if id in s.sites {
      var c := Pass(w, id, s.sites[id], now).counted;
      CountsItself(w, id, s.sites[id], now);
      hide Pass;
      if c.Some? {
        HistoryOne(s.passes, c.value, other);
      } else {
        assert s.passes + [] == s.passes;
      }
    }
  }

  lemma CountsItself(w: World, id: SiteId, site: Site, now: int)
    ensures var c := Pass(w, id, site, now).counted;
            c.Some? ==> c.value.id == id && c.value.used == w.usage(id, c.value.from, c.value.to)
  {
  }

  lemma OnePassed(w: World, s: State, id: SiteId, now: int)
    requires Monotone(w) && id in s.sites && OneOk(w, s, id) && s.clock <= now
    ensures OneOk(w, PassOne(w, s, id, now), id)
  {
    hide SiteOk, AsHostSays, Monotone, Pass, Grown, HistoryOf;
    PassKeeps(w, id, s.sites[id], HistoryOf(s.passes, id), s.clock, now);
    OwnHistory(w, s, id, now);
    GrownAsHostSays(w, id, s.sites[id], HistoryOf(s.passes, id), now);
  }

  lemma OwnHistory(w: World, s: State, id: SiteId, now: int)
    requires id in s.sites
    ensures HistoryOf(PassOne(w, s, id, now).passes, id) == Grown(HistoryOf(s.passes, id), Pass(w, id, s.sites[id], now).counted)
  {
    var c := Pass(w, id, s.sites[id], now).counted;
    CountsItself(w, id, s.sites[id], now);
    hide Pass;
    if c.Some? {
      HistoryOne(s.passes, c.value, id);
    } else {
      assert s.passes + [] == s.passes;
    }
    hide HistoryOf, Entries;
  }

  lemma GrownAsHostSays(w: World, id: SiteId, site: Site, history: seq<Counted>, now: int)
    requires AsHostSays(w, id, history)
    ensures AsHostSays(w, id, Grown(history, Pass(w, id, site, now).counted))
  {
    CountsItself(w, id, site, now);
    hide Pass;
  }

  /** Pausing and resuming leave what was counted alone. */
  lemma PausingKeeps(w: World, s: State, sites': Sites)
    requires Inv(w, s) && sites'.Keys == s.sites.Keys
    requires forall id :: id in sites' ==> ButForPauses(s.sites[id], sites'[id])
    ensures Inv(w, s.(sites := sites'))
  {
    hide Tiles, SinceReset, HistoryOf, LedgerOf, AsHostSays;
    forall id | id in sites' ensures OneOk(w, s.(sites := sites'), id) {
      assert OneOk(w, s, id) && ButForPauses(s.sites[id], sites'[id]);
    }
  }

  /** The same site, paused for some reason exactly if there is one. */
  predicate ButForPauses(site: Site, site': Site) {
    site' == site || (site' == site.(paused := site'.paused, reason := site'.reason) && (site'.paused <==> site'.reason.Some?))
  }

  lemma MakeKeeps(w: World, s: State, id: SiteId, userId: UserId, createdAt: int)
    requires Inv(w, s) && id !in s.made
    ensures Inv(w, Do(w, s, Makes(id, userId, createdAt)))
  {
    var s' := Do(w, s, Makes(id, userId, createdAt));
    NoHistory(s.passes, id);
    assert OneOk(w, s', id);
    hide LedgerOf, SiteOk, AsHostSays, HistoryOf;
    forall i | i in s'.sites && i != id ensures OneOk(w, s', i) { assert OneOk(w, s, i); }
  }

  lemma DeployKeeps(w: World, s: State, id: SiteId, databaseId: Option<nat>)
    requires Inv(w, s)
    ensures Inv(w, Do(w, s, Deploys(id, databaseId)))
  {
    var s' := Do(w, s, Deploys(id, databaseId));
    hide LedgerOf, Tiles, SinceReset, AsHostSays, HistoryOf;
    forall i | i in s'.sites ensures OneOk(w, s', i) { assert OneOk(w, s, i); }
  }

  lemma RemoveKeeps(w: World, s: State, id: SiteId)
    requires Inv(w, s)
    ensures Inv(w, s.(sites := s.sites - {id}))
  {
    var s' := s.(sites := s.sites - {id});
    hide LedgerOf, SiteOk, AsHostSays, HistoryOf;
    forall i | i in s'.sites ensures OneOk(w, s', i) { assert OneOk(w, s, i); }
  }

  lemma DoKeeps(w: World, s: State, op: Op)
    requires Inv(w, s) && Allowed(s, op)
    ensures Inv(w, Do(w, s, op))
  {
    hide Inv, SpendPaused, AllPaused, AllResumed, PassOne;
    match op
    case Makes(id, userId, createdAt) => MakeKeeps(w, s, id, userId, createdAt);
    case Deploys(id, databaseId) => DeployKeeps(w, s, id, databaseId);
    case Removes(id) => RemoveKeeps(w, s, id);
    case Passes(id, now) => PassOneKeeps(w, s, id, now);
    case ChecksSpend(userId, now) => SpendKeeps(w, s, w.startOfMonth(now), {userId});
    case PausesAll => SwitchKeeps(w, s);
    case ResumesAll => SwitchKeeps(w, s);
  }

  lemma SwitchKeeps(w: World, s: State)
    requires Inv(w, s)
    ensures Inv(w, s.(sites := AllPaused(s.sites))) && Inv(w, s.(sites := AllResumed(s.sites)))
  {
    hide Inv, AllPaused, AllResumed, ButForPauses;
    PausesOnly(s.sites, s.ledger, 0, {});
    PausingKeeps(w, s, AllPaused(s.sites));
    PausingKeeps(w, s, AllResumed(s.sites));
  }

  lemma SpendKeeps(w: World, s: State, since: int, users: set<UserId>)
    requires Inv(w, s)
    ensures Inv(w, s.(sites := SpendPaused(s.sites, s.ledger, since, users)))
  {
    hide Inv, SpendPaused, ButForPauses;
    PausesOnly(s.sites, s.ledger, since, users);
    PausingKeeps(w, s, SpendPaused(s.sites, s.ledger, since, users));
  }

  ghost predicate OnlyPauses(sites: Sites, sites': Sites) {
    sites'.Keys == sites.Keys && forall id :: id in sites' ==> ButForPauses(sites[id], sites'[id])
  }

  lemma PausesOnly(sites: Sites, ledger: seq<Charge>, since: int, users: set<UserId>)
    ensures OnlyPauses(sites, SpendPaused(sites, ledger, since, users))
    ensures OnlyPauses(sites, AllPaused(sites)) && OnlyPauses(sites, AllResumed(sites))
  {
    hide Overspent;
  }

  lemma {:induction false} RunKeeps(w: World, s: State, ops: seq<Op>)
    requires Inv(w, s) && Legal(w, s, ops)
    ensures Inv(w, DoAll(w, s, ops))
    decreases |ops|
  {
    if ops == [] {
    } else {
      DoKeeps(w, s, ops[0]);
      hide Inv, Do, Allowed;
      RunKeeps(w, Do(w, s, ops[0]), ops[1..]);
    }
  }

  /**
   * Over any run of passes, spend checks, kill switches and resumes, with sites made,
   * deployed and removed meanwhile: the ledger is off by at most half a micro-dollar
   * for every pass that counted something, in all and in what any user is held to.
   */
  lemma LedgerIsNearOverAnyRun(w: World, clock: int, ops: seq<Op>, userId: UserId, since: int)
    requires Monotone(w) && Legal(w, Start(clock), ops)
    ensures var s := DoAll(w, Start(clock), ops);
            && Near(Micros(s.ledger), ExactCost(s.passes), |s.passes|)
            && Near(Spent(s.ledger, userId, since), ExactSpent(s.passes, userId, since), |s.passes|)
  {
    RunKeeps(w, Start(clock), ops);
    LedgerIsNear(DoAll(w, Start(clock), ops).passes, userId, since);
    hide Micros, Spent, ExactCost, ExactSpent, LedgerOf, Near, OneOk, Legal, DoAll;
  }

  /** And what was counted of a site still there comes to what the host says of its whole time. */
  lemma CountedOnceOverAnyRun(w: World, clock: int, ops: seq<Op>, id: SiteId)
    requires Monotone(w) && Legal(w, Start(clock), ops) && AddsUp(w, id) && id in DoAll(w, Start(clock), ops).sites
    ensures var s := DoAll(w, Start(clock), ops);
            && Total(HistoryOf(s.passes, id)) == w.usage(id, s.sites[id].createdAt, CountedFrom(s.sites[id]))
            && (s.sites[id].paused <==> s.sites[id].reason.Some?)
  {
    var s := DoAll(w, Start(clock), ops);
    RunKeeps(w, Start(clock), ops);
    hide LedgerOf, DoAll, Legal, AddsUp, SinceReset, Total, HistoryOf;
    assert OneOk(w, s, id);
    CountedOnce(w, id, HistoryOf(s.passes, id), s.sites[id].createdAt, CountedFrom(s.sites[id]));
  }

  // ---------------------------------------------------------------- A site left running

  /** Its database is over the cap at 1 and under it from then on, and two million requests come after 1. */
  function Shrinking(): World {
    World((id, from, to) => Used(if from == 1 then 2_000_000 else 0, 0),
          (database, now) => if now == 1 then DATABASE_BYTE_CAP + 1 else 0, at => 0, at => 0)
  }

  function ShrinkingOps(): seq<Op> {
    [Makes(0, 0, 0), Deploys(0, Some(0)), Passes(0, 1), Passes(0, 2)]
  }

  function ShrinkingState(k: nat): State {
    var made := NewSite(0, 0);
    var site := made.(deployed := true, databaseId := Some(0));
    var first := Counted(0, 0, 0, 1, Used(0, 0), 0);
    var second := Counted(0, 0, 1, 2, Used(2_000_000, 0), 0);
    match k
    case 0 => Start(0)
    case 1 => State(map[0 := made], [], [], {0}, 0)
    case 2 => State(map[0 := site], [], [], {0}, 0)
    case 3 => State(map[0 := Paused(site.(usageAccruedAt := Some(1), usageMonth := Some(0)), Database)], [], [first], {0}, 1)
    case _ =>
      State(map[0 := site.(usageAccruedAt := Some(2), usageMonth := Some(0), monthRequests := 2_000_000)],
            [Charge(0, 600_000, 2)], [first, second], {0}, 2)
  }

  ghost predicate ShrinkingLeads(k: nat)
    requires k < 4
  {
    Allowed(ShrinkingState(k), ShrinkingOps()[k]) && Do(Shrinking(), ShrinkingState(k), ShrinkingOps()[k]) == ShrinkingState(k + 1)
  }

  lemma ShrinkingMakes(k: nat)
    requires k < 2
    ensures ShrinkingLeads(k)
  {
  }

  lemma ShrinkingCosts()
    ensures Round(Cost(Used(0, 0))) == 0 && Round(Cost(Used(2_000_000, 0))) == 600_000
  {
    assert Cost(Used(2_000_000, 0)) == 600_000.0;
    assert Round(600_000.0) == 600_000;
  }

  lemma ShrinkingCounts(k: nat)
    requires k == 2 || k == 3
    ensures Pass(Shrinking(), 0, ShrinkingState(k).sites[0], k - 1) == Passed(ShrinkingState(k + 1).sites[0], Some(ShrinkingState(4).passes[k - 2]))
  {
  }

  lemma ShrinkingFirstPass()
    ensures ShrinkingLeads(2)
  {
    hide Cost, Round, Pass;
    ShrinkingCounts(2);
    ShrinkingCosts();
    assert [] + [ShrinkingState(4).passes[0]] == ShrinkingState(3).passes;
  }

  lemma ShrinkingSecondPass()
    ensures ShrinkingLeads(3)
  {
    hide Cost, Round, Pass;
    ShrinkingCounts(3);
    ShrinkingCosts();
    assert ShrinkingState(3).passes + [ShrinkingState(4).passes[1]] == ShrinkingState(4).passes;
  }

  lemma ShrinkingStep(k: nat)
    requires k < 4
    ensures ShrinkingLeads(k)
  {
    hide ShrinkingLeads;
    if k < 2 {
      ShrinkingMakes(k);
    } else if k == 2 {
      ShrinkingFirstPass();
    } else {
      ShrinkingSecondPass();
    }
  }

  lemma Prepend(w: World, s: State, op: Op, rest: seq<Op>)
    requires Allowed(s, op) && Legal(w, Do(w, s, op), rest)
    ensures Legal(w, s, [op] + rest) && DoAll(w, s, [op] + rest) == DoAll(w, Do(w, s, op), rest)
  {
    assert ([op] + rest)[1..] == rest;
  }

  /** Such a site: paused for its database, then over its requests too, and left running. */
  lemma LeftRunning() returns (ops: seq<Op>)
    ensures Monotone(Shrinking()) && Legal(Shrinking(), Start(0), ops)
    ensures var s := DoAll(Shrinking(), Start(0), ops);
            0 in s.sites && Running(s.sites[0]) && s.sites[0].monthRequests > SITE_REQUEST_CAP
  {
    ops := [];
    for k := 4 downto 0
      invariant Legal(Shrinking(), ShrinkingState(k), ops) && DoAll(Shrinking(), ShrinkingState(k), ops) == ShrinkingState(4)
    {
      ShrinkingStep(k);
      hide ShrinkingState, ShrinkingOps, Allowed, Do, Shrinking;
      Prepend(Shrinking(), ShrinkingState(k), ShrinkingOps()[k], ops);
      ops := [ShrinkingOps()[k]] + ops;
    }
    assert ShrinkingState(0) == Start(0);
  }

  // ---------------------------------------------------------------- One run of the hourly job

  /** These sites counted up to now, the others as they were. */
  function AllPassed(w: World, sites: Sites, ids: seq<SiteId>, now: int): Sites {
    map id | id in sites :: if id in ids then Pass(w, id, sites[id], now).site else sites[id]
  }

  /** What that counted, in the order of the ids, each at its first turn. */
  function Recounted(w: World, sites: Sites, ids: seq<SiteId>, now: int): seq<Counted> {
    if ids == [] then []
    else
      var before, id := ids[..|ids| - 1], ids[|ids| - 1];
      Recounted(w, sites, before, now)
      + if id in sites && id !in before && Pass(w, id, sites[id], now).counted.Some? then [Pass(w, id, sites[id], now).counted.value] else []
  }

  function OwnersOf(sites: Sites, ids: seq<SiteId>): set<UserId> {
    set id | id in ids && id in sites :: sites[id].userId
  }

  /** The sites counted so far. */
  ghost predicate PassedTo(w: World, s: State, s': State, ids: seq<SiteId>, now: int) {
    && s'.sites == AllPassed(w, s.sites, ids, now) && s'.passes == s.passes + Recounted(w, s.sites, ids, now)
    && s'.made == s.made && s'.clock == now
  }

  lemma OneSiteMore(w: World, s: State, s': State, ids: seq<SiteId>, id: SiteId, now: int)
    requires PassedTo(w, s, s', ids, now)
    ensures PassedTo(w, s, PassOne(w, s', id, now), ids + [id], now)
  {
    hide Pass, AllPassed, Recounted, Entries;
    PassedOneMore(w, s, s', ids, id, now);
    RecountedOneMore(w, s, s', ids, id, now);
  }

  lemma PassedOneMore(w: World, s: State, s': State, ids: seq<SiteId>, id: SiteId, now: int)
    requires s'.sites == AllPassed(w, s.sites, ids, now)
    ensures PassOne(w, s', id, now).sites == AllPassed(w, s.sites, ids + [id], now)
  {
    if id in s.sites { PassAgain(w, id, s.sites[id], now); }
    hide Pass, Entries;
  }

  lemma RecountedOneMore(w: World, s: State, s': State, ids: seq<SiteId>, id: SiteId, now: int)
    requires s'.sites == AllPassed(w, s.sites, ids, now) && s'.passes == s.passes + Recounted(w, s.sites, ids, now)
    ensures PassOne(w, s', id, now).passes == s.passes + Recounted(w, s.sites, ids + [id], now)
  {
    var all := ids + [id];
    assert all[..|ids|] == ids && all[|ids|] == id;
    if id in s.sites { PassAgain(w, id, s.sites[id], now); }
    assert id in s'.sites ==> s'.sites[id] == if id in ids then Pass(w, id, s.sites[id], now).site else s.sites[id];
    assert id in s'.sites <==> id in s.sites;
    assert Recounted(w, s.sites, all, now) == Recounted(w, s.sites, ids, now)
        + if id in s.sites && id !in ids && Pass(w, id, s.sites[id], now).counted.Some? then [Pass(w, id, s.sites[id], now).counted.value] else [];
    hide Pass, AllPassed, Recounted, Entries;
    assert s'.passes + [] == s'.passes;
  }

  lemma OneOwnerMore(sites: Sites, ids: seq<SiteId>, id: SiteId)
    ensures OwnersOf(sites, ids + [id]) == OwnersOf(sites, ids) + if id in sites then {sites[id].userId} else {}
  {
    assert forall i :: i in ids + [id] <==> i in ids || i == id;
  }

  lemma {:induction false} LedgerAppend(a: seq<Counted>, b: seq<Counted>)
    ensures LedgerOf(a + b) == LedgerOf(a) + LedgerOf(b)
    decreases |b|
  {
    if b == [] {
      assert a + b == a;
    } else {
      var n := |b| - 1;
      assert a + b == (a + b[..n]) + [b[n]];
      LedgerOne(a + b[..n], b[n]);
      LedgerAppend(a, b[..n]);
      hide ChargeOf;
      Texts.Regroup(LedgerOf(a), LedgerOf(b[..n]), ChargeOf(b[n]));
    }
  }

  lemma OneUserMore(sites: Sites, ledger: seq<Charge>, since: int, users: set<UserId>, userId: UserId)
    ensures SpendPaused(SpendPaused(sites, ledger, since, users), ledger, since, {userId})
            == SpendPaused(sites, ledger, since, users + {userId})
    ensures !Overspent(ledger, userId, since) ==>
              SpendPaused(sites, ledger, since, users + {userId}) == SpendPaused(sites, ledger, since, users)
  {
    hide Spent;
  }

  // ---------------------------------------------------------------- What a pass and the spending check decide

  /** A site after a pass at `now`, whose month this is, that counted this usage. */
  ghost predicate CountedInto(site: Site, site': Site, used: Used, oversized: bool, month: int, now: int) {
    var lifted := site.usageMonth != Some(month) && (site.reason == Some(Requests) || site.reason == Some(Spend));
    var paused, reason := site.paused && !lifted, if lifted then None else site.reason;
    && site'.usageMonth == Some(month) && site'.usageAccruedAt == Some(now)
    && site'.monthRequests == used.requests + (if site.usageMonth == Some(month) then site.monthRequests else 0)
    && site'.monthCpuMs == used.cpuMs + (if site.usageMonth == Some(month) then site.monthCpuMs else 0)
    && (site'.userId, site'.deployed, site'.databaseId, site'.createdAt) == (site.userId, site.deployed, site.databaseId, site.createdAt)
    && (site'.paused, site'.reason)
       == if reason == Some(Database) && !oversized then (false, None)
          else if paused then (true, reason)
          else if site'.monthRequests > 1_000_000 then (true, Some(Requests))
          else if oversized then (true, Some(Database))
          else (false, reason)
  }

  /** The month's start is all a pass makes of a site that is counted up to now already. */
  ghost predicate MonthStarted(site: Site, site': Site, month: int) {
    if site.usageMonth == Some(month) then site' == site
    else if site.reason == Some(Requests) || site.reason == Some(Spend) then
      site' == site.(usageMonth := Some(month), monthRequests := 0, monthCpuMs := 0, paused := false, reason := None)
    else site' == site.(usageMonth := Some(month), monthRequests := 0, monthCpuMs := 0)
  }

  lemma NewMonthDecides(site: Site, month: int)
    ensures var site' := NewMonth(site, month);
            MonthStarted(site, site', month) && site'.usageAccruedAt == site.usageAccruedAt && site'.createdAt == site.createdAt
  {
  }

  lemma CountDecides(site: Site, used: Used, oversized: bool, month: int, now: int)
    ensures CountedInto(site, Capped(Count(NewMonth(site, month), used, now), oversized), used, oversized, month, now)
  {
  }

  lemma PassDecides(w: World, id: SiteId, site: Site, now: int)
    ensures var p, month := Pass(w, id, site, now), w.monthOf(now);
            var from := if site.usageAccruedAt.Some? then site.usageAccruedAt.value else site.createdAt;
            if from >= now then p.counted == None && MonthStarted(site, p.site, month)
            else
              && p.counted == Some(Counted(id, site.userId, from, now, w.usage(id, from, now), month))
              && CountedInto(site, p.site, w.usage(id, from, now),
                             site.databaseId.Some? && w.size(site.databaseId.value, now) > 500 * 1024 * 1024, month, now)
  {
    hide NewMonth, Count, Capped, MonthStarted, CountedInto;
    NewMonthDecides(site, w.monthOf(now));
    if CountedFrom(site) < now {
      CountDecides(site, w.usage(id, CountedFrom(site), now), Oversized(w, site, now), w.monthOf(now), now);
    }
  }

  /** The charge for a usage: 0.3 micro-dollars a request and 0.02 a CPU millisecond, rounded, and none that rounds to nothing. */
  ghost predicate Charged(charges: seq<Charge>, userId: UserId, used: Used, now: int) {
    exists micros: nat ::
      && -0.5 <= micros as real - (used.requests as real * 0.3 + used.cpuMs as real * 0.02) <= 0.5
      && charges == if micros > 0 then [Charge(userId, micros, now)] else []
  }

  lemma ChargeIsPriced(c: Counted)
    ensures Charged(ChargeOf(c), c.userId, c.used, c.to)
  {
    RoundIsNear(Cost(c.used));
    var micros: nat := Round(Cost(c.used));
    hide Round;
    assert ChargeOf(c) == if micros > 0 then [Charge(c.userId, micros, c.to)] else [];
  }

  /** The charges of one user from an instant on. */
  ghost function Theirs(ledger: seq<Charge>, userId: UserId, since: int): seq<Charge> {
    if ledger == [] then []
    else
      var last := ledger[|ledger| - 1];
      Theirs(ledger[..|ledger| - 1], userId, since) + if last.userId == userId && since <= last.occurredAt then [last] else []
  }

  lemma {:induction false} SpentIsTheirs(ledger: seq<Charge>, userId: UserId, since: int)
    ensures Spent(ledger, userId, since) == Micros(Theirs(ledger, userId, since))
    decreases |ledger|
  {
    if ledger != [] {
      var before, last := ledger[..|ledger| - 1], ledger[|ledger| - 1];
      SpentIsTheirs(before, userId, since);
      var theirs := Theirs(before, userId, since);
      assert (theirs + [last])[..|theirs|] == theirs && theirs + [] == theirs;
    }
  }

  /** A running site of an owner among these pauses exactly when the owner's charges since then come to more than ten dollars. */
  ghost predicate SpendChecked(site: Site, site': Site, owners: set<UserId>, ledger: seq<Charge>, since: int) {
    site' == if site.deployed && !site.paused && site.userId in owners && Micros(Theirs(ledger, site.userId, since)) > 10_000_000
             then site.(paused := true, reason := Some(Spend)) else site
  }

  lemma SpendDecides(sites: Sites, ledger: seq<Charge>, since: int, owners: set<UserId>)
    ensures SpendPaused(sites, ledger, since, owners).Keys == sites.Keys
    ensures forall id <- sites :: SpendChecked(sites[id], SpendPaused(sites, ledger, since, owners)[id], owners, ledger, since)
  {
    hide Spent, Theirs, Micros;
    forall id <- sites
      ensures SpendChecked(sites[id], SpendPaused(sites, ledger, since, owners)[id], owners, ledger, since)
    {
      SpentIsTheirs(ledger, sites[id].userId, since);
    }
  }

  // ---------------------------------------------------------------- The meter

  class SiteMeter {
    var sites: Sites
    var ledger: seq<Charge>
    ghost var passes: seq<Counted>
    ghost var made: set<SiteId>
    ghost var clock: int
    const w: World

    ghost function Contents(): State
      reads this
    {
      State(sites, ledger, passes, made, clock)
    }

    /** The ledger is what the passes charged, and every site is in order. */
    ghost predicate Valid()
      reads this
    {
      Inv(w, Contents())
    }

    constructor (w: World, ghost clock: int)
      requires Monotone(w)
      ensures Contents() == Start(clock) && this.w == w && Valid()
    {
      sites, ledger, passes, made, this.clock := map[], [], [], {}, clock;
      this.w := w;
    }

    /** A site under its row lock, if it is still there. */
    method PassSite(id: SiteId, now: int)
      requires Valid() && clock <= now
      modifies this
      ensures Contents() == PassOne(w, old(Contents()), id, now) && Valid()
      ensures id !in old(sites) ==> sites == old(sites) && ledger == old(ledger)
      ensures id in old(sites) ==>
                var site := old(sites)[id];
                var from := if site.usageAccruedAt.Some? then site.usageAccruedAt.value else site.createdAt;
                && id in sites && sites == old(sites)[id := sites[id]]
                && if from >= now then ledger == old(ledger) && MonthStarted(site, sites[id], w.monthOf(now))
                   else
                     && old(ledger) <= ledger && Charged(ledger[|old(ledger)|..], site.userId, w.usage(id, from, now), now)
                     && CountedInto(site, sites[id], w.usage(id, from, now),
                                    site.databaseId.Some? && w.size(site.databaseId.value, now) > 500 * 1024 * 1024, w.monthOf(now), now)
    {
      hide Inv, NewMonth, Capped, Count, Cost, Round, ChargeOf, CountedInto, MonthStarted, Charged;
      PassOneKeeps(w, Contents(), id, now);
      if id in sites { PassDecides(w, id, sites[id], now); }
      clock := now;
      if id !in sites {
        return;
      }
      var site := StartMonth(id, w.monthOf(now));
      SameDatabase(old(sites[id]), w.monthOf(now));
      var from := CountedFrom(site);
      if from >= now {
        assert passes + [] == passes && ledger + [] == ledger;
        return;
      }
      var used := w.usage(id, from, now);
      Charges(Counted(id, site.userId, from, now, used, w.monthOf(now)));
      ChargeIsPriced(Counted(id, site.userId, from, now, used, w.monthOf(now)));
      assert ledger[|old(ledger)|..] == ChargeOf(Counted(id, site.userId, from, now, used, w.monthOf(now)));
      ApplyCaps(id, Count(site, used, now), Oversized(w, site, now));
    }

    /** A new month: fresh counters, and month-long pauses lifted. */
    method StartMonth(id: SiteId, month: int) returns (site: Site)
      requires id in sites
      modifies this`sites
      ensures site == NewMonth(old(sites[id]), month) && sites == old(sites)[id := site]
    {
      site := sites[id];
      if site.usageMonth != Some(month) {
        site := site.(usageMonth := Some(month), monthRequests := 0, monthCpuMs := 0);
        if ResumesWithTheMonth(site.reason) {
          site := Resumed(site);
        }
      }
      sites := sites[id := site];
    }

    /** The ledger keeps micro-dollars: what rounds to nothing isn't a charge. */
    method Charges(counted: Counted)
      modifies this`ledger, this`passes
      ensures passes == old(passes) + [counted] && ledger == old(ledger) + ChargeOf(counted)
    {
      passes := passes + [counted];
      var micros := Round(Cost(counted.used));
      if micros > 0 {
        ledger := ledger + [Charge(counted.userId, micros, counted.to)];
      }
    }

    method ApplyCaps(id: SiteId, counted: Site, oversized: bool)
      modifies this`sites
      ensures sites == old(sites)[id := Capped(counted, oversized)]
    {
      var site := counted;
      if site.reason == Some(Database) && !oversized {
        site := Resumed(site);
      } else if !site.paused && site.monthRequests > SITE_REQUEST_CAP {
        site := Paused(site, Requests);
      } else if !site.paused && oversized {
        site := Paused(site, Database);
      }
      sites := sites[id := site];
    }

    /**
     * Counts every deployed site once, then pauses every running site of an owner who
     * is over the monthly spend, and no other site. `deployed` is the order the rows
     * come in.
     */
    method Accrue(deployed: seq<SiteId>, now: int)
      requires Valid() && clock <= now
      modifies this
      ensures Valid() && passes == old(passes) + Recounted(w, old(sites), deployed, now)
      ensures ledger == old(ledger) + LedgerOf(Recounted(w, old(sites), deployed, now))
      ensures sites == SpendPaused(AllPassed(w, old(sites), deployed, now), ledger, w.startOfMonth(now), OwnersOf(old(sites), deployed))
      ensures sites.Keys == old(sites).Keys
      ensures forall id <- sites ::
                SpendChecked(if id in deployed then Pass(w, id, old(sites)[id], now).site else old(sites)[id], sites[id],
                             set d | d in deployed && d in old(sites) :: old(sites)[d].userId, ledger, w.startOfMonth(now))
    {
      ghost var first, more := Contents(), Recounted(w, sites, deployed, now);
      LedgerAppend(first.passes, more);
      assert first.ledger == LedgerOf(first.passes);
      var users := PassAll(deployed, now);
      assert ledger == LedgerOf(passes);
      hide Inv, PassedTo, SpendPaused, AllPassed, Recounted, OwnersOf, LedgerOf;
      ghost var s := Contents();
      assert s.sites == AllPassed(w, first.sites, deployed, now) && s.passes == first.passes + more by { TakeApart(w, first, s, deployed, now); }
      NobodyPaused(sites, ledger, w.startOfMonth(now));
      var rest, since := users, w.startOfMonth(now);
      ghost var checked: set<UserId> := {};
      while rest != {}
        modifies this`sites
        invariant checked + rest == users && Valid()
        invariant sites == SpendPaused(s.sites, ledger, since, checked)
      {
        var userId :| userId in rest;
        rest := rest - {userId};
        OneUserMore(s.sites, ledger, since, checked, userId);
        if Overspent(ledger, userId, since) {
          PauseOver(userId, since);
        }
        checked := checked + {userId};
      }
      assert checked == users;
      SpendDecides(s.sites, ledger, since, users);
      PassedSites(w, first.sites, deployed, now);
      assert s.sites.Keys == first.sites.Keys;
    }

    /** The loop over the sites, which notes their owners. */
    method PassAll(deployed: seq<SiteId>, now: int) returns (users: set<UserId>)
      requires Valid() && clock <= now
      modifies this
      ensures Valid() && PassedTo(w, old(Contents()), Contents(), deployed, now) && users == OwnersOf(old(sites), deployed)
    {
      hide Inv, PassedTo, OwnersOf, Pass;
      AllLater(now);
      ghost var first := Contents();
      clock := now;
      users := {};
      assert deployed[..0] == [];
      for k := 0 to |deployed|
        invariant Valid() && clock == now && PassedTo(w, first, Contents(), deployed[..k], now)
        invariant users == OwnersOf(first.sites, deployed[..k])
      {
        var id := deployed[k];
        SameOwner(w, first, Contents(), deployed[..k], now, id);
        OneSiteMore(w, first, Contents(), deployed[..k], id, now);
        OneOwnerMore(first.sites, deployed[..k], id);
        assert deployed[..k + 1] == deployed[..k] + [id];
        if id in sites {
          users := users + {sites[id].userId};
        }
        PassSite(id, now);
      }
      assert deployed[..|deployed|] == deployed;
    }

    ghost method AllLater(now: int)
      requires Valid() && clock <= now
      ensures Inv(w, Contents().(clock := now)) && PassedTo(w, Contents(), Contents().(clock := now), [], now)
      ensures OwnersOf(sites, []) == {}
    {
      hide HistoryOf, LedgerOf, SiteOk, AsHostSays;
      forall id | id in sites ensures OneOk(w, Contents().(clock := now), id) {
        assert OneOk(w, Contents(), id);
        LaterIsOk(w, sites[id], HistoryOf(passes, id), clock, now);
      }
      assert AllPassed(w, sites, [], now) == sites && passes + [] == passes;
    }

    /** Pauses every running site of a user who spent over the cap. */
    method PauseOver(userId: UserId, ghost since: int)
      requires Valid() && Overspent(ledger, userId, since)
      modifies this`sites
      ensures sites == SpendPaused(old(sites), ledger, since, {userId}) && Valid()
    {
      hide Inv, Overspent;
      SpendKeeps(w, Contents(), since, {userId});
      ghost var after := SpendPaused(sites, ledger, since, {userId});
      assert forall id :: id in sites ==>
               after[id] == if sites[id].userId == userId && Running(sites[id]) then Paused(sites[id], Spend) else sites[id];
      hide SpendPaused;
      var rest := sites.Keys;
      while rest != {}
        invariant rest <= sites.Keys && sites.Keys == old(sites).Keys
        invariant forall id :: id in sites ==> sites[id] == if id in rest then old(sites)[id] else after[id]
      {
        var id :| id in rest;
        rest := rest - {id};
        if sites[id].userId == userId && Running(sites[id]) {
          sites := sites[id := Paused(sites[id], Spend)];
        }
      }
      assert sites == after;
    }

    /** The kill switch. Returns how many sites it paused. */
    method PauseAllSites() returns (n: nat)
      requires Valid()
      modifies this`sites
      ensures sites == AllPaused(old(sites)) && Valid()
      ensures sites.Keys == old(sites).Keys
      ensures forall id <- sites ::
                var site := old(sites)[id];
                sites[id] == if site.deployed && !site.paused then site.(paused := true, reason := Some(KillSwitch)) else site
      ensures n == |set id | id in old(sites) && old(sites)[id].deployed && !old(sites)[id].paused|
    {
      hide Inv, Running, AllPaused, Paused;
      SwitchKeeps(w, Contents());
      SwitchDecides(sites);
      ghost var after := AllPaused(sites);
      var running := set id | id in sites && Running(sites[id]);
      n := |running|;
      var rest := running;
      while rest != {}
        invariant rest <= running && sites.Keys == old(sites).Keys
        invariant forall id :: id in sites ==> sites[id] == if id in rest then old(sites)[id] else after[id]
      {
        var id :| id in rest;
        rest := rest - {id};
        sites := sites[id := Paused(sites[id], KillSwitch)];
      }
      assert sites == after;
    }

    /** Undoes it, leaving sites paused for other reasons. */
    method ResumeAllSites() returns (n: nat)
      requires Valid()
      modifies this`sites
      ensures sites == AllResumed(old(sites)) && Valid()
      ensures sites.Keys == old(sites).Keys
      ensures forall id <- sites ::
                var site := old(sites)[id];
                sites[id] == if site.reason == Some(KillSwitch) then site.(paused := false, reason := None) else site
      ensures n == |set id | id in old(sites) && old(sites)[id].reason == Some(KillSwitch)|
    {
      hide Inv, AllResumed, Resumed;
      SwitchKeeps(w, Contents());
      SwitchBackDecides(sites);
      ghost var after := AllResumed(sites);
      var off := set id | id in sites && sites[id].reason == Some(KillSwitch);
      n := |off|;
      var rest := off;
      while rest != {}
        invariant rest <= off && sites.Keys == old(sites).Keys
        invariant forall id :: id in sites ==> sites[id] == if id in rest then old(sites)[id] else after[id]
      {
        var id :| id in rest;
        rest := rest - {id};
        sites := sites[id := Resumed(sites[id])];
      }
      assert sites == after;
    }
  }

  lemma SameDatabase(site: Site, month: int)
    ensures NewMonth(site, month).databaseId == site.databaseId && NewMonth(site, month).userId == site.userId
  {
  }

  lemma SwitchDecides(sites: Sites)
    ensures AllPaused(sites).Keys == sites.Keys
    ensures forall id <- sites ::
              && (Running(sites[id]) <==> sites[id].deployed && !sites[id].paused)
              && Paused(sites[id], KillSwitch) == sites[id].(paused := true, reason := Some(KillSwitch))
              && AllPaused(sites)[id] == if Running(sites[id]) then Paused(sites[id], KillSwitch) else sites[id]
    ensures (set id | id in sites && Running(sites[id])) == (set id | id in sites && sites[id].deployed && !sites[id].paused)
  {
  }

  lemma SwitchBackDecides(sites: Sites)
    ensures AllResumed(sites).Keys == sites.Keys
    ensures forall id <- sites ::
              && Resumed(sites[id]) == sites[id].(paused := false, reason := None)
              && AllResumed(sites)[id] == if sites[id].reason == Some(KillSwitch) then Resumed(sites[id]) else sites[id]
  {
  }

  lemma PassedSites(w: World, sites: Sites, ids: seq<SiteId>, now: int)
    ensures AllPassed(w, sites, ids, now).Keys == sites.Keys
    ensures forall id <- sites ::
              AllPassed(w, sites, ids, now)[id] == if id in ids then Pass(w, id, sites[id], now).site else sites[id]
    ensures OwnersOf(sites, ids) == set id | id in ids && id in sites :: sites[id].userId
  {
    hide Pass;
  }

  lemma TakeApart(w: World, s: State, s': State, ids: seq<SiteId>, now: int)
    requires PassedTo(w, s, s', ids, now)
    ensures s'.sites == AllPassed(w, s.sites, ids, now) && s'.passes == s.passes + Recounted(w, s.sites, ids, now)
  {
  }

  lemma NobodyPaused(sites: Sites, ledger: seq<Charge>, since: int)
    ensures SpendPaused(sites, ledger, since, {}) == sites
  {
  }

  /** A pass leaves a site with its owner. */
  lemma SameOwner(w: World, s: State, s': State, ids: seq<SiteId>, now: int, id: SiteId)
    requires PassedTo(w, s, s', ids, now)
    ensures (id in s'.sites <==> id in s.sites) && (id in s.sites ==> s'.sites[id].userId == s.sites[id].userId)
  {
    if id in s.sites { PassKeepsOwner(w, id, s.sites[id], now); }
    hide Pass;
  }

  lemma PassKeepsOwner(w: World, id: SiteId, site: Site, now: int)
    ensures Pass(w, id, site, now).site.userId == site.userId
  {
  }
}
