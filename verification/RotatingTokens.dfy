/**
 * Access tokens for a connection whose refresh tokens rotate: any number of
 * services, each with a cache of its own, share one row and take its lock to refresh.
 *
 * Instants are milliseconds. One provider grant stands behind the connection; it
 * never issues a token, of either kind, twice.
 */
module RotatingTokens {
  import opened Wrappers

  type Access = nat
  type Refresh = nat
  type Service = nat
  type Call = nat

  const REFRESH_BEFORE_MS := 60_000

  datatype Status = Fine | Expiring | Expired | Disconnected

  datatype Held = Held(token: Access, expiresAt: int)

  /** The columns of a connection that matter here; the ciphertexts as what they seal. */
  datatype Row = Row(status: Status, refreshToken: Option<Refresh>, access: Option<Held>)

  datatype Fresh = Fresh(accessToken: Access, expiresIn: int, refreshToken: Option<Refresh>)

  datatype Reply = Granted(tokens: Fresh) | InvalidGrant

  datatype Outcome = Token(token: Access) | Unavailable(status: Status)

  predicate Usable(held: Option<Held>, rejected: Option<Access>, now: int) {
    held.Some? && Some(held.value.token) != rejected && held.value.expiresAt - REFRESH_BEFORE_MS > now
  }

  predicate IsGone(status: Status) {
    status.Expired? || status.Disconnected?
  }

  // ---------------------------------------------------------------- What a call decides

  datatype Look = Cached(held: Held) | Stored(held: Held) | Refuse(status: Status) | Queue

  /** Without the lock, by the row as it was read and the service's own cache. */
  function LookUp(row: Row, cached: Option<Held>, rejected: Option<Access>, now: int): Look {
    if IsGone(row.status) then Refuse(row.status)
    else if Usable(cached, rejected, now) then Cached(cached.value)
    else if Usable(row.access, rejected, now) then Stored(row.access.value)
    else Queue
  }

  datatype Verdict = Use(held: Held) | Gone | Trade(refreshToken: Refresh)

  /** Under the lock, by the row as it is now. */
  function UnderLock(row: Row, rejected: Option<Access>, now: int): Verdict {
    if IsGone(row.status) then Gone
    else if Usable(row.access, rejected, now) then Use(row.access.value)
    else if row.refreshToken.None? then Gone
    else Trade(row.refreshToken.value)
  }

  function HeldOf(tokens: Fresh, now: int): Held {
    Held(tokens.accessToken, now + tokens.expiresIn * 1000)
  }

  /** The row once the provider's reply is stored. */
  function Store(row: Row, reply: Reply, now: int): Row {
    match reply
    case Granted(tokens) =>
      row.(refreshToken := if tokens.refreshToken.Some? then tokens.refreshToken else row.refreshToken,
           access := Some(HeldOf(tokens, now)))
    case InvalidGrant => if IsGone(row.status) then row else row.(status := Expired)
  }

  lemma OneRowChanged(rows: map<nat, Row>, rows': map<nat, Row>, id: nat)
    requires id in rows && rows'.Keys == rows.Keys && rows' - {id} == rows - {id}
    ensures rows' == rows[id := rows'[id]]
  {
    forall i | i in rows && i != id ensures rows'[i] == rows[i] {
      assert (rows' - {id})[i] == (rows - {id})[i];
    }
  }

  // ---------------------------------------------------------------- One service alone

  class AccessTokens {
    var rows: map<nat, Row>
    var cache: map<nat, Held>

    function Cache(id: nat): Option<Held>
      reads this
    {
      if id in cache then Some(cache[id]) else None
    }

    constructor (rows: map<nat, Row>)
      ensures this.rows == rows && cache == map[]
    {
      this.rows, cache := rows, map[];
    }

    /**
     * A call that nothing else interleaves with: `looks` and `locks` are the clock at
     * its two decisions and `stores` at its last; `refresh` is the provider.
     */
    method AccessToken(id: nat, rejected: Option<Access>, looks: int, locks: int, stores: int, refresh: Refresh -> Reply)
      returns (r: Outcome)
      requires id in rows
      modifies this
      ensures rows.Keys == old(rows.Keys) && rows - {id} == old(rows) - {id} && cache - {id} == old(cache) - {id}
      ensures match LookUp(old(rows[id]), old(Cache(id)), rejected, looks)
              case Refuse(status) => r == Unavailable(status) && rows == old(rows) && id !in cache
              case Cached(held) => r == Token(held.token) && rows == old(rows) && cache == old(cache)
              case Stored(held) => r == Token(held.token) && rows == old(rows) && Cache(id) == Some(held)
              case Queue =>
                match UnderLock(old(rows[id]), rejected, locks)
                case Use(held) => r == Token(held.token) && rows == old(rows) && Cache(id) == Some(held)
                case Gone => r == Unavailable(Expired) && rows == old(rows) && id !in cache
                case Trade(token) =>
                  && rows[id] == Store(old(rows[id]), refresh(token), stores)
                  && (match refresh(token)
                      case Granted(tokens) => r == Token(tokens.accessToken) && Cache(id) == Some(HeldOf(tokens, stores))
                      case InvalidGrant => r == Unavailable(Expired) && id !in cache)
      ensures if r.Token? then id in cache && cache[id].token == r.token else id !in cache
      ensures var row, own := old(rows[id]), old(Cache(id));
              var good := (h: Option<Held>, now: int) =>
                h.Some? && h.value.expiresAt - 60_000 > now && Some(h.value.token) != rejected;
              if row.status == Expired || row.status == Disconnected then r == Unavailable(row.status) && rows == old(rows)
              else if good(own, looks) then r == Token(own.value.token) && rows == old(rows)
              else if good(row.access, looks) || good(row.access, locks) then r == Token(row.access.value.token) && rows == old(rows)
              else if row.refreshToken.None? then r == Unavailable(Expired) && rows == old(rows)
              else
                match refresh(row.refreshToken.value)
                case InvalidGrant => r == Unavailable(Expired) && rows == old(rows)[id := row.(status := Expired)]
                case Granted(tokens) =>
                  && r == Token(tokens.accessToken)
                  && rows == old(rows)[id := Row(row.status,
                                                 if tokens.refreshToken.Some? then tokens.refreshToken else row.refreshToken,
                                                 Some(Held(tokens.accessToken, stores + tokens.expiresIn * 1000)))]
    {
      var row := rows[id];
      if IsGone(row.status) {
        cache := cache - {id};
        return Unavailable(row.status);
      }
      if id in cache && Usable(Some(cache[id]), rejected, looks) {
        return Token(cache[id].token);
      }
      var held: Option<Held> := None;
      if Usable(row.access, rejected, looks) {
        held := row.access;
      } else {
        held := Refreshed(id, rejected, locks, stores, refresh);
        OneRowChanged(old(rows), rows, id);
      }
      if held.None? {
        cache := cache - {id};
        return Unavailable(Expired);
      }
      cache := cache[id := held.value];
      return Token(held.value.token);
    }

    /** The stored access token if it's still good, or a fresh one; None is "expired". */
    method Refreshed(id: nat, rejected: Option<Access>, locks: int, stores: int, refresh: Refresh -> Reply)
      returns (held: Option<Held>)
      requires id in rows
      modifies this`rows
      ensures rows.Keys == old(rows.Keys) && rows - {id} == old(rows) - {id}
      ensures match UnderLock(old(rows[id]), rejected, locks)
              case Use(h) => held == Some(h) && rows == old(rows)
              case Gone => held == None && rows == old(rows)
              case Trade(token) =>
                && rows[id] == Store(old(rows[id]), refresh(token), stores)
                && held == (match refresh(token) case Granted(tokens) => Some(HeldOf(tokens, stores)) case InvalidGrant => None)
    {
      var row := rows[id];
      if IsGone(row.status) {
        return None;
      }
      if Usable(row.access, rejected, locks) {
        return row.access;
      }
      if row.refreshToken.None? {
        return None;
      }
      var reply := refresh(row.refreshToken.value);
      if reply.InvalidGrant? {
        rows := rows[id := row.(status := Expired)];
        return None;
      }
      var tokens := reply.tokens;
      var expiresAt := stores + tokens.expiresIn * 1000;
      rows := rows[id := row.(refreshToken := if tokens.refreshToken.Some? then tokens.refreshToken else row.refreshToken,
                              access := Some(Held(tokens.accessToken, expiresAt)))];
      return Some(Held(tokens.accessToken, expiresAt));
    }
  }

  // ---------------------------------------------------------------- Many services at once

  /** Where a call stands. A call in Calling or Replied holds the row's lock. */
  datatype Phase = Reading(row: Row) | Queued | Calling(presented: Refresh) | Replied(reply: Reply) | Done(outcome: Outcome)

  datatype CallState = CallState(service: Service, rejected: Option<Access>, phase: Phase)

  datatype Provider = Provider(live: Option<Refresh>, spent: set<Refresh>, issued: set<Refresh>)

  /** Requests to the provider, tokens stored, and tokens dropped with their grant. */
  datatype Event = Called(rejected: Option<Access>, now: int) | Given(held: Held) | Dropped

  /**
   * `seen` are the access tokens anyone has named. `adrift` are the refresh tokens of
   * requests under way whose caller crashed, or gave up on them. `lost` says that a
   * new refresh token has reached nobody since the grant was stored.
   */
  datatype System = System(
    row: Row, provider: Provider, lock: Option<Call>, calls: map<Call, CallState>, caches: map<Service, Held>,
    seen: set<Access>, log: seq<Event>, adrift: multiset<Refresh>, lost: bool)

  datatype Step =
    | Asks(call: Call, service: Service, rejected: Option<Access>)
    | Decides(call: Call, now: int)
    | Locks(call: Call, now: int)
    | ProviderAnswers(call: Call, tokens: Fresh, revokes: bool)
    | Commits(call: Call, now: int)
    | Crashes(call: Call)
    | AnswersNobody(presented: Refresh, tokens: Fresh, revokes: bool)
    | Reconnects(token: Refresh)
    | Disconnects
    | DropsGrant
    | GrantEnds

  predicate IsNew(s: System, tokens: Fresh) {
    tokens.accessToken !in s.seen && (tokens.refreshToken.Some? ==> tokens.refreshToken.value !in s.provider.issued)
  }

  predicate Allowed(s: System, step: Step) {
    match step
    case Asks(call, _, _) => call !in s.calls
    case Decides(call, _) => call in s.calls && s.calls[call].phase.Reading?
    case Locks(call, _) => call in s.calls && s.calls[call].phase.Queued? && s.lock.None?
    case ProviderAnswers(call, tokens, _) =>
      call in s.calls && s.calls[call].phase.Calling? && IsNew(s, tokens)
    case Commits(call, _) => call in s.calls && s.calls[call].phase.Replied?
    case Crashes(call) => call in s.calls
    case AnswersNobody(presented, tokens, _) => presented in s.adrift && IsNew(s, tokens)
    // An update of the row waits for its lock.
    case Reconnects(token) => s.lock.None? && token !in s.provider.issued
    case Disconnects => s.lock.None?
    case DropsGrant => s.lock.None? && s.row.status.Disconnected?
    case GrantEnds => true
  }

  function CacheOf(s: System, service: Service): Option<Held> {
    if service in s.caches then Some(s.caches[service]) else None
  }

  function Moved(s: System, call: Call, phase: Phase): map<Call, CallState>
    requires call in s.calls
  {
    s.calls[call := s.calls[call].(phase := phase)]
  }

  function Finish(s: System, call: Call, outcome: Outcome, caches: map<Service, Held>): System
    requires call in s.calls
  {
    s.(calls := Moved(s, call, Done(outcome)), caches := caches)
  }

  function Decide(s: System, call: Call, now: int): System
    requires Allowed(s, Decides(call, now))
  {
    var c := s.calls[call];
    match LookUp(c.phase.row, CacheOf(s, c.service), c.rejected, now)
    case Refuse(status) => Finish(s, call, Unavailable(status), s.caches - {c.service})
    case Cached(held) => Finish(s, call, Token(held.token), s.caches)
    case Stored(held) => Finish(s, call, Token(held.token), s.caches[c.service := held])
    case Queue => s.(calls := Moved(s, call, Queued))
  }

  function TakeLock(s: System, call: Call, now: int): System
    requires Allowed(s, Locks(call, now))
  {
    var c := s.calls[call];
    match UnderLock(s.row, c.rejected, now)
    case Use(held) => Finish(s, call, Token(held.token), s.caches[c.service := held])
    case Gone => Finish(s, call, Unavailable(Expired), s.caches - {c.service})
    case Trade(token) =>
      s.(lock := Some(call), calls := Moved(s, call, Calling(token)), log := s.log + [Called(c.rejected, now)])
  }

  /** Whether the provider grants the token it is presented with. */
  predicate Grants(p: Provider, presented: Refresh) {
    p.live == Some(presented)
  }

  /** The provider once it has answered: it rotates the token it grants, and may end the grant over a wrong one. */
  function Answered(p: Provider, presented: Refresh, tokens: Fresh, revokes: bool): Provider {
    if !Grants(p, presented) then p.(live := if revokes then None else p.live)
    else if tokens.refreshToken.None? then p
    else Provider(tokens.refreshToken, p.spent + {presented}, p.issued + {tokens.refreshToken.value})
  }

  function Answer(s: System, call: Call, tokens: Fresh, revokes: bool): System
    requires Allowed(s, ProviderAnswers(call, tokens, revokes))
  {
    var presented := s.calls[call].phase.presented;
    var s' := s.(provider := Answered(s.provider, presented, tokens, revokes));
    if !Grants(s.provider, presented) then s'.(calls := Moved(s, call, Replied(InvalidGrant)))
    else s'.(calls := Moved(s, call, Replied(Granted(tokens))), seen := s.seen + {tokens.accessToken})
  }

  /** The provider answers a request whose caller is gone. What it grants reaches nobody. */
  function Waste(s: System, presented: Refresh, tokens: Fresh, revokes: bool): System {
    var s' := s.(provider := Answered(s.provider, presented, tokens, revokes), adrift := s.adrift - multiset{presented});
    if !Grants(s.provider, presented) then s'
    else s'.(seen := s.seen + {tokens.accessToken}, lost := s.lost || tokens.refreshToken.Some?)
  }

  function Commit(s: System, call: Call, now: int): System
    requires Allowed(s, Commits(call, now))
  {
    var c := s.calls[call];
    var s' := s.(lock := None, row := Store(s.row, c.phase.reply, now));
    match c.phase.reply
    case InvalidGrant => Finish(s', call, Unavailable(Expired), s.caches - {c.service})
    case Granted(tokens) =>
      var held := HeldOf(tokens, now);
      Finish(s'.(log := s.log + [Given(held)]), call, Token(held.token), s.caches[c.service := held])
  }

  predicate Rotated(phase: Phase) {
    phase.Replied? && phase.reply.Granted? && phase.reply.tokens.refreshToken.Some?
  }

  function Next(s: System, step: Step): System
    requires Allowed(s, step)
  {
    match step
    case Asks(call, service, rejected) =>
      s.(calls := s.calls[call := CallState(service, rejected, Reading(s.row))],
         seen := if rejected.Some? then s.seen + {rejected.value} else s.seen)
    case Decides(call, now) => Decide(s, call, now)
    case Locks(call, now) => TakeLock(s, call, now)
    case ProviderAnswers(call, tokens, revokes) => Answer(s, call, tokens, revokes)
    case Commits(call, now) => Commit(s, call, now)
    case Crashes(call) =>
      s.(calls := s.calls - {call}, lock := if s.lock == Some(call) then None else s.lock,
         lost := s.lost || Rotated(s.calls[call].phase),
         adrift := if s.calls[call].phase.Calling? then s.adrift + multiset{s.calls[call].phase.presented} else s.adrift)
    case AnswersNobody(presented, tokens, revokes) => Waste(s, presented, tokens, revokes)
    case Reconnects(token) =>
      s.(row := Row(Fine, Some(token), None), log := s.log + [Dropped], lost := false,
         provider := Provider(Some(token), s.provider.spent, s.provider.issued + {token}))
    case Disconnects => s.(row := s.row.(status := Disconnected))
    case DropsGrant =>
      s.(row := s.row.(refreshToken := None, access := None), log := s.log + [Dropped], provider := s.provider.(live := None))
    case GrantEnds => s.(provider := s.provider.(live := None))
  }

  function Start(): System {
    System(Row(Disconnected, None, None), Provider(None, {}, {}), None, map[], map[], {}, [], multiset{}, false)
  }

  predicate Legal(s: System, steps: seq<Step>)
    decreases |steps|
  {
    steps == [] || (Allowed(s, steps[0]) && Legal(Next(s, steps[0]), steps[1..]))
  }

  function After(s: System, steps: seq<Step>): System
    requires Legal(s, steps)
    decreases |steps|
  {
    if steps == [] then s else After(Next(s, steps[0]), steps[1..])
  }

  // ---------------------------------------------------------------- The invariant

  predicate Locking(phase: Phase) {
    phase.Calling? || phase.Replied?
  }

  /** Only the holder of the lock is past it. */
  ghost predicate LockOk(lock: Option<Call>, calls: map<Call, CallState>) {
    && (lock.Some? ==> lock.value in calls && Locking(calls[lock.value].phase))
    && (forall c :: c in calls && Locking(calls[c].phase) ==> lock == Some(c))
  }

  /** The refresh token the row holds, or will once the holder of the lock commits. */
  function Due(s: System): Option<Refresh> {
    if s.lock.Some? && s.lock.value in s.calls && Rotated(s.calls[s.lock.value].phase) then
      s.calls[s.lock.value].phase.reply.tokens.refreshToken
    else s.row.refreshToken
  }

  ghost predicate PresentsStored(s: System) {
    forall c :: c in s.calls && s.calls[c].phase.Calling? ==> s.row.refreshToken == Some(s.calls[c].phase.presented)
  }

  /**
   * The token due is the provider's live one, unless the grant is gone; but once a
   * new one has reached nobody, what is stored is spent.
   */
  ghost predicate TokenOk(due: Option<Refresh>, p: Provider, lost: bool) {
    && p.spent <= p.issued
    && (p.live.Some? ==> p.live.value in p.issued && p.live.value !in p.spent)
    && (due.Some? ==>
          && due.value in p.issued
          && (due.value in p.spent <==> lost)
          && (!lost && p.live.Some? ==> p.live == due))
  }

  /** Between the provider's rotation and the commit, what is stored is spent. */
  ghost predicate RotatedOk(s: System) {
    s.lock.Some? && s.lock.value in s.calls && Rotated(s.calls[s.lock.value].phase) ==>
      !s.lost && s.row.refreshToken.Some? && s.row.refreshToken.value in s.provider.spent
  }

  /** A request adrift can only be granted for the token that is stored. */
  ghost predicate AdriftOk(row: Row, p: Provider, adrift: multiset<Refresh>) {
    forall t :: t in adrift ==> t in p.issued && (p.live == Some(t) ==> row.refreshToken == Some(t))
  }

  ghost predicate RejectedOk(c: CallState, seen: set<Access>) {
    && (c.rejected.Some? ==> c.rejected.value in seen)
    && (c.phase.Done? && c.phase.outcome.Token? ==> Some(c.phase.outcome.token) != c.rejected)
    && (c.phase.Replied? && c.phase.reply.Granted? ==> Some(c.phase.reply.tokens.accessToken) != c.rejected)
  }

  /** The access token stored last, unless its grant was dropped since. */
  function LastGiven(log: seq<Event>): Option<Held> {
    if log == [] then None
    else
      match log[|log| - 1]
      case Called(_, _) => LastGiven(log[..|log| - 1])
      case Given(held) => Some(held)
      case Dropped => None
  }

  ghost predicate CalledFor(log: seq<Event>, k: nat)
    requires k < |log|
  {
    log[k].Called? ==> !Usable(LastGiven(log[..k]), log[k].rejected, log[k].now)
  }

  ghost predicate LogOk(log: seq<Event>, access: Option<Held>) {
    LastGiven(log) == access && forall k :: 0 <= k < |log| ==> CalledFor(log, k)
  }

  ghost predicate Inv(s: System) {
    && LockOk(s.lock, s.calls)
    && PresentsStored(s)
    && TokenOk(Due(s), s.provider, s.lost)
    && RotatedOk(s)
    && AdriftOk(s.row, s.provider, s.adrift)
    && (forall c :: c in s.calls ==> RejectedOk(s.calls[c], s.seen))
    && LogOk(s.log, s.row.access)
  }

  lemma LogOne(log: seq<Event>, access: Option<Held>, e: Event)
    requires LogOk(log, access) && (e.Called? ==> !Usable(access, e.rejected, e.now))
    ensures LogOk(log + [e], match e case Called(_, _) => access case Given(held) => Some(held) case Dropped => None)
  {
    var log' := log + [e];
    assert log'[..|log|] == log;
    forall k | 0 <= k < |log'| ensures CalledFor(log', k) {
      if k < |log| {
        assert log'[..k] == log[..k];
        assert CalledFor(log, k);
      }
    }
  }

  lemma DecideKeeps(s: System, call: Call, now: int)
    requires Inv(s) && Allowed(s, Decides(call, now))
    ensures Inv(Decide(s, call, now))
  {
    hide LogOk, TokenOk, AdriftOk;
  }

  lemma LockKeeps(s: System, call: Call, now: int)
    requires Inv(s) && Allowed(s, Locks(call, now))
    ensures Inv(TakeLock(s, call, now))
  {
    hide TokenOk, LogOk, AdriftOk;
    if UnderLock(s.row, s.calls[call].rejected, now).Trade? {
      LogOne(s.log, s.row.access, Called(s.calls[call].rejected, now));
    }
  }

  lemma AnswerKeeps(s: System, call: Call, tokens: Fresh, revokes: bool)
    requires Inv(s) && Allowed(s, ProviderAnswers(call, tokens, revokes))
    ensures Inv(Answer(s, call, tokens, revokes))
  {
    hide LogOk, Usable;
  }

  lemma CommitKeeps(s: System, call: Call, now: int)
    requires Inv(s) && Allowed(s, Commits(call, now))
    ensures Inv(Commit(s, call, now))
  {
    hide LogOk, Usable;
    if s.calls[call].phase.reply.Granted? {
      LogOne(s.log, s.row.access, Given(HeldOf(s.calls[call].phase.reply.tokens, now)));
    }
  }

  lemma CrashKeeps(s: System, call: Call)
    requires Inv(s) && Allowed(s, Crashes(call))
    ensures Inv(Next(s, Crashes(call)))
  {
    hide LogOk, Usable;
  }

  lemma WasteKeeps(s: System, presented: Refresh, tokens: Fresh, revokes: bool)
    requires Inv(s) && Allowed(s, AnswersNobody(presented, tokens, revokes))
    ensures Inv(Waste(s, presented, tokens, revokes))
  {
    hide LogOk, Usable;
  }

  lemma OtherKeeps(s: System, step: Step)
    requires Inv(s) && Allowed(s, step)
    requires step.Asks? || step.Reconnects? || step.Disconnects? || step.DropsGrant? || step.GrantEnds?
    ensures Inv(Next(s, step))
  {
    hide LogOk, Usable;
    LogOne(s.log, s.row.access, Dropped);
  }

  lemma StepKeeps(s: System, step: Step)
    requires Inv(s) && Allowed(s, step)
    ensures Inv(Next(s, step))
  {
    hide Inv, Decide, TakeLock, Answer, Commit, Waste;
    match step
    case Decides(call, now) => DecideKeeps(s, call, now);
    case Locks(call, now) => LockKeeps(s, call, now);
    case ProviderAnswers(call, tokens, revokes) => AnswerKeeps(s, call, tokens, revokes);
    case Commits(call, now) => CommitKeeps(s, call, now);
    case Crashes(call) => CrashKeeps(s, call);
    case AnswersNobody(presented, tokens, revokes) => WasteKeeps(s, presented, tokens, revokes);
    case _ => OtherKeeps(s, step);
  }

  lemma {:induction false} RunKeeps(s: System, steps: seq<Step>)
    requires Inv(s) && Legal(s, steps)
    ensures Inv(After(s, steps))
    decreases |steps|
  {
    if steps == [] {
    } else {
      StepKeeps(s, steps[0]);
      hide Inv, Next, Allowed;
      RunKeeps(Next(s, steps[0]), steps[1..]);
    }
  }

  // ---------------------------------------------------------------- What holds in every run

  lemma ReachedInv(steps: seq<Step>)
    requires Legal(Start(), steps)
    ensures Inv(After(Start(), steps))
  {
    RunKeeps(Start(), steps);
  }

  /**
   * With any number of services refreshing, what is stored while the lock is free is
   * the provider's live refresh token, as long as the grant lasts; it is a spent one
   * exactly when a rotation since the grant was stored has reached nobody, because its
   * caller crashed, before the provider answered or after.
   */
  lemma StoredIsLive(steps: seq<Step>)
    requires Legal(Start(), steps) && After(Start(), steps).lock.None? && After(Start(), steps).row.refreshToken.Some?
    ensures var s := After(Start(), steps);
            && (!s.lost && s.provider.live.Some? ==> s.row.refreshToken == s.provider.live)
            && (s.row.refreshToken.value in s.provider.spent <==> s.lost)
  {
    ReachedInv(steps);
    hide After, Legal, LogOk;
  }

  /**
   * The token presented is a spent one exactly when a rotation has reached nobody, be
   * it while the request was under way; otherwise it is the live one, and the provider
   * grants it.
   */
  lemma SpentIsPresentedOnlyAfterACrash(steps: seq<Step>, call: Call)
    requires Legal(Start(), steps)
    requires var s := After(Start(), steps); call in s.calls && s.calls[call].phase.Calling?
    ensures var s := After(Start(), steps);
            && s.lock == Some(call)
            && (s.calls[call].phase.presented in s.provider.spent <==> s.lost)
            && (!s.lost && s.provider.live.Some? ==> s.provider.live == Some(s.calls[call].phase.presented))
  {
    ReachedInv(steps);
    hide After, Legal, LogOk;
  }

  /** A token the caller said was rejected is never handed back to it. */
  lemma RejectedIsNotHandedBack(steps: seq<Step>, call: Call)
    requires Legal(Start(), steps)
    requires var s := After(Start(), steps);
             call in s.calls && s.calls[call].phase.Done? && s.calls[call].phase.outcome.Token?
    ensures var c := After(Start(), steps).calls[call]; Some(c.phase.outcome.token) != c.rejected
  {
    ReachedInv(steps);
    hide After, Legal, LogOk, TokenOk;
    assert RejectedOk(After(Start(), steps).calls[call], After(Start(), steps).seen);
  }

  /**
   * The provider is asked only when the token stored last is no good to the caller.
   * So of any calls that all saw the same stale token only one refreshes: once its
   * token is stored, the next request comes when that one runs out, or is rejected
   * itself, or went with its grant.
   */
  lemma OneRefreshForAll(steps: seq<Step>, i: nat, j: nat)
    requires Legal(Start(), steps) && i < j < |After(Start(), steps).log|
    requires var log := After(Start(), steps).log;
             && log[i].Given? && log[j].Called?
             && (forall k :: i < k < j ==> !log[k].Dropped?)
    ensures var log := After(Start(), steps).log;
            exists k :: i <= k < j && log[k].Given?
              && (log[j].rejected == Some(log[k].held.token) || log[j].now >= log[k].held.expiresAt - REFRESH_BEFORE_MS)
  {
    ReachedInv(steps);
    var log := After(Start(), steps).log;
    hide After, Legal, TokenOk, LockOk, PresentsStored, RotatedOk;
    assert CalledFor(log, j);
    var k := LastGivenAt(log, i, j);
    assert log[..j][k] == log[k];
  }

  lemma {:induction false} LastGivenAt(log: seq<Event>, i: nat, j: nat) returns (k: nat)
    requires i < j <= |log| && log[i].Given? && forall k :: i < k < j ==> !log[k].Dropped?
    ensures i <= k < j && log[k].Given? && LastGiven(log[..j]) == Some(log[k].held)
    decreases j
  {
    assert log[..j][..j - 1] == log[..j - 1];
    if log[j - 1].Given? {
      k := j - 1;
    } else {
      k := LastGivenAt(log, i, j - 1);
    }
  }

  // ---------------------------------------------------------------- What is handed out is good

  /** More than a minute is left of a token, and the caller has not said it was rejected. */
  predicate LeftOf(held: Option<Held>, t: Access, rejected: Option<Access>, now: int) {
    held.Some? && held.value.token == t && Some(t) != rejected && held.value.expiresAt - 60_000 > now
  }

  /**
   * The step that ends a call with a token: it is the cached or stored one, with more
   * than a minute left at that instant, or the provider has just granted it.
   */
  ghost predicate HandsOut(s: System, step: Step, call: Call, t: Access) {
    && call in s.calls
    && var c := s.calls[call];
       match step
       case Decides(i, now) =>
         && i == call && c.phase.Reading?
         && (LeftOf(CacheOf(s, c.service), t, c.rejected, now) || LeftOf(c.phase.row.access, t, c.rejected, now))
       case Locks(i, now) => i == call && LeftOf(s.row.access, t, c.rejected, now)
       case Commits(i, _) => i == call && c.phase.Replied? && c.phase.reply.Granted? && c.phase.reply.tokens.accessToken == t
       case _ => false
  }

  predicate Ended(s: System, call: Call, t: Access) {
    call in s.calls && s.calls[call].phase == Done(Token(t))
  }

  lemma EndsByHandingOut(s: System, step: Step, call: Call, t: Access)
    requires Allowed(s, step) && !Ended(s, call, t) && Ended(Next(s, step), call, t)
    ensures HandsOut(s, step, call, t)
  {
  }

  /** Over any run, a call that ended with a token was handed a good one. */
  lemma {:induction false} HandedOutIsGood(s: System, steps: seq<Step>, call: Call, t: Access) returns (k: nat)
    requires Legal(s, steps) && !Ended(s, call, t) && Ended(After(s, steps), call, t)
    ensures k < |steps| && Legal(s, steps[..k]) && HandsOut(After(s, steps[..k]), steps[k], call, t)
    decreases |steps|
  {
    if Ended(Next(s, steps[0]), call, t) {
      EndsByHandingOut(s, steps[0], call, t);
      k := 0;
    } else {
      hide Next, Allowed, Ended, HandsOut;
      k := HandedOutIsGood(Next(s, steps[0]), steps[1..], call, t);
      assert steps[..k + 1][1..] == steps[1..][..k] && steps[..k + 1][0] == steps[0];
      k := k + 1;
    }
  }

  /**
   * The provider is asked, under the lock, exactly when the connection is not gone,
   * has a refresh token, and its stored token is rejected or has a minute left or less.
   */
  lemma AskedIffNeeded(s: System, call: Call, now: int)
    requires Allowed(s, Locks(call, now))
    ensures var rejected, access := s.calls[call].rejected, s.row.access;
            var phase := Next(s, Locks(call, now)).calls[call].phase;
            && (phase.Calling? <==>
                  && s.row.status != Expired && s.row.status != Disconnected && s.row.refreshToken.Some?
                  && (access.Some? ==> Some(access.value.token) == rejected || access.value.expiresAt - 60_000 <= now))
            && (phase.Calling? ==> Some(phase.presented) == s.row.refreshToken)
  {
  }

  /** Nor does a call wait for the lock with a good token at hand. */
  lemma QueuedIffNeeded(s: System, call: Call, now: int)
    requires Allowed(s, Decides(call, now))
    ensures var c := s.calls[call];
            var row, own, phase := c.phase.row, CacheOf(s, c.service), Next(s, Decides(call, now)).calls[call].phase;
            phase.Queued? <==>
              && row.status != Expired && row.status != Disconnected
              && (own.Some? ==> Some(own.value.token) == c.rejected || own.value.expiresAt - 60_000 <= now)
              && (row.access.Some? ==> Some(row.access.value.token) == c.rejected || row.access.value.expiresAt - 60_000 <= now)
  {
  }

  // ---------------------------------------------------------------- Runs that lose the grant

  /**
   * A caller crashes once the provider has rotated its token, or, if `waits`, before
   * that; another then presents the same token, and the provider answers the first.
   */
  function CrashSteps(waits: bool): seq<Step> {
    var granted := Fresh(1, 3600, Some(8));
    [Reconnects(7), Asks(0, 0, None), Decides(0, 0), Locks(0, 0)]
    + (if waits then [Crashes(0)] else [ProviderAnswers(0, granted, false), Crashes(0)])
    + [Asks(1, 0, None), Decides(1, 0), Locks(1, 0)]
    + (if waits then [AnswersNobody(7, granted, false)] else [])
  }

  /** The states of that run. */
  function CrashState(waits: bool, k: nat): System {
    var asked := CallState(0, None, Reading(Row(Fine, Some(7), None)));
    var s1 := System(Row(Fine, Some(7), None), Provider(Some(7), {}, {7}), None, map[], map[], {}, [Dropped], multiset{}, false);
    var once, twice := [Dropped, Called(None, 0)], [Dropped, Called(None, 0), Called(None, 0)];
    var s4 := s1.(calls := map[0 := asked.(phase := Calling(7))], lock := Some(0), log := once);
    var rotated := s1.(provider := Provider(Some(8), {7}, {7, 8}), seen := {1}, log := once, lost := true);
    var gone := if waits then s1.(log := once, adrift := multiset{7}) else rotated;
    var presents := gone.(calls := map[1 := asked.(phase := Calling(7))], lock := Some(1), log := twice);
    match k
    case 0 => Start()
    case 1 => s1
    case 2 => s1.(calls := map[0 := asked])
    case 3 => s1.(calls := map[0 := asked.(phase := Queued)])
    case 4 => s4
    case 5 =>
      if waits then gone
      else rotated.(calls := map[0 := asked.(phase := Replied(Granted(Fresh(1, 3600, Some(8)))))], lock := Some(0), lost := false)
    case 6 => if waits then gone.(calls := map[1 := asked]) else gone
    case 7 => gone.(calls := map[1 := if waits then asked.(phase := Queued) else asked])
    case 8 => if waits then presents else gone.(calls := map[1 := asked.(phase := Queued)])
    case _ => if waits then presents.(provider := rotated.provider, seen := {1}, adrift := multiset{}, lost := true) else presents
  }

  ghost predicate CrashLeads(waits: bool, k: nat)
    requires k < 9
  {
    && Allowed(CrashState(waits, k), CrashSteps(waits)[k])
    && Next(CrashState(waits, k), CrashSteps(waits)[k]) == CrashState(waits, k + 1)
  }

  lemma FirstPresents(waits: bool, k: nat)
    requires k < 4
    ensures CrashLeads(waits, k)
  {
  }

  lemma FirstCrashes(waits: bool, k: nat)
    requires k == 4 || k == 5
    ensures CrashLeads(waits, k)
  {
  }

  lemma SecondPresents(waits: bool, k: nat)
    requires 6 <= k < 8
    ensures CrashLeads(waits, k)
  {
  }

  lemma GrantIsLost(waits: bool)
    ensures CrashLeads(waits, 8)
  {
  }

  lemma CrashStep(waits: bool, k: nat)
    requires k < 9
    ensures CrashLeads(waits, k)
  {
    hide CrashLeads;
    if k < 4 {
      FirstPresents(waits, k);
    } else if k < 6 {
      FirstCrashes(waits, k);
    } else if k < 8 {
      SecondPresents(waits, k);
    } else {
      GrantIsLost(waits);
    }
  }

  lemma Prepend(s: System, step: Step, rest: seq<Step>)
    requires Allowed(s, step) && Legal(Next(s, step), rest)
    ensures Legal(s, [step] + rest) && After(s, [step] + rest) == After(Next(s, step), rest)
  {
    assert ([step] + rest)[1..] == rest;
  }

  /** Crashes before and after the provider's answer: either way the new token is never stored. */
  lemma CrashLosesTheGrant(waits: bool) returns (steps: seq<Step>, call: Call)
    ensures Legal(Start(), steps) && (waits ==> forall step :: step in steps ==> !step.ProviderAnswers?)
    ensures var s := After(Start(), steps);
            call in s.calls && s.calls[call].phase.Calling? && s.calls[call].phase.presented in s.provider.spent
  {
    steps, call := [], 1;
    for k := 9 downto 0
      invariant Legal(CrashState(waits, k), steps) && After(CrashState(waits, k), steps) == CrashState(waits, 9)
      invariant waits ==> forall step :: step in steps ==> !step.ProviderAnswers?
    {
      CrashStep(waits, k);
      assert waits ==> !CrashSteps(waits)[k].ProviderAnswers?;
      hide CrashState, CrashSteps, Allowed, Next;
      Prepend(CrashState(waits, k), CrashSteps(waits)[k], steps);
      steps := [CrashSteps(waits)[k]] + steps;
    }
    assert CrashState(waits, 0) == Start();
  }
}
