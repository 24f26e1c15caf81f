/** Call throttling in Redis: a per-user counter with a refreshed expiry and a
    per-stakeholder cooldown key, both taken before a slow provider call and
    given back when the provider refuses. */
module Throttle {
  import opened Sets

  type Time = int
  type User = nat
  type Contact = nat
  type AttemptId = nat

  /** Settings, and the longest an attempt may take from reservation to its last step. */
  datatype Limits = Limits(max: nat, window: int, cooldown: int, latency: int) {
    predicate Valid() {
      0 < latency < window && latency < cooldown
    }
  }

  // ----- Redis -----

  datatype Counter = Counter(value: int, expires: Time)

  /** The two key families; an entry whose expiry has passed counts as absent. */
  datatype Redis = Redis(counters: map<User, Counter>, holds: map<Contact, Time>) {

    predicate CounterLive(u: User, now: Time) {
      u in counters && now < counters[u].expires
    }

    predicate HoldLive(c: Contact, now: Time) {
      c in holds && now < holds[c]
    }

    /** What GET returns for the user counter, with an absent key read as zero. */
    function Count(u: User, now: Time): int {
      if CounterLive(u, now) then counters[u].value else 0
    }

    /** INCR and EXPIRE in one pipeline. */
    function Reserve(u: User, now: Time, window: int): Redis {
      this.(counters := counters[u := Counter(Count(u, now) + 1, now + window)])
    }

    /** GET, DECR and DELETE as one step. */
    function Refund(u: User, now: Time): Redis {
      if !CounterLive(u, now) then this
      else if counters[u].value - 1 <= 0 then this.(counters := counters - {u})
      else this.(counters := counters[u := counters[u].(value := counters[u].value - 1)])
    }

    /** SET NX EX when the key is absent. */
    function Hold(c: Contact, now: Time, cooldown: int): Redis {
      this.(holds := holds[c := now + cooldown])
    }

    function Release(c: Contact): Redis {
      this.(holds := holds - {c})
    }
  }

  /** The four slot helpers over mutable keys. */
  class Limiter {
    var counters: map<User, Counter>
    var holds: map<Contact, Time>

    function View(): Redis
      reads this
    {
      Redis(counters, holds)
    }

    /** A counter key that exists counts at least one attempt. */
    ghost predicate Valid()
      reads this
    {
      forall u :: u in counters ==> counters[u].value >= 1
    }

    constructor ()
      ensures Valid() && View() == Redis(map[], map[])
    {
      counters, holds := map[], map[];
    }

    /** INCR, EXPIRE, then the comparison with the limit; the reservation stays
        counted when it is rejected. */
    method AcquireUserSlot(u: User, now: Time, lim: Limits) returns (ok: bool)
      requires Valid()
      modifies this
      ensures Valid()
      ensures View() == old(View()).Reserve(u, now, lim.window)
      ensures ok == (old(View()).Count(u, now) < lim.max)
    {
      var count := 1;
      if u in counters && now < counters[u].expires { count := counters[u].value + 1; }
      counters := counters[u := Counter(count, now + lim.window)];
      ok := count <= lim.max;
    }

    method AcquireStakeholderSlot(c: Contact, now: Time, lim: Limits) returns (ok: bool)
      requires Valid()
      modifies this
      ensures Valid()
      ensures ok == !old(View()).HoldLive(c, now)
      ensures View() == if ok then old(View()).Hold(c, now, lim.cooldown) else old(View())
    {
      if c in holds && now < holds[c] { return false; }
      holds := holds[c := now + lim.cooldown];
      ok := true;
    }

    method ReleaseUserSlot(u: User, now: Time)
      requires Valid()
      modifies this
      ensures Valid()
      ensures View() == old(View()).Refund(u, now)
    {
      if u !in counters || counters[u].expires <= now { return; }
      var next := counters[u].value - 1;
      if next <= 0 {
        counters := counters - {u};
      } else {
        counters := counters[u := counters[u].(value := next)];
      }
    }

    method ReleaseStakeholderSlot(c: Contact)
      requires Valid()
      modifies this
      ensures Valid()
      ensures View() == old(View()).Release(c)
    {
      holds := holds - {c};
    }

    /** One call initiation without interference: slots, provider call, refund.
        `start`, `held` and `end` are the instants of its Redis operations. A
        refused or cooled-down attempt leaves the user's count and the
        stakeholder's key as they were; a placed one leaves both taken. */
    method InitiateCall(u: User, c: Contact, start: Time, held: Time, end: Time, providerAccepts: bool, lim: Limits)
      returns (outcome: Outcome)
      requires lim.Valid() && start <= held <= end < start + lim.latency
      requires Valid()
      modifies this
      ensures Valid()
      ensures outcome == (if lim.max <= old(View()).Count(u, start) then QuotaExceeded
                          else if old(View()).HoldLive(c, held) then CoolingDown
                          else if providerAccepts then Placed else Refused)
      ensures outcome in {CoolingDown, Refused} ==> View().Count(u, end) == old(View()).Count(u, start)
      ensures outcome in {QuotaExceeded, Placed} ==> View().Count(u, end) == old(View()).Count(u, start) + 1
      ensures View().HoldLive(c, end) == (if outcome == Placed then true
                                          else if outcome == Refused then false
                                          else old(View()).HoldLive(c, end))
      ensures forall v :: v != u ==> View().Count(v, end) == old(View()).Count(v, end)
      ensures forall d :: d != c ==> View().HoldLive(d, end) == old(View()).HoldLive(d, end)
    {
      var ok := AcquireUserSlot(u, start, lim);
      if !ok { return QuotaExceeded; }
      ok := AcquireStakeholderSlot(c, held, lim);
      if !ok {
        ReleaseUserSlot(u, held);
        return CoolingDown;
      }
      if providerAccepts { return Placed; }
      ReleaseStakeholderSlot(c);
      ReleaseUserSlot(u, end);
      return Refused;
    }
  }

  datatype Outcome = QuotaExceeded | CoolingDown | Placed | Refused

  // ----- all interleavings -----

  /** Where an attempt stands. `Blocked` and `Unwinding` still owe the user a
      refund; `Denied` also owes the stakeholder one; `Lost` will pay neither. */
  datatype Phase =
    | Reserved | OverQuota | Blocked | Calling | Accepted(at: Time)
    | Denied | Unwinding | Refunded | Lost

  datatype Attempt = Attempt(user: User, contact: Contact, reservedAt: Time, heldAt: Time, life: nat, phase: Phase)

  /** `lives` counts the key lifetimes begun so far; `lifeOf` and `ownerOf` record
      which lifetime a counter key is in and which attempt set a cooldown key. */
  datatype State = State(
    now: Time, redis: Redis, attempts: map<AttemptId, Attempt>,
    lives: nat, lifeOf: map<User, nat>, ownerOf: map<Contact, AttemptId>)

  datatype Step =
    | Tick(dt: nat)
    | Reserve(id: AttemptId, user: User, contact: Contact)
    | TakeHold(id: AttemptId)
    | Accept(id: AttemptId)
    | Deny(id: AttemptId)
    | ReleaseHold(id: AttemptId)
    | RefundUser(id: AttemptId)
    | Lose(id: AttemptId)

  predicate Unfinished(p: Phase) {
    p in {Reserved, Blocked, Calling, Denied, Unwinding}
  }

  ghost predicate Init(s: State) {
    s.redis == Redis(map[], map[]) && s.attempts == map[] && s.lives == 0
  }

  predicate Enabled(s: State, step: Step) {
    match step
    case Tick(dt) => true
    case Reserve(id, u, c) => id !in s.attempts
    case TakeHold(id) => id in s.attempts && s.attempts[id].phase == Reserved
    case Accept(id) => id in s.attempts && s.attempts[id].phase == Calling
    case Deny(id) => id in s.attempts && s.attempts[id].phase == Calling
    case ReleaseHold(id) => id in s.attempts && s.attempts[id].phase == Denied
    case RefundUser(id) => id in s.attempts && s.attempts[id].phase in {Blocked, Unwinding}
    case Lose(id) => id in s.attempts && Unfinished(s.attempts[id].phase)
  }

  function Moved(s: State, id: AttemptId, p: Phase): State
    requires id in s.attempts
  {
    s.(attempts := s.attempts[id := s.attempts[id].(phase := p)])
  }

  function DoReserve(lim: Limits, s: State, id: AttemptId, u: User, c: Contact): State {
    var renewed := s.redis.CounterLive(u, s.now) && u in s.lifeOf;
    var life := if renewed then s.lifeOf[u] else s.lives;
    var phase := if s.redis.Count(u, s.now) < lim.max then Reserved else OverQuota;
    s.(redis := s.redis.Reserve(u, s.now, lim.window),
       attempts := s.attempts[id := Attempt(u, c, s.now, s.now, life, phase)],
       lives := if renewed then s.lives else s.lives + 1,
       lifeOf := s.lifeOf[u := life])
  }

  function DoTakeHold(lim: Limits, s: State, id: AttemptId): State
    requires id in s.attempts
  {
    var a := s.attempts[id];
    if s.redis.HoldLive(a.contact, s.now) then Moved(s, id, Blocked)
    else
      s.(redis := s.redis.Hold(a.contact, s.now, lim.cooldown),
         attempts := s.attempts[id := a.(phase := Calling, heldAt := s.now)],
         ownerOf := s.ownerOf[a.contact := id])
  }

  function Apply(lim: Limits, s: State, step: Step): State
    requires Enabled(s, step)
  {
    match step
    case Tick(dt) => s.(now := s.now + dt)
    case Reserve(id, u, c) => DoReserve(lim, s, id, u, c)
    case TakeHold(id) => DoTakeHold(lim, s, id)
    case Accept(id) => Moved(s, id, Accepted(s.now))
    case Deny(id) => Moved(s, id, Denied)
    case ReleaseHold(id) =>
      Moved(s, id, Unwinding).(redis := s.redis.Release(s.attempts[id].contact))
    case RefundUser(id) =>
      Moved(s, id, Refunded).(redis := s.redis.Refund(s.attempts[id].user, s.now))
    case Lose(id) => Moved(s, id, Lost)
  }

  /** Every attempt still under way began less than `latency` ago. */
  predicate Timely(lim: Limits, s: State) {
    forall id :: id in s.attempts && Unfinished(s.attempts[id].phase) ==>
      s.now < s.attempts[id].reservedAt + lim.latency
  }

  ghost predicate Next(lim: Limits, s: State, s': State) {
    exists step :: Enabled(s, step) && s' == Apply(lim, s, step)
  }

  /** A timed history: any interleaving of steps, every state timely. */
  ghost predicate History(lim: Limits, tr: seq<State>) {
    && |tr| > 0 && Init(tr[0])
    && (forall i :: 0 <= i < |tr| ==> Timely(lim, tr[i]))
    && (forall i :: 0 <= i < |tr| - 1 ==> Next(lim, tr[i], tr[i + 1]))
  }

  // ----- the user quota -----

  predicate Counted(p: Phase) {
    p != Refunded
  }

  predicate Admitted(p: Phase) {
    p != Refunded && p != OverQuota
  }

  /** Attempts of one key lifetime that the counter still counts: accepted,
      under way, lost and over-quota ones. */
  function CountedIn(s: State, u: User, life: nat): set<AttemptId> {
    set id | id in s.attempts && s.attempts[id].user == u && s.attempts[id].life == life
             && Counted(s.attempts[id].phase)
  }

  function AdmittedIn(s: State, u: User, life: nat): set<AttemptId> {
    set id | id in s.attempts && s.attempts[id].user == u && s.attempts[id].life == life
             && Admitted(s.attempts[id].phase)
  }

  predicate InLiveLife(s: State, u: User, life: nat) {
    s.redis.CounterLive(u, s.now) && u in s.lifeOf && s.lifeOf[u] == life
  }

  /** A live counter equals the number of counted attempts of its lifetime. */
  ghost predicate CounterExact(s: State) {
    forall u :: s.redis.CounterLive(u, s.now) ==>
      && u in s.lifeOf && s.lifeOf[u] < s.lives
      && s.redis.counters[u].value == |CountedIn(s, u, s.lifeOf[u])| >= 1
  }

  /** A counted attempt either lives in the current key, which outlasts its
      window, or began at least a window ago. */
  ghost predicate Covered(lim: Limits, s: State) {
    forall id :: id in s.attempts ==>
      var a := s.attempts[id];
      && a.life < s.lives && a.reservedAt <= s.now
      && (Counted(a.phase) ==>
           || (InLiveLife(s, a.user, a.life) && a.reservedAt + lim.window <= s.redis.counters[a.user].expires)
           || a.reservedAt + lim.window <= s.now)
  }

  predicate Apart(lim: Limits, a: Attempt, b: Attempt) {
    a.user == b.user && a.life != b.life && Counted(a.phase) && Counted(b.phase) ==>
      a.reservedAt + lim.window <= b.reservedAt || b.reservedAt + lim.window <= a.reservedAt
  }

  /** Counted attempts of one user in different key lifetimes are a window apart. */
  ghost predicate LivesApart(lim: Limits, s: State) {
    forall i, j :: i in s.attempts && j in s.attempts ==> Apart(lim, s.attempts[i], s.attempts[j])
  }

  ghost predicate QuotaKept(lim: Limits, s: State) {
    forall u, life :: |AdmittedIn(s, u, life)| <= lim.max
  }

  /** Acceptance comes within the latency bound of the reservation. */
  ghost predicate AcceptedInTime(lim: Limits, s: State) {
    forall id :: id in s.attempts && s.attempts[id].phase.Accepted? ==>
      s.attempts[id].reservedAt <= s.attempts[id].phase.at < s.attempts[id].reservedAt + lim.latency
  }

  ghost predicate UserInv(lim: Limits, s: State) {
    CounterExact(s) && Covered(lim, s) && LivesApart(lim, s) && QuotaKept(lim, s) && AcceptedInTime(lim, s)
  }

  /** A step that moves one attempt between admitted phases and leaves the
      user counters alone. */
  ghost predicate Moves(s: State, s': State, id: AttemptId) {
    && id in s.attempts && s'.attempts.Keys == s.attempts.Keys
    && (forall k :: k in s.attempts && k != id ==> s'.attempts[k] == s.attempts[k])
    && s'.attempts[id].user == s.attempts[id].user && s'.attempts[id].life == s.attempts[id].life
    && s'.attempts[id].reservedAt == s.attempts[id].reservedAt
    && Admitted(s.attempts[id].phase) && Admitted(s'.attempts[id].phase)
    && s'.now == s.now && s'.redis.counters == s.redis.counters && s'.lives == s.lives && s'.lifeOf == s.lifeOf
  }

  lemma MoveKeepsSets(s: State, s': State, id: AttemptId, u: User, life: nat)
    requires Moves(s, s', id)
    ensures CountedIn(s', u, life) == CountedIn(s, u, life) && AdmittedIn(s', u, life) == AdmittedIn(s, u, life)
  {}

  lemma MoveKeepsCounter(lim: Limits, s: State, s': State, id: AttemptId)
    requires CounterExact(s) && QuotaKept(lim, s) && Moves(s, s', id)
    ensures CounterExact(s') && QuotaKept(lim, s')
  {
    forall u, l { MoveKeepsSets(s, s', id, u, l); }
  }

  lemma MoveKeepsCovered(lim: Limits, s: State, s': State, id: AttemptId)
    requires Covered(lim, s) && LivesApart(lim, s) && Moves(s, s', id)
    ensures Covered(lim, s') && LivesApart(lim, s')
  {
    assert forall k :: k in s.attempts ==> Counted(s'.attempts[k].phase) ==> Counted(s.attempts[k].phase);
  }

  lemma MoveKeepsUserInv(lim: Limits, s: State, s': State, id: AttemptId)
    requires lim.Valid() && UserInv(lim, s) && Timely(lim, s) && Moves(s, s', id)
    requires Unfinished(s.attempts[id].phase)
    requires s'.attempts[id].phase.Accepted? ==> s'.attempts[id].phase.at == s.now
    ensures UserInv(lim, s')
  {
    MoveKeepsCounter(lim, s, s', id);
    MoveKeepsCovered(lim, s, s', id);
  }

  lemma ReserveCounts(lim: Limits, s: State, id: AttemptId, u: User, c: Contact)
    requires Covered(lim, s) && id !in s.attempts
    ensures var s' := DoReserve(lim, s, id, u, c);
            var life := s'.lifeOf[u];
            && CountedIn(s', u, life) == CountedIn(s, u, life) + {id}
            && id !in CountedIn(s, u, life)
            && (life == s.lives ==> CountedIn(s, u, life) == {})
            && (forall v, l :: v != u || l != life ==> CountedIn(s', v, l) == CountedIn(s, v, l))
  {
    var s' := DoReserve(lim, s, id, u, c);
    forall v, l | v != u || l != s'.lifeOf[u] ensures CountedIn(s', v, l) == CountedIn(s, v, l) {}
  }

  lemma ReserveKeepsCounter(lim: Limits, s: State, id: AttemptId, u: User, c: Contact)
    requires lim.Valid() && CounterExact(s) && Covered(lim, s) && id !in s.attempts
    ensures CounterExact(DoReserve(lim, s, id, u, c))
  {
    var s' := DoReserve(lim, s, id, u, c);
    ReserveCounts(lim, s, id, u, c);
    forall v | s'.redis.CounterLive(v, s'.now)
      ensures v in s'.lifeOf && s'.lifeOf[v] < s'.lives
      ensures s'.redis.counters[v].value == |CountedIn(s', v, s'.lifeOf[v])| >= 1
    {
      if v != u { assert s.redis.CounterLive(v, s.now); }
    }
  }

  lemma ReserveAdmits(lim: Limits, s: State, id: AttemptId, u: User, c: Contact, v: User, l: nat)
    requires CounterExact(s) && Covered(lim, s) && QuotaKept(lim, s) && id !in s.attempts
    ensures |AdmittedIn(DoReserve(lim, s, id, u, c), v, l)| <= lim.max
  {
    var s' := DoReserve(lim, s, id, u, c);
    if v == u && l == s'.lifeOf[u] && s'.attempts[id].phase == Reserved {
      ReserveCounts(lim, s, id, u, c);
      SubsetSize(AdmittedIn(s', u, l), CountedIn(s', u, l));
    } else {
      assert AdmittedIn(s', v, l) == AdmittedIn(s, v, l);
    }
  }

  lemma ReserveKeepsQuota(lim: Limits, s: State, id: AttemptId, u: User, c: Contact)
    requires lim.Valid() && UserInv(lim, s) && id !in s.attempts
    ensures QuotaKept(lim, DoReserve(lim, s, id, u, c))
  {
    var s' := DoReserve(lim, s, id, u, c);
    forall v, l ensures |AdmittedIn(s', v, l)| <= lim.max {
      ReserveAdmits(lim, s, id, u, c, v, l);
    }
  }

  lemma ReserveKeepsUserInv(lim: Limits, s: State, id: AttemptId, u: User, c: Contact, s': State)
    requires lim.Valid() && UserInv(lim, s) && id !in s.attempts && s' == DoReserve(lim, s, id, u, c)
    ensures UserInv(lim, s')
  {
    ReserveKeepsCounter(lim, s, id, u, c);
    ReserveKeepsQuota(lim, s, id, u, c);
    assert forall k :: k in s.attempts ==> s'.attempts[k] == s.attempts[k];
    assert Covered(lim, s');
    assert LivesApart(lim, s');
  }

  /** Within the latency bound, an unfinished attempt's lifetime is the live one. */
  lemma UnfinishedIsLive(lim: Limits, s: State, id: AttemptId)
    requires lim.Valid() && UserInv(lim, s) && Timely(lim, s)
    requires id in s.attempts && Unfinished(s.attempts[id].phase)
    ensures InLiveLife(s, s.attempts[id].user, s.attempts[id].life)
  {}

  lemma RefundCounts(lim: Limits, s: State, id: AttemptId, u: User, life: nat)
    requires Enabled(s, RefundUser(id))
    ensures var s', a := Apply(lim, s, RefundUser(id)), s.attempts[id];
            && CountedIn(s', u, life) == CountedIn(s, u, life) - (if a.user == u && a.life == life then {id} else {})
            && AdmittedIn(s', u, life) <= AdmittedIn(s, u, life)
  {}

  lemma RefundKeepsCounter(lim: Limits, s: State, id: AttemptId)
    requires CounterExact(s) && Enabled(s, RefundUser(id))
    requires InLiveLife(s, s.attempts[id].user, s.attempts[id].life)
    ensures CounterExact(Apply(lim, s, RefundUser(id)))
  {
    var s', a := Apply(lim, s, RefundUser(id)), s.attempts[id];
    assert id in CountedIn(s, a.user, a.life);
    forall v | s'.redis.CounterLive(v, s'.now)
      ensures v in s'.lifeOf && s'.lifeOf[v] < s'.lives
      ensures s'.redis.counters[v].value == |CountedIn(s', v, s'.lifeOf[v])| >= 1
    {
      assert s.redis.CounterLive(v, s.now);
      RefundCounts(lim, s, id, v, s.lifeOf[v]);
    }
  }

  lemma RefundKeepsQuota(lim: Limits, s: State, id: AttemptId)
    requires QuotaKept(lim, s) && Enabled(s, RefundUser(id))
    ensures QuotaKept(lim, Apply(lim, s, RefundUser(id)))
  {
    var s' := Apply(lim, s, RefundUser(id));
    forall v, l ensures |AdmittedIn(s', v, l)| <= lim.max {
      RefundCounts(lim, s, id, v, l);
      SubsetSize(AdmittedIn(s', v, l), AdmittedIn(s, v, l));
    }
  }

  lemma RefundKeepsCovered(lim: Limits, s: State, id: AttemptId)
    requires CounterExact(s) && Covered(lim, s) && Enabled(s, RefundUser(id))
    requires InLiveLife(s, s.attempts[id].user, s.attempts[id].life)
    ensures Covered(lim, Apply(lim, s, RefundUser(id)))
  {
    var s', a := Apply(lim, s, RefundUser(id)), s.attempts[id];
    RefundCounts(lim, s, id, a.user, a.life);
    assert id in CountedIn(s, a.user, a.life);
    if s.redis.counters[a.user].value == 1 {
      assert |CountedIn(s', a.user, a.life)| == 0;
      forall k | k in s'.attempts && s'.attempts[k].user == a.user && s'.attempts[k].life == a.life
        ensures !Counted(s'.attempts[k].phase)
      {
        assert k !in CountedIn(s', a.user, a.life);
      }
    }
  }

  lemma RefundKeepsUserInv(lim: Limits, s: State, id: AttemptId, s': State)
    requires lim.Valid() && UserInv(lim, s) && Timely(lim, s) && Enabled(s, RefundUser(id))
    requires s' == Apply(lim, s, RefundUser(id))
    ensures UserInv(lim, s')
  {
    UnfinishedIsLive(lim, s, id);
    RefundKeepsCounter(lim, s, id);
    RefundKeepsQuota(lim, s, id);
    RefundKeepsCovered(lim, s, id);
  }

  lemma TickKeepsUserInv(lim: Limits, s: State, dt: nat, s': State)
    requires UserInv(lim, s) && s' == s.(now := s.now + dt)
    ensures UserInv(lim, s')
  {
    forall u, l ensures CountedIn(s', u, l) == CountedIn(s, u, l) && AdmittedIn(s', u, l) == AdmittedIn(s, u, l) {}
    assert forall u :: s'.redis.CounterLive(u, s'.now) ==> s.redis.CounterLive(u, s.now);
  }

  lemma StepMoves(lim: Limits, s: State, step: Step, s': State)
    requires Enabled(s, step) && !step.Tick? && !step.Reserve? && !step.RefundUser? && s' == Apply(lim, s, step)
    ensures Moves(s, s', step.id) && Unfinished(s.attempts[step.id].phase)
    ensures s'.attempts[step.id].phase.Accepted? ==> s'.attempts[step.id].phase.at == s.now
  {}

  lemma StepKeepsUserInv(lim: Limits, s: State, step: Step, s': State)
    requires lim.Valid() && UserInv(lim, s) && Timely(lim, s) && Enabled(s, step) && s' == Apply(lim, s, step)
    ensures UserInv(lim, s')
  {
    if step.Tick? {
      TickKeepsUserInv(lim, s, step.dt, s');
    } else if step.Reserve? {
      ReserveKeepsUserInv(lim, s, step.id, step.user, step.contact, s');
    } else if step.RefundUser? {
      RefundKeepsUserInv(lim, s, step.id, s');
    } else {
      StepMoves(lim, s, step, s');
      MoveKeepsUserInv(lim, s, s', step.id);
    }
  }

  /** Accepted attempts of a user whose reservation falls in a window from `t`. */
  function PlacedIn(s: State, u: User, t: Time, length: int): set<AttemptId> {
    set id | id in s.attempts && s.attempts[id].user == u && s.attempts[id].phase.Accepted?
             && t <= s.attempts[id].reservedAt < t + length
  }

  /** The same by the instant the provider accepted. */
  function AcceptedIn(s: State, u: User, t: Time, length: int): set<AttemptId> {
    set id | id in s.attempts && s.attempts[id].user == u && s.attempts[id].phase.Accepted?
             && t <= s.attempts[id].phase.at < t + length
  }

  lemma WindowBound(lim: Limits, s: State, u: User, t: Time)
    requires UserInv(lim, s)
    ensures |PlacedIn(s, u, t, lim.window)| <= lim.max
  {
    var placed := PlacedIn(s, u, t, lim.window);
    if placed != {} {
      var k :| k in placed;
      var life := s.attempts[k].life;
      assert placed <= AdmittedIn(s, u, life);
      SubsetSize(placed, AdmittedIn(s, u, life));
    }
  }

  // ----- the stakeholder cooldown -----

  predicate Holding(p: Phase) {
    p.Calling? || p.Accepted? || p.Denied?
  }

  predicate OwnsKey(lim: Limits, s: State, id: AttemptId)
    requires id in s.attempts
  {
    var a := s.attempts[id];
    && a.reservedAt <= a.heldAt <= s.now && (a.phase.Accepted? ==> a.heldAt <= a.phase.at)
    && (|| (a.contact in s.redis.holds && a.contact in s.ownerOf && s.ownerOf[a.contact] == id
            && s.redis.holds[a.contact] == a.heldAt + lim.cooldown)
        || a.heldAt + lim.cooldown <= s.now)
  }

  /** A holding attempt owns its stakeholder's key until the cooldown has run. */
  ghost predicate Owned(lim: Limits, s: State) {
    forall id :: id in s.attempts && Holding(s.attempts[id].phase) ==> OwnsKey(lim, s, id)
  }

  predicate HeldApart(lim: Limits, a: Attempt, b: Attempt) {
    a.contact == b.contact && Holding(a.phase) && Holding(b.phase) ==>
      a.heldAt + lim.cooldown <= b.heldAt || b.heldAt + lim.cooldown <= a.heldAt
  }

  /** Two holding attempts on one stakeholder are a cooldown apart. */
  ghost predicate HoldsApart(lim: Limits, s: State) {
    forall i, j :: i in s.attempts && j in s.attempts && i != j ==> HeldApart(lim, s.attempts[i], s.attempts[j])
  }

  ghost predicate ReservedFirst(s: State) {
    forall id :: id in s.attempts ==> s.attempts[id].reservedAt <= s.now
  }

  ghost predicate ContactInv(lim: Limits, s: State) {
    Owned(lim, s) && HoldsApart(lim, s) && ReservedFirst(s)
  }

  predicate OwnHold(s: State, id: AttemptId)
    requires id in s.attempts
  {
    var c := s.attempts[id].contact;
    s.redis.HoldLive(c, s.now) && c in s.ownerOf && s.ownerOf[c] == id
  }

  lemma ReleaseOwnsKey(lim: Limits, s: State, id: AttemptId)
    requires lim.Valid() && ContactInv(lim, s) && Timely(lim, s) && Enabled(s, ReleaseHold(id))
    ensures OwnHold(s, id)
  {
    assert OwnsKey(lim, s, id);
  }

  lemma StepKeepsOwned(lim: Limits, s: State, step: Step, s': State)
    requires lim.Valid() && ContactInv(lim, s) && Timely(lim, s) && Enabled(s, step) && s' == Apply(lim, s, step)
    ensures Owned(lim, s')
  {
    if step.ReleaseHold? { ReleaseOwnsKey(lim, s, step.id); }
    forall id | id in s'.attempts && Holding(s'.attempts[id].phase) ensures OwnsKey(lim, s', id) {
      if id in s.attempts && Holding(s.attempts[id].phase) { assert OwnsKey(lim, s, id); }
    }
  }

  lemma StepKeepsApart(lim: Limits, s: State, step: Step, s': State)
    requires lim.Valid() && ContactInv(lim, s) && Enabled(s, step) && s' == Apply(lim, s, step)
    ensures HoldsApart(lim, s') && ReservedFirst(s')
  {
    forall i, j | i in s'.attempts && j in s'.attempts && i != j
      ensures HeldApart(lim, s'.attempts[i], s'.attempts[j])
    {
      PairKeptApart(lim, s, step, s', i, j);
    }
  }

  lemma PairKeptApart(lim: Limits, s: State, step: Step, s': State, i: AttemptId, j: AttemptId)
    requires lim.Valid() && ContactInv(lim, s) && Enabled(s, step) && s' == Apply(lim, s, step)
    requires i in s'.attempts && j in s'.attempts && i != j
    ensures HeldApart(lim, s'.attempts[i], s'.attempts[j])
  {
    if i in s.attempts && j in s.attempts {
      assert HeldApart(lim, s.attempts[i], s.attempts[j]);
      if Holding(s.attempts[i].phase) { assert OwnsKey(lim, s, i); }
      if Holding(s.attempts[j].phase) { assert OwnsKey(lim, s, j); }
    }
  }

  // ----- whole histories -----

  lemma {:induction false} HistoryInv(lim: Limits, tr: seq<State>, i: nat)
    requires lim.Valid() && History(lim, tr) && i < |tr|
    ensures UserInv(lim, tr[i]) && ContactInv(lim, tr[i])
  {
    if i == 0 {
      forall u, l ensures AdmittedIn(tr[0], u, l) == {} {}
    } else {
      HistoryInv(lim, tr, i - 1);
      assert Next(lim, tr[i - 1], tr[i - 1 + 1]);
      var step :| Enabled(tr[i - 1], step) && tr[i] == Apply(lim, tr[i - 1], step);
      StepKeepsUserInv(lim, tr[i - 1], step, tr[i]);
      StepKeepsOwned(lim, tr[i - 1], step, tr[i]);
      StepKeepsApart(lim, tr[i - 1], step, tr[i]);
    }
  }

  /** The counter is exact and refunds never reach another lifetime: whenever an
      attempt is about to be refunded, the live key is its own and counts it. */
  lemma RefundHitsOwnLifetime(lim: Limits, tr: seq<State>, i: nat, id: AttemptId)
    requires lim.Valid() && History(lim, tr) && i < |tr| && Enabled(tr[i], RefundUser(id))
    ensures var s, a := tr[i], tr[i].attempts[id];
            && InLiveLife(s, a.user, a.life)
            && s.redis.counters[a.user].value == |CountedIn(s, a.user, a.life)|
            && id in CountedIn(s, a.user, a.life)
  {
    HistoryInv(lim, tr, i);
    UnfinishedIsLive(lim, tr[i], id);
  }

  /** Whenever a cooldown key is about to be deleted by a refund, it is live and
      is the one the refunded attempt itself set. */
  lemma RefundHitsOwnKey(lim: Limits, tr: seq<State>, i: nat, id: AttemptId)
    requires lim.Valid() && History(lim, tr) && i < |tr| && Enabled(tr[i], ReleaseHold(id))
    ensures OwnHold(tr[i], id)
  {
    HistoryInv(lim, tr, i);
    ReleaseOwnsKey(lim, tr[i], id);
  }

  /** Sliding window: in any history, no interval of one window holds the
      reservations of more than `max` accepted placements of a user; counted by
      acceptance instants the same bound holds for intervals shorter by the latency. */
  lemma UserQuota(lim: Limits, tr: seq<State>, i: nat, u: User, t: Time)
    requires lim.Valid() && History(lim, tr) && i < |tr|
    ensures |PlacedIn(tr[i], u, t, lim.window)| <= lim.max
    ensures |AcceptedIn(tr[i], u, t, lim.window - lim.latency + 1)| <= lim.max
  {
    HistoryInv(lim, tr, i);
    WindowBound(lim, tr[i], u, t);
    var t' := t - lim.latency + 1;
    WindowBound(lim, tr[i], u, t');
    SubsetSize(AcceptedIn(tr[i], u, t, lim.window - lim.latency + 1), PlacedIn(tr[i], u, t', lim.window));
  }

  /** Two accepted placements to one stakeholder took their cooldown keys at
      least a cooldown apart, hence were accepted more than `cooldown - latency` apart. */
  lemma CooldownKept(lim: Limits, tr: seq<State>, i: nat, a: AttemptId, b: AttemptId)
    requires lim.Valid() && History(lim, tr) && i < |tr|
    requires a in tr[i].attempts && b in tr[i].attempts && a != b
    requires tr[i].attempts[a].contact == tr[i].attempts[b].contact
    requires tr[i].attempts[a].phase.Accepted? && tr[i].attempts[b].phase.Accepted?
    requires tr[i].attempts[a].heldAt <= tr[i].attempts[b].heldAt
    ensures tr[i].attempts[a].heldAt + lim.cooldown <= tr[i].attempts[b].heldAt
    ensures tr[i].attempts[a].phase.at + lim.cooldown - lim.latency < tr[i].attempts[b].phase.at
  {
    HistoryInv(lim, tr, i);
    assert OwnsKey(lim, tr[i], b);
    assert HeldApart(lim, tr[i].attempts[a], tr[i].attempts[b]);
  }

  // ----- the acceptance bound is exact -----

  lemma Extend(lim: Limits, tr: seq<State>, step: Step) returns (tr': seq<State>)
    requires History(lim, tr) && Enabled(tr[|tr| - 1], step)
    requires Timely(lim, Apply(lim, tr[|tr| - 1], step))
    ensures History(lim, tr') && |tr'| > 0 && tr'[|tr'| - 1] == Apply(lim, tr[|tr| - 1], step)
  {
    var last := tr[|tr| - 1];
    tr' := tr + [Apply(lim, last, step)];
    forall i | 0 <= i < |tr'| - 1 ensures Next(lim, tr'[i], tr'[i + 1]) {
      if i < |tr| - 1 { assert Next(lim, tr[i], tr[i + 1]); }
    }
  }

  /** User 0 has one placement accepted as late as possible, then `k` accepted at
      the instant its key expires. */
  ghost predicate Burst(lim: Limits, s: State, k: nat) {
    && s.now == lim.window
    && (forall id: nat :: id in s.attempts <==> id <= k)
    && (forall id :: id in s.attempts ==>
          s.attempts[id].user == 0 && s.attempts[id].contact == id
          && s.attempts[id].phase == Accepted(if id == 0 then lim.latency - 1 else lim.window))
    && s.redis.Count(0, s.now) == k
    && (forall c: nat :: c in s.redis.holds ==> c <= k)
  }

  /** One placement, accepted as late as the latency allows, and nothing else. */
  ghost predicate FirstAccepted(lim: Limits, s: State) {
    && s.now == lim.latency - 1 && s.attempts == map[0 := Attempt(0, 0, 0, 0, 0, Accepted(lim.latency - 1))]
    && s.redis == Redis(map[0 := Counter(1, lim.window)], map[0 := lim.cooldown])
  }

  lemma FirstPlacement(lim: Limits) returns (tr: seq<State>)
    requires lim.Valid() && lim.max > 0
    ensures History(lim, tr) && |tr| > 0 && FirstAccepted(lim, tr[|tr| - 1])
  {
    var s := State(0, Redis(map[], map[]), map[], 0, map[], map[]);
    tr := Extend(lim, [s], Reserve(0, 0, 0));
    var s1 := tr[|tr| - 1];
    assert s1.attempts == map[0 := Attempt(0, 0, 0, 0, 0, Reserved)];
    assert s1.redis == Redis(map[0 := Counter(1, lim.window)], map[]);
    tr := Extend(lim, tr, TakeHold(0));
    var s2 := tr[|tr| - 1];
    assert s2.attempts == map[0 := Attempt(0, 0, 0, 0, 0, Calling)];
    assert s2.redis == Redis(map[0 := Counter(1, lim.window)], map[0 := lim.cooldown]);
    tr := FinishFirst(lim, tr);
  }

  lemma FinishFirst(lim: Limits, tr: seq<State>) returns (tr': seq<State>)
    requires lim.Valid() && lim.max > 0 && History(lim, tr)
    requires var s := tr[|tr| - 1];
             && s.now == 0 && s.attempts == map[0 := Attempt(0, 0, 0, 0, 0, Calling)]
             && s.redis == Redis(map[0 := Counter(1, lim.window)], map[0 := lim.cooldown])
    ensures History(lim, tr') && |tr'| > 0 && FirstAccepted(lim, tr'[|tr'| - 1])
  {
    tr' := Extend(lim, tr, Tick(lim.latency - 1));
    tr' := Extend(lim, tr', Accept(0));
  }

  lemma BurstStart(lim: Limits) returns (tr: seq<State>)
    requires lim.Valid() && lim.max > 0
    ensures History(lim, tr) && |tr| > 0 && Burst(lim, tr[|tr| - 1], 0)
  {
    tr := FirstPlacement(lim);
    tr := Extend(lim, tr, Tick(lim.window - lim.latency + 1));
    var s := tr[|tr| - 1];
    assert s.now == lim.window && s.redis.Count(0, s.now) == 0;
    assert forall id: nat :: id in s.attempts <==> id <= 0;
    assert forall c: nat :: c in s.redis.holds ==> c <= 0;
  }

  lemma BurstMore(lim: Limits, tr: seq<State>, k: nat) returns (tr': seq<State>)
    requires lim.Valid() && 0 < k <= lim.max && History(lim, tr) && Burst(lim, tr[|tr| - 1], k - 1)
    ensures History(lim, tr') && |tr'| > 0 && Burst(lim, tr'[|tr'| - 1], k)
  {
    var s := tr[|tr| - 1];
    tr' := Extend(lim, tr, Reserve(k, 0, k));
    BurstReserved(lim, s, k, tr'[|tr'| - 1]);
    var s1 := tr'[|tr'| - 1];
    tr' := Extend(lim, tr', TakeHold(k));
    BurstHeld(lim, s1, k, tr'[|tr'| - 1]);
    var s2 := tr'[|tr'| - 1];
    tr' := Extend(lim, tr', Accept(k));
    BurstAccepted(lim, s2, k, tr'[|tr'| - 1]);
  }

  lemma BurstHeld(lim: Limits, s: State, k: nat, s': State)
    requires lim.Valid() && k > 0 && BurstOpen(lim, s, k, Reserved) && Enabled(s, TakeHold(k))
    requires s' == Apply(lim, s, TakeHold(k))
    ensures BurstOpen(lim, s', k, Calling)
  {}

  lemma BurstAccepted(lim: Limits, s: State, k: nat, s': State)
    requires lim.Valid() && k > 0 && BurstOpen(lim, s, k, Calling) && Enabled(s, Accept(k))
    requires s' == Apply(lim, s, Accept(k))
    ensures Burst(lim, s', k)
  {}

  /** The k-th placement is under way in phase `p`; the others are accepted. */
  ghost predicate BurstOpen(lim: Limits, s: State, k: nat, p: Phase) {
    && s.now == lim.window && s.redis.Count(0, s.now) == k
    && (forall id: nat :: id in s.attempts <==> id <= k)
    && (forall id :: id in s.attempts ==>
          s.attempts[id].user == 0 && s.attempts[id].contact == id
          && (id != k ==> s.attempts[id].phase == Accepted(if id == 0 then lim.latency - 1 else lim.window)))
    && s.attempts[k].phase == p && s.attempts[k].reservedAt == s.now
    && (forall c: nat :: c in s.redis.holds ==> c <= if p == Reserved then k - 1 else k)
  }

  lemma BurstReserved(lim: Limits, s: State, k: nat, s': State)
    requires lim.Valid() && 0 < k <= lim.max && Burst(lim, s, k - 1) && Enabled(s, Reserve(k, 0, k))
    requires s' == Apply(lim, s, Reserve(k, 0, k))
    ensures BurstOpen(lim, s', k, Reserved)
  {}

  lemma {:induction false} BurstHistory(lim: Limits, k: nat) returns (tr: seq<State>)
    requires lim.Valid() && k <= lim.max && lim.max > 0
    ensures History(lim, tr) && |tr| > 0 && Burst(lim, tr[|tr| - 1], k)
  {
    if k == 0 {
      tr := BurstStart(lim);
    } else {
      tr := BurstHistory(lim, k - 1);
      tr := BurstMore(lim, tr, k);
    }
  }

  lemma {:induction false} UpToSize(k: nat, ids: set<nat>)
    requires forall id: nat :: id in ids <==> id <= k
    ensures |ids| == k + 1
  {
    if k == 0 {
      assert ids == {0};
    } else {
      UpToSize(k - 1, ids - {k});
      assert ids == (ids - {k}) + {k};
    }
  }

  /** At the end of the history no interval of the given length from `t` holds
      too many acceptances of the user. */
  ghost predicate WithinQuota(lim: Limits, tr: seq<State>, u: User, t: Time, length: int) {
    History(lim, tr) ==> |AcceptedIn(tr[|tr| - 1], u, t, length)| <= lim.max
  }

  /** Counted by acceptance instants, an interval length is safe for the quota
      if and only if it leaves room for the provider's latency. */
  lemma AcceptanceBoundExact(lim: Limits, length: int)
    requires lim.Valid() && lim.max > 0
    ensures (forall tr, u, t :: WithinQuota(lim, tr, u, t, length)) <==> length <= lim.window - lim.latency + 1
  {
    if length <= lim.window - lim.latency + 1 {
      forall tr, u, t | History(lim, tr) ensures WithinQuota(lim, tr, u, t, length) {
        UserQuota(lim, tr, |tr| - 1, u, t);
        var s := tr[|tr| - 1];
        SubsetSize(AcceptedIn(s, u, t, length), AcceptedIn(s, u, t, lim.window - lim.latency + 1));
      }
    } else {
      var tr := BurstHistory(lim, lim.max);
      var s, t := tr[|tr| - 1], lim.latency - 1;
      forall id: nat ensures id in AcceptedIn(s, 0, t, length) <==> id <= lim.max {
        if id in s.attempts { assert s.attempts[id].phase.Accepted?; }
      }
      UpToSize(lim.max, AcceptedIn(s, 0, t, length));
      assert !WithinQuota(lim, tr, 0, t, length);
    }
  }

  /** At the end of the history, accepted placements to one stakeholder were
      accepted at least `gap` apart. */
  ghost predicate Spaced(lim: Limits, tr: seq<State>, gap: int) {
    History(lim, tr) ==> AllSpaced(tr[|tr| - 1], gap)
  }

  ghost predicate AllSpaced(s: State, gap: int) {
    forall a, b :: SamePlace(s, a, b) ==> s.attempts[a].phase.at + gap <= s.attempts[b].phase.at
  }

  /** Two accepted placements to one stakeholder, in the order they took its key. */
  predicate SamePlace(s: State, a: AttemptId, b: AttemptId) {
    && a in s.attempts && b in s.attempts && a != b && s.attempts[a].contact == s.attempts[b].contact
    && s.attempts[a].phase.Accepted? && s.attempts[b].phase.Accepted? && s.attempts[a].heldAt <= s.attempts[b].heldAt
  }

  /** The first placement accepted late, the second at once when its key expires. */
  lemma CloseAcceptances(lim: Limits) returns (tr: seq<State>)
    requires lim.Valid() && lim.max > 0
    ensures History(lim, tr) && |tr| > 0 && SamePlace(tr[|tr| - 1], 0, 1)
    ensures tr[|tr| - 1].attempts[0].phase.at == lim.latency - 1 && tr[|tr| - 1].attempts[1].phase.at == lim.cooldown
  {
    tr := FirstPlacement(lim);
    tr := Extend(lim, tr, Tick(lim.cooldown - lim.latency + 1));
    var s := tr[|tr| - 1];
    tr := Extend(lim, tr, Reserve(1, 1, 0));
    var s1 := tr[|tr| - 1];
    assert s1.attempts == s.attempts[1 := Attempt(1, 0, lim.cooldown, lim.cooldown, s1.attempts[1].life, Reserved)];
    tr := Extend(lim, tr, TakeHold(1));
    assert tr[|tr| - 1].attempts == s1.attempts[1 := s1.attempts[1].(phase := Calling)];
    tr := Extend(lim, tr, Accept(1));
  }

  /** Between acceptances a distance is guaranteed if and only if it leaves room
      for the provider's latency; the whole cooldown is not. */
  lemma CooldownBoundExact(lim: Limits, gap: int)
    requires lim.Valid() && lim.max > 0
    ensures (forall tr :: Spaced(lim, tr, gap)) <==> gap <= lim.cooldown - lim.latency + 1
  {
    if gap <= lim.cooldown - lim.latency + 1 {
      forall tr: seq<State> ensures Spaced(lim, tr, gap) {
        if History(lim, tr) {
          var s := tr[|tr| - 1];
          forall a, b | SamePlace(s, a, b) ensures s.attempts[a].phase.at + gap <= s.attempts[b].phase.at {
            CooldownKept(lim, tr, |tr| - 1, a, b);
          }
        }
      }
    } else {
      var tr := CloseAcceptances(lim);
      assert SamePlace(tr[|tr| - 1], 0, 1);
      assert !Spaced(lim, tr, gap);
    }
  }
}
