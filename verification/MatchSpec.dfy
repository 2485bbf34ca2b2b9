// The matchmaker on values.  Each operation, and each body of the match loop, is
// one step.
module MatchSpec {
  import opened Basics
  import opened Online

  type Millis = int

  const TIMEOUT: Millis := 30000
  const TIERS: nat := 3

  datatype Req = Req(user: UserId, score: int, time: Millis, id: nat, cancelled: bool)
  datatype Meta = Meta(tier: nat, id: nat, time: Millis)
  datatype Pairing = Pairing(room: nat, p1: Req, p2: Req)

  // One queue for each tier.
  type Queues = q: seq<seq<Req>> | |q| == TIERS witness [[], [], []]

  // r is the request that was issued under its identifier.
  predicate Issued(issued: map<nat, Req>, r: Req) {
    r.id in issued && issued[r.id] == r
  }

  predicate Plays(p: Pairing, r: Req) {
    p.p1 == r || p.p2 == r
  }

  // `issued` and `withdrawn` are history: every accepted request, and the
  // requests whose user cancelled or left.
  datatype MState = MState(
    online: Users,
    reqs: map<UserId, Meta>,
    incoming: Queues,
    pending: Queues,
    lastReq: nat,
    lastRoom: nat,
    results: seq<Pairing>,
    issued: map<nat, Req>,
    withdrawn: set<nat>)

  function EmptyMatcher(online: Users): MState {
    MState(online, map[], [[], [], []], [[], [], []], 0, 1000, [], map[], {})
  }

  // The scores of the three tiers.
  predicate InBand(score: int, t: nat) {
    || (t == 0 && score < 1300)
    || (t == 1 && 1300 <= score < 1700)
    || (t == 2 && 1700 <= score)
  }

  function TierOf(score: int): (t: nat)
    ensures t < TIERS && InBand(score, t)
  {
    if score < 1300 then 0 else if score < 1700 then 1 else 2
  }

  // ----- requests of the users -----

  // `leaves`: another thread takes the user offline after the entry is made and
  // before the status is set; then the entry is taken back.
  function Enqueue(m: MState, u: UserId, score: int, now: Millis, leaves: bool): (MState, bool) {
    if StatusOf(m.online, u) != HallIdle then (m, false)
    else if u in m.reqs then (m.(lastReq := m.lastReq + 1), false)
    else if leaves then (m.(online := m.online - {u}, lastReq := m.lastReq + 1), false)
    else (Issue(m, Req(u, score, now, m.lastReq + 1, false)), true)
  }

  function Issue(m: MState, r: Req): MState {
    var t := TierOf(r.score);
    m.(
      online := WithStatus(m.online, r.user, Matching),
      reqs := m.reqs[r.user := Meta(t, r.id, r.time)],
      incoming := m.incoming[t := m.incoming[t] + [r]],
      lastReq := r.id,
      issued := m.issued[r.id := r])
  }

  function Cancel(m: MState, u: UserId): (MState, bool) {
    if u !in m.reqs then (m, false)
    else
      (m.(online := WithStatus(m.online, u, HallIdle), reqs := m.reqs - {u}, withdrawn := m.withdrawn + {m.reqs[u].id}), true)
  }

  // The user goes offline, then the matcher is told.
  function Disconnect(m: MState, u: UserId): MState {
    Cancel(m.(online := m.online - {u}), u).0
  }

  // ----- the match loop -----

  predicate IsLive(m: MState, r: Req) {
    && !r.cancelled
    && r.user in m.online
    && StatusOf(m.online, r.user) == Matching
    && r.user in m.reqs
    && m.reqs[r.user].id == r.id
  }

  function Live(m: MState, q: seq<Req>): seq<Req> {
    if q == [] then []
    else if IsLive(m, q[0]) then [q[0]] + Live(m, q[1..])
    else Live(m, q[1..])
  }

  function Drain(m: MState): MState {
    m.(
      incoming := [[], [], []],
      pending := [m.pending[0] + m.incoming[0], m.pending[1] + m.incoming[1], m.pending[2] + m.incoming[2]])
  }

  function Finalize(m: MState, p1: Req, p2: Req): MState {
    m.(
      reqs := m.reqs - {p1.user} - {p2.user},
      online := WithStatus(WithStatus(m.online, p1.user, InRoom), p2.user, InRoom),
      lastRoom := m.lastRoom + 1,
      results := m.results + [Pairing(m.lastRoom + 1, p1, p2)])
  }

  // The live requests two by two, in order.
  function PairUp(m: MState, live: seq<Req>): MState
    decreases |live|
  {
    if |live| < 2 then m else PairUp(Finalize(m, live[0], live[1]), live[2..])
  }

  function Leftover(live: seq<Req>): seq<Req> {
    if |live| % 2 == 0 then [] else [live[|live| - 1]]
  }

  function SameTier(m: MState, t: nat): MState
    requires t < TIERS
  {
    var live := Live(m, m.pending[t]);
    PairUp(m.(pending := m.pending[t := Leftover(live)]), live)
  }

  function DropDead(m: MState, q: seq<Req>): seq<Req> {
    if q == [] || IsLive(m, q[0]) then q else DropDead(m, q[1..])
  }

  predicate Waited(r: Req, now: Millis) {
    now - r.time >= TIMEOUT
  }

  function CrossTier(m: MState, t: nat, now: Millis): MState
    requires t < TIERS - 1
  {
    var left, right := DropDead(m, m.pending[t]), DropDead(m, m.pending[t + 1]);
    if left == [] || right == [] || !(Waited(left[0], now) || Waited(right[0], now)) then
      m.(pending := m.pending[t := left][t + 1 := right])
    else
      Finalize(m.(pending := m.pending[t := left[1..]][t + 1 := right[1..]]), left[0], right[0])
  }

  function SameTiers(m: MState): MState {
    SameTier(SameTier(SameTier(Drain(m), 0), 1), 2)
  }

  // The clock is read once in each of the two passes across tiers.
  function LoopBody(m: MState, now0: Millis, now1: Millis): MState {
    CrossTier(CrossTier(SameTiers(m), 0, now0), 1, now1)
  }

  // ----- events -----

  datatype MatchEvent =
    | MEnqueue(user: UserId, score: int, now: Millis, leaves: bool)
    | MCancel(user: UserId)
    | MDisconnect(user: UserId)
    | MLoop(now0: Millis, now1: Millis)
    | MStatus(online: Users)                  // the other components

  function MatchStep(m: MState, e: MatchEvent): MState {
    match e
    case MEnqueue(u, score, now, leaves) => Enqueue(m, u, score, now, leaves).0
    case MCancel(u) => Cancel(m, u).0
    case MDisconnect(u) => Disconnect(m, u)
    case MLoop(now0, now1) => LoopBody(m, now0, now1)
    case MStatus(online) => m.(online := online)
  }

  // The other components leave queued users alone, and queue nobody.
  ghost predicate Permitted(m: MState, e: MatchEvent) {
    e.MStatus? ==>
      && (forall u :: u in m.reqs ==> StatusOf(e.online, u) == StatusOf(m.online, u))
      && (forall u :: u !in m.reqs ==> StatusOf(e.online, u) != Matching)
  }

  ghost predicate MatchRunOk(m: MState, es: seq<MatchEvent>)
    decreases |es|
  {
    es == [] || (Permitted(m, es[0]) && MatchRunOk(MatchStep(m, es[0]), es[1..]))
  }

  function MatchRun(m: MState, es: seq<MatchEvent>): MState
    decreases |es|
  {
    if es == [] then m else MatchRun(MatchStep(m, es[0]), es[1..])
  }
}
