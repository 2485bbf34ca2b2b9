// The matchmaker under interleaving: every locked section, every read of the
// status map and every write to it is a step of its own, of the match thread or of
// one of the threads that enqueue and cancel.  The other components may change
// any status at any time.
module MatchMicro {
  import opened Basics
  import opened Online
  import opened MatchSpec

  // ----- the match thread -----

  // Where a request is being validated, with the requests in hand.
  datatype Site =
    | Front1(t: nat)                              // dead fronts before the first
    | Front2(t: nat, first: Req)                  // dead fronts before the second
    | Again1(t: nat, first: Req, second: Req)     // the first once more
    | Again2(t: nat, first: Req, second: Req)     // the second once more
    | Left(t: nat)                                // dead fronts of the lower tier
    | Right(t: nat)                               // dead fronts of the upper tier
    | Cross1(t: nat, p1: Req, p2: Req)            // the lower one once more
    | Cross2(t: nat, p1: Req, p2: Req)            // the upper one once more

  // A validation reads whether the user is online, then the status, then the
  // map.  A match is made in four steps: entries, two statuses, result.
  datatype Read = IfOnline | Status | Entry

  datatype Pc =
    | Draining(t: nat)
    | Checking(site: Site, read: Read)
    | Erasing(p1: Req, p2: Req, back: Site)
    | Setting1(p1: Req, p2: Req, back: Site)
    | Setting2(p1: Req, p2: Req, back: Site)
    | Emitting(p1: Req, p2: Req, back: Site)

  predicate SiteOk(site: Site) {
    match site
    case Left(t) => t < TIERS - 1
    case Right(t) => t < TIERS - 1
    case Cross1(t, _, _) => t < TIERS - 1
    case Cross2(t, _, _) => t < TIERS - 1
    case _ => site.t < TIERS
  }

  predicate PcOk(pc: Pc) {
    match pc
    case Draining(t) => t < TIERS
    case Checking(site, _) => SiteOk(site)
    case _ => SiteOk(pc.back) && (pc.back.Front1? || pc.back.Left?)
  }

  datatype Ask = Ask(user: UserId, score: int)

  // The other threads are bags of calls, one bag for each point between two
  // steps of enqueue or cancel.  `issued`, `entered` and `accepted` are history:
  // requests that got an identifier, that got into the map, and whose enqueue
  // returned true.
  datatype World = World(
    online: Users,
    reqs: map<UserId, Meta>,
    incoming: Queues,
    pending: Queues,
    lastReq: nat,
    lastRoom: nat,
    results: seq<Pairing>,
    pc: Pc,
    asked: seq<Ask>,               // status was HALL_IDLE
    held: seq<Req>,                // identifier taken
    mapped: seq<Req>,              // entry made
    marked: seq<Req>,              // status set, not yet pushed
    undoing: seq<UserId>,          // status could not be set
    erased: seq<UserId>,           // cancel erased the entry
    resetting: seq<UserId>,        // and saw the user online
    issued: map<nat, Req>,
    entered: set<nat>,
    accepted: set<nat>)

  function EmptyWorld(online: Users): World {
    World(online, map[], [[], [], []], [[], [], []], 0, 1000, [], Draining(0), [], [], [], [], [], [], [], map[], {}, {})
  }

  function Without<T>(s: seq<T>, i: nat): seq<T>
    requires i < |s|
  {
    s[..i] + s[i + 1..]
  }

  // ----- control flow of the match thread -----

  function AfterSame(t: nat): Pc {
    if t < 2 then Checking(Front1(t + 1), IfOnline) else Checking(Left(0), IfOnline)
  }

  function AfterCross(t: nat): Pc {
    if t < 1 then Checking(Left(1), IfOnline) else Draining(0)
  }

  function Resume(back: Site): Pc {
    match back
    case Left(t) => AfterCross(t)
    case _ => Checking(back, IfOnline)
  }

  predicate AtQueue(site: Site) {
    site.Front1? || site.Front2? || site.Left? || site.Right?
  }

  // The queue whose front a queue site looks at.
  function TierAt(site: Site): nat {
    if site.Right? then site.t + 1 else site.t
  }

  // The request under validation.
  function Subject(w: World, site: Site): (r: Req)
    requires SiteOk(site) && (AtQueue(site) ==> w.pending[TierAt(site)] != [])
  {
    match site
    case Again1(_, first, _) => first
    case Again2(_, _, second) => second
    case Cross1(_, p1, _) => p1
    case Cross2(_, _, p2) => p2
    case _ => w.pending[TierAt(site)][0]
  }

  function PopAt(w: World, t: nat): World
    requires t < TIERS && w.pending[t] != []
  {
    w.(pending := w.pending[t := w.pending[t][1..]])
  }

  function PushBack(w: World, t: nat, r: Req): World
    requires t < TIERS
  {
    w.(pending := w.pending[t := [r] + w.pending[t]])
  }

  // The queue is empty: the discarding loop ends there.
  function OnEmpty(w: World, site: Site): World
    requires SiteOk(site) && AtQueue(site)
  {
    match site
    case Front1(t) => w.(pc := AfterSame(t))
    case Front2(t, first) => PushBack(w, t, first).(pc := AfterSame(t))
    case Left(t) => w.(pc := Checking(Right(t), IfOnline))
    case Right(t) => w.(pc := AfterCross(t))
  }

  // One of the three reads said no.
  function OnInvalid(w: World, site: Site): World
    requires SiteOk(site) && (AtQueue(site) ==> w.pending[TierAt(site)] != [])
  {
    match site
    case Again1(t, _, _) => w.(pc := Checking(Front1(t), IfOnline))
    case Again2(t, first, _) => PushBack(w, t, first).(pc := Checking(Front1(t), IfOnline))
    case Cross1(t, _, _) => w.(pc := AfterCross(t))
    case Cross2(t, _, _) => w.(pc := AfterCross(t))
    case _ => PopAt(w, TierAt(site)).(pc := Checking(site, IfOnline))
  }

  // All three reads said yes.
  function OnValid(w: World, site: Site, now: Millis): World
    requires SiteOk(site) && (AtQueue(site) ==> w.pending[TierAt(site)] != [])
  {
    match site
    case Front1(t) =>
      if |w.pending[t]| < 2 then w.(pc := AfterSame(t))
      else PopAt(w, t).(pc := Checking(Front2(t, w.pending[t][0]), IfOnline))
    case Front2(t, first) =>
      PopAt(w, t).(pc := Checking(Again1(t, first, w.pending[t][0]), IfOnline))
    case Again1(t, first, second) => w.(pc := Checking(Again2(t, first, second), IfOnline))
    case Again2(t, first, second) => w.(pc := Erasing(first, second, Front1(t)))
    case Left(t) => w.(pc := Checking(Right(t), IfOnline))
    case Right(t) =>
      if w.pending[t] == [] || !(Waited(w.pending[t][0], now) || Waited(w.pending[t + 1][0], now)) then w.(pc := AfterCross(t))
      else
        PopAt(PopAt(w, t), t + 1).(pc := Checking(Cross1(t, w.pending[t][0], w.pending[t + 1][0]), IfOnline))
    case Cross1(t, p1, p2) => w.(pc := Checking(Cross2(t, p1, p2), IfOnline))
    case Cross2(t, p1, p2) => w.(pc := Erasing(p1, p2, Left(t)))
  }

  predicate Says(w: World, read: Read, r: Req) {
    match read
    case IfOnline => !r.cancelled && r.user in w.online
    case Status => StatusOf(w.online, r.user) == Matching
    case Entry => r.user in w.reqs && w.reqs[r.user].id == r.id
  }

  function CheckStep(w: World, site: Site, read: Read, now: Millis): World
    requires SiteOk(site)
  {
    if AtQueue(site) && w.pending[TierAt(site)] == [] then OnEmpty(w, site)
    else if !Says(w, read, Subject(w, site)) then OnInvalid(w, site)
    else
      match read
      case IfOnline => w.(pc := Checking(site, Status))
      case Status => w.(pc := Checking(site, Entry))
      case Entry => OnValid(w, site, now)
  }

  function DrainStep(w: World, t: nat): World
    requires t < TIERS
  {
    if w.incoming[t] == [] then
      w.(pc := if t < 2 then Draining(t + 1) else Checking(Front1(0), IfOnline))
    else
      w.(incoming := w.incoming[t := w.incoming[t][1..]], pending := w.pending[t := w.pending[t] + [w.incoming[t][0]]])
  }

  function ThreadStep(w: World, now: Millis): World
    requires PcOk(w.pc)
  {
    match w.pc
    case Draining(t) => DrainStep(w, t)
    case Checking(site, read) => CheckStep(w, site, read, now)
    case Erasing(p1, p2, back) => w.(reqs := w.reqs - {p1.user} - {p2.user}, pc := Setting1(p1, p2, back))
    case Setting1(p1, p2, back) => w.(online := WithStatus(w.online, p1.user, InRoom), pc := Setting2(p1, p2, back))
    case Setting2(p1, p2, back) => w.(online := WithStatus(w.online, p2.user, InRoom), pc := Emitting(p1, p2, back))
    case Emitting(p1, p2, back) =>
      w.(lastRoom := w.lastRoom + 1, results := w.results + [Pairing(w.lastRoom + 1, p1, p2)], pc := Resume(back))
  }

  // ----- enqueue and cancel -----

  function AskStep(w: World, a: Ask): World {
    if StatusOf(w.online, a.user) == HallIdle then w.(asked := w.asked + [a]) else w
  }

  function TakeStep(w: World, i: nat, now: Millis): World
    requires i < |w.asked|
  {
    var r := Req(w.asked[i].user, w.asked[i].score, now, w.lastReq + 1, false);
    w.(asked := Without(w.asked, i), lastReq := r.id, held := w.held + [r], issued := w.issued[r.id := r])
  }

  function EnterStep(w: World, i: nat): World
    requires i < |w.held|
  {
    var r := w.held[i];
    var w' := w.(held := Without(w.held, i));
    if r.user in w.reqs then w'
    else w'.(
      reqs := w.reqs[r.user := Meta(TierOf(r.score), r.id, r.time)],
      mapped := w.mapped + [r],
      entered := w.entered + {r.id})
  }

  function MarkStep(w: World, i: nat): World
    requires i < |w.mapped|
  {
    var r := w.mapped[i];
    var w' := w.(mapped := Without(w.mapped, i));
    if r.user in w.online then w'.(online := w.online[r.user := Matching], marked := w.marked + [r])
    else w'.(undoing := w.undoing + [r.user])
  }

  function PushStep(w: World, i: nat): World
    requires i < |w.marked|
  {
    var r := w.marked[i];
    var t := TierOf(r.score);
    w.(
      marked := Without(w.marked, i),
      incoming := w.incoming[t := w.incoming[t] + [r]],
      accepted := w.accepted + {r.id})
  }

  function UndoStep(w: World, i: nat): World
    requires i < |w.undoing|
  {
    w.(undoing := Without(w.undoing, i), reqs := w.reqs - {w.undoing[i]})
  }

  function EraseStep(w: World, u: UserId): World {
    if u in w.reqs then w.(reqs := w.reqs - {u}, erased := w.erased + [u]) else w
  }

  function LookStep(w: World, i: nat): World
    requires i < |w.erased|
  {
    var u := w.erased[i];
    var w' := w.(erased := Without(w.erased, i));
    if u in w.online then w'.(resetting := w.resetting + [u]) else w'
  }

  function ResetStep(w: World, i: nat): World
    requires i < |w.resetting|
  {
    w.(resetting := Without(w.resetting, i), online := WithStatus(w.online, w.resetting[i], HallIdle))
  }

  // ----- events -----

  datatype MicroEvent =
    | Asks(a: Ask)
    | Takes(i: nat, now: Millis)
    | Enters(i: nat)
    | Marks(i: nat)
    | Pushes(i: nat)
    | Undoes(i: nat)
    | Erases(u: UserId)
    | Looks(i: nat)
    | Resets(i: nat)
    | Thread(now: Millis)
    | Others(online: Users)

  predicate CanHappen(w: World, e: MicroEvent) {
    match e
    case Takes(i, _) => i < |w.asked|
    case Enters(i) => i < |w.held|
    case Marks(i) => i < |w.mapped|
    case Pushes(i) => i < |w.marked|
    case Undoes(i) => i < |w.undoing|
    case Looks(i) => i < |w.erased|
    case Resets(i) => i < |w.resetting|
    case Thread(_) => PcOk(w.pc)
    case _ => true
  }

  function MicroStep(w: World, e: MicroEvent): World
    requires CanHappen(w, e)
  {
    match e
    case Asks(a) => AskStep(w, a)
    case Takes(i, now) => TakeStep(w, i, now)
    case Enters(i) => EnterStep(w, i)
    case Marks(i) => MarkStep(w, i)
    case Pushes(i) => PushStep(w, i)
    case Undoes(i) => UndoStep(w, i)
    case Erases(u) => EraseStep(w, u)
    case Looks(i) => LookStep(w, i)
    case Resets(i) => ResetStep(w, i)
    case Thread(now) => ThreadStep(w, now)
    case Others(online) => w.(online := online)
  }

  ghost predicate MicroRunOk(w: World, es: seq<MicroEvent>)
    decreases |es|
  {
    es == [] || (CanHappen(w, es[0]) && MicroRunOk(MicroStep(w, es[0]), es[1..]))
  }

  function MicroRun(w: World, es: seq<MicroEvent>): World
    requires MicroRunOk(w, es)
    decreases |es|
  {
    if es == [] then w else MicroRun(MicroStep(w, es[0]), es[1..])
  }
}
