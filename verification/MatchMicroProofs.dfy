// What survives every interleaving: no request is matched twice, every matched
// request was accepted, and the two players of a result differ.
module MatchMicroProofs {
  import opened Basics
  import opened Online
  import opened MatchSpec
  import opened MatchMicro

  // ----- tokens: where the requests are -----

  // How often r is at a place.
  function One(a: Req, r: Req): nat {
    if a == r then 1 else 0
  }

  function N(q: seq<Req>, r: Req): nat {
    if q == [] then 0 else One(q[0], r) + N(q[1..], r)
  }

  function InTiers(q: Queues, r: Req): nat {
    N(q[0], r) + N(q[1], r) + N(q[2], r)
  }

  function InHand(pc: Pc, r: Req): nat {
    match pc
    case Draining(_) => 0
    case Checking(site, _) => AtSite(site, r)
    case _ => One(pc.p1, r) + One(pc.p2, r)
  }

  function AtSite(site: Site, r: Req): nat {
    match site
    case Front2(_, first) => One(first, r)
    case Again1(_, first, second) => One(first, r) + One(second, r)
    case Again2(_, first, second) => One(first, r) + One(second, r)
    case Cross1(_, p1, p2) => One(p1, r) + One(p2, r)
    case Cross2(_, p1, p2) => One(p1, r) + One(p2, r)
    case _ => 0
  }

  function Won(results: seq<Pairing>, r: Req): nat {
    if results == [] then 0 else
    var k := |results| - 1;
    Won(results[..k], r) + One(results[k].p1, r) + One(results[k].p2, r)
  }

  // Requests that enqueue has handed over, and those that it still holds.
  function Pushed(w: World, r: Req): nat {
    InTiers(w.incoming, r) + InTiers(w.pending, r) + InHand(w.pc, r) + Won(w.results, r)
  }

  function Mapped(w: World, r: Req): nat {
    N(w.mapped, r) + N(w.marked, r)
  }

  function Tokens(w: World, r: Req): nat {
    N(w.held, r) + Mapped(w, r) + Pushed(w, r)
  }

  // ----- the invariant -----

  // Each request is in one place only, and has come there the regular way.
  predicate TokenOk(w: World, r: Req) {
    && Tokens(w, r) <= 1
    && (Tokens(w, r) > 0 ==> Issued(w.issued, r))
    && (N(w.held, r) > 0 ==> r.id !in w.entered)
    && (Mapped(w, r) + Pushed(w, r) > 0 ==> r.id in w.entered)
    && (Pushed(w, r) > 0 ==> r.id in w.accepted)
  }

  ghost predicate TokensOk(w: World) {
    forall r {:trigger TokenOk(w, r)} :: TokenOk(w, r)
  }

  predicate EntryKnown(w: World, u: UserId)
    requires u in w.reqs
  {
    w.reqs[u].id in w.entered && w.reqs[u].id in w.issued && w.issued[w.reqs[u].id].user == u
  }

  predicate IdsBounded(w: World) {
    && (forall id :: id in w.issued ==> id <= w.lastReq && w.issued[id].id == id && !w.issued[id].cancelled)
    && w.entered <= w.issued.Keys
    && (forall u {:trigger EntryKnown(w, u)} :: u in w.reqs ==> EntryKnown(w, u))
  }

  // The entry of r was made and is gone; it never comes back.
  predicate Gone(w: World, r: Req) {
    r.id in w.entered && !(r.user in w.reqs && w.reqs[r.user].id == r.id)
  }

  // Two requests of one user cannot both be valid: the first one is gone as soon
  // as the second one has been found valid.
  predicate Apart(w: World, a: Req, b: Req) {
    a.user == b.user ==> Gone(w, a)
  }

  predicate HandsOk(w: World, pc: Pc) {
    match pc
    case Draining(_) => true
    case Checking(Again1(_, first, second), _) => Apart(w, first, second)
    case Checking(Again2(_, first, second), _) => first.user != second.user
    case Checking(Cross1(_, p1, p2), _) => Apart(w, p1, p2)
    case Checking(Cross2(_, p1, p2), _) => p1.user != p2.user
    case Checking(_, _) => true
    case _ => pc.p1.user != pc.p2.user
  }

  predicate PlayersDiffer(results: seq<Pairing>) {
    forall k :: 0 <= k < |results| ==> results[k].p1.user != results[k].p2.user
  }

  ghost predicate MicroInv(w: World) {
    PcOk(w.pc) && TokensOk(w) && IdsBounded(w) && HandsOk(w, w.pc) && PlayersDiffer(w.results)
  }

  lemma EmptyWorldInv(online: Users)
    ensures MicroInv(EmptyWorld(online))
  {
  }

  // ----- counting -----

  lemma {:induction false} Appended(q: seq<Req>, a: Req, r: Req)
    ensures N(q + [a], r) == N(q, r) + One(a, r)
  {
    if q != [] {
      assert (q + [a])[1..] == q[1..] + [a];
      Appended(q[1..], a, r);
    } else {
      assert q + [a] == [a];
    }
  }

  lemma Prepended(q: seq<Req>, a: Req, r: Req)
    ensures N([a] + q, r) == One(a, r) + N(q, r)
  {
    assert ([a] + q)[1..] == q;
  }

  lemma {:induction false} TakenOut(q: seq<Req>, i: nat, r: Req)
    requires i < |q|
    ensures N(q, r) == N(Without(q, i), r) + One(q[i], r)
  {
    if i == 0 {
      assert Without(q, 0) == q[1..];
    } else {
      assert Without(q, i) == [q[0]] + Without(q[1..], i - 1);
      Prepended(Without(q[1..], i - 1), q[0], r);
      TakenOut(q[1..], i - 1, r);
    }
  }

  lemma {:induction false} Counted(q: seq<Req>, r: Req)
    ensures N(q, r) > 0 <==> r in q
  {
    if q != [] {
      assert q == [q[0]] + q[1..];
      Counted(q[1..], r);
    }
  }

  lemma TierChanges(q: Queues, t: nat, x: seq<Req>, r: Req)
    requires t < TIERS
    ensures InTiers(q[t := x], r) + N(q[t], r) == InTiers(q, r) + N(x, r)
  {
    var q' := q[t := x];
    assert N(q'[t], r) == N(x, r);
    if t == 0 {
      assert q'[1] == q[1] && q'[2] == q[2];
    } else if t == 1 {
      assert q'[0] == q[0] && q'[2] == q[2];
    } else {
      assert q'[0] == q[0] && q'[1] == q[1];
    }
  }

  lemma OneMoreResult(results: seq<Pairing>, p: Pairing, r: Req)
    ensures Won(results + [p], r) == Won(results, r) + One(p.p1, r) + One(p.p2, r)
  {
    assert (results + [p])[..|results|] == results;
  }

  // ----- steps that only move or drop tokens -----

  // What such a step keeps.
  predicate Moved(w: World, w': World, r: Req) {
    && Tokens(w', r) <= Tokens(w, r)
    && Mapped(w', r) + Pushed(w', r) <= Mapped(w, r) + Pushed(w, r)
    && Pushed(w', r) <= Pushed(w, r)
    && N(w'.held, r) <= N(w.held, r)
  }

  ghost predicate Moves(w: World, w': World) {
    && w'.issued == w.issued && w'.entered == w.entered && w'.accepted == w.accepted
    && forall r {:trigger Moved(w, w', r)} :: Moved(w, w', r)
  }

  lemma MovesKeepTokens(w: World, w': World)
    requires TokensOk(w) && Moves(w, w')
    ensures TokensOk(w')
  {
    forall r
      ensures TokenOk(w', r)
    {
      assert TokenOk(w, r) && Moved(w, w', r);
      assert Issued(w'.issued, r) <==> Issued(w.issued, r);
    }
  }

  // ----- the match thread -----

  // Steps of the match thread touch only these parts.
  predicate ThreadOnly(w: World, w': World) {
    && w'.held == w.held && w'.mapped == w.mapped && w'.marked == w.marked
    && w'.issued == w.issued && w'.entered == w.entered && w'.accepted == w.accepted
    && w'.lastReq == w.lastReq
  }

  lemma PopMoves(w: World, t: nat, r: Req)
    requires t < TIERS && w.pending[t] != []
    ensures InTiers(PopAt(w, t).pending, r) + One(w.pending[t][0], r) == InTiers(w.pending, r)
  {
    TierChanges(w.pending, t, w.pending[t][1..], r);
  }

  lemma PushBackMoves(w: World, t: nat, a: Req, r: Req)
    requires t < TIERS
    ensures InTiers(PushBack(w, t, a).pending, r) == InTiers(w.pending, r) + One(a, r)
  {
    Prepended(w.pending[t], a, r);
    TierChanges(w.pending, t, [a] + w.pending[t], r);
  }

  lemma DrainConserves(w: World, t: nat, r: Req)
    requires t < TIERS && w.pc == Draining(t)
    ensures Pushed(DrainStep(w, t), r) == Pushed(w, r)
  {
    if w.incoming[t] != [] {
      var a := w.incoming[t][0];
      TierChanges(w.incoming, t, w.incoming[t][1..], r);
      Appended(w.pending[t], a, r);
      TierChanges(w.pending, t, w.pending[t] + [a], r);
    }
  }

  lemma EmptyMoves(w: World, site: Site, r: Req)
    requires SiteOk(site) && AtQueue(site)
    ensures
      var w' := OnEmpty(w, site);
      InTiers(w'.pending, r) + InHand(w'.pc, r) == InTiers(w.pending, r) + AtSite(site, r)
  {
    if site.Front2? {
      PushBackMoves(w, site.t, site.first, r);
    }
  }

  // What a failed validation drops.
  function Dropped(w: World, site: Site, r: Req): nat
    requires SiteOk(site) && (AtQueue(site) ==> w.pending[TierAt(site)] != [])
  {
    match site
    case Again1(_, first, second) => One(first, r) + One(second, r)
    case Again2(_, _, second) => One(second, r)
    case Cross1(_, p1, p2) => One(p1, r) + One(p2, r)
    case Cross2(_, p1, p2) => One(p1, r) + One(p2, r)
    case _ => One(w.pending[TierAt(site)][0], r)
  }

  lemma InvalidMoves(w: World, site: Site, r: Req)
    requires SiteOk(site) && (AtQueue(site) ==> w.pending[TierAt(site)] != [])
    ensures
      var w' := OnInvalid(w, site);
      InTiers(w'.pending, r) + InHand(w'.pc, r) + Dropped(w, site, r) == InTiers(w.pending, r) + AtSite(site, r)
  {
    if AtQueue(site) {
      PopMoves(w, TierAt(site), r);
    } else if site.Again2? {
      PushBackMoves(w, site.t, site.first, r);
    }
  }

  lemma ValidFrontMoves(w: World, site: Site, now: Millis, r: Req)
    requires (site.Front1? || site.Front2?) && site.t < TIERS && w.pending[site.t] != []
    ensures
      var w' := OnValid(w, site, now);
      InTiers(w'.pending, r) + InHand(w'.pc, r) == InTiers(w.pending, r) + AtSite(site, r)
  {
    PopMoves(w, site.t, r);
  }

  lemma ValidRightMoves(w: World, t: nat, now: Millis, r: Req)
    requires t < TIERS - 1 && w.pending[t + 1] != []
    ensures
      var w' := OnValid(w, Right(t), now);
      InTiers(w'.pending, r) + InHand(w'.pc, r) == InTiers(w.pending, r)
  {
    if w.pending[t] != [] {
      PopBothMoves(w, t, r);
    }
  }

  lemma ValidMoves(w: World, site: Site, now: Millis, r: Req)
    requires SiteOk(site) && (AtQueue(site) ==> w.pending[TierAt(site)] != [])
    ensures
      var w' := OnValid(w, site, now);
      InTiers(w'.pending, r) + InHand(w'.pc, r) == InTiers(w.pending, r) + AtSite(site, r)
  {
    match site {
      case Front1(_) => ValidFrontMoves(w, site, now, r);
      case Front2(_, _) => ValidFrontMoves(w, site, now, r);
      case Right(t) => ValidRightMoves(w, t, now, r);
      case _ =>
    }
  }

  lemma PopBothMoves(w: World, t: nat, r: Req)
    requires t < TIERS - 1 && w.pending[t] != [] && w.pending[t + 1] != []
    ensures
      InTiers(PopAt(PopAt(w, t), t + 1).pending, r) + One(w.pending[t][0], r) + One(w.pending[t + 1][0], r)
        == InTiers(w.pending, r)
  {
    PopMoves(w, t, r);
    PopMoves(PopAt(w, t), t + 1, r);
  }

  // A check touches the pending queues and the program counter only.
  predicate CheckOnly(w: World, w': World) {
    ThreadOnly(w, w') && w'.incoming == w.incoming && w'.results == w.results && w'.reqs == w.reqs && PcOk(w'.pc)
  }

  lemma EmptyFrame(w: World, site: Site)
    requires SiteOk(site) && AtQueue(site)
    ensures CheckOnly(w, OnEmpty(w, site))
  {
  }

  lemma InvalidFrame(w: World, site: Site)
    requires SiteOk(site) && (AtQueue(site) ==> w.pending[TierAt(site)] != [])
    ensures CheckOnly(w, OnInvalid(w, site))
  {
  }

  lemma ValidFrame(w: World, site: Site, now: Millis)
    requires SiteOk(site) && (AtQueue(site) ==> w.pending[TierAt(site)] != [])
    ensures CheckOnly(w, OnValid(w, site, now))
  {
  }

  lemma CheckFrame(w: World, site: Site, read: Read, now: Millis)
    requires SiteOk(site)
    ensures CheckOnly(w, CheckStep(w, site, read, now))
  {
    if AtQueue(site) && w.pending[TierAt(site)] == [] {
      EmptyFrame(w, site);
    } else if !Says(w, read, Subject(w, site)) {
      InvalidFrame(w, site);
    } else if read == Entry {
      ValidFrame(w, site, now);
    }
  }

  // Whether the next step of the match thread is a failed validation.
  predicate Fails(w: World) {
    && w.pc.Checking? && SiteOk(w.pc.site)
    && (AtQueue(w.pc.site) ==> w.pending[TierAt(w.pc.site)] != [])
    && !Says(w, w.pc.read, Subject(w, w.pc.site))
  }

  function Lost(w: World, r: Req): nat {
    if Fails(w) then Dropped(w, w.pc.site, r) else 0
  }

  lemma CheckMoves(w: World, site: Site, read: Read, now: Millis, r: Req)
    requires SiteOk(site) && w.pc == Checking(site, read)
    ensures
      var w' := CheckStep(w, site, read, now);
      InTiers(w'.pending, r) + InHand(w'.pc, r) + Lost(w, r) == InTiers(w.pending, r) + AtSite(site, r)
  {
    if AtQueue(site) && w.pending[TierAt(site)] == [] {
      EmptyMoves(w, site, r);
    } else if !Says(w, read, Subject(w, site)) {
      InvalidMoves(w, site, r);
    } else if read == Entry {
      ValidMoves(w, site, now, r);
    }
  }

  lemma CheckConserves(w: World, site: Site, read: Read, now: Millis, r: Req)
    requires SiteOk(site) && w.pc == Checking(site, read)
    ensures Pushed(CheckStep(w, site, read, now), r) + Lost(w, r) == Pushed(w, r)
  {
    CheckFrame(w, site, read, now);
    CheckMoves(w, site, read, now, r);
  }

  lemma EmitConserves(w: World, p: Pairing, r: Req)
    requires PcOk(w.pc) && w.pc.Emitting? && p.p1 == w.pc.p1 && p.p2 == w.pc.p2
    ensures Pushed(w.(lastRoom := p.room, results := w.results + [p], pc := Resume(w.pc.back)), r) == Pushed(w, r)
  {
    OneMoreResult(w.results, p, r);
  }

  // A pushed request is queued, in hand or in a result for good, but for failed
  // validations.
  lemma ThreadConserves(w: World, now: Millis, r: Req)
    requires PcOk(w.pc)
    ensures Pushed(ThreadStep(w, now), r) + Lost(w, r) == Pushed(w, r)
  {
    match w.pc {
      case Draining(t) => DrainConserves(w, t, r);
      case Checking(site, read) => CheckConserves(w, site, read, now, r);
      case Emitting(p1, p2, back) => EmitConserves(w, Pairing(w.lastRoom + 1, p1, p2), r);
      case _ =>
    }
  }

  lemma ThreadMoves(w: World, now: Millis, r: Req)
    requires PcOk(w.pc)
    ensures Moved(w, ThreadStep(w, now), r)
  {
    ThreadFrame(w, now);
    ThreadConserves(w, now, r);
  }

  lemma ThreadFrame(w: World, now: Millis)
    requires PcOk(w.pc)
    ensures ThreadOnly(w, ThreadStep(w, now)) && PcOk(ThreadStep(w, now).pc)
  {
    if w.pc.Checking? {
      CheckFrame(w, w.pc.site, w.pc.read, now);
    }
  }

  // ----- the hands -----

  // Entries that exist stay genuine; those that are gone stay gone.
  ghost predicate FewerOrNew(w: World, w': World) {
    && w.entered <= w'.entered
    && forall u :: u in w'.reqs ==> (u in w.reqs && w'.reqs[u] == w.reqs[u]) || w'.reqs[u].id !in w.entered
  }

  lemma GoneStaysGone(w: World, w': World, r: Req)
    requires Gone(w, r) && FewerOrNew(w, w')
    ensures Gone(w', r)
  {
  }

  lemma HandsStayOk(w: World, w': World)
    requires HandsOk(w, w.pc) && FewerOrNew(w, w')
    ensures HandsOk(w', w.pc)
  {
    match w.pc {
      case Checking(site, _) =>
        match site {
          case Again1(_, first, second) =>
            if first.user == second.user { GoneStaysGone(w, w', first); }
          case Cross1(_, p1, p2) =>
            if p1.user == p2.user { GoneStaysGone(w, w', p1); }
          case _ =>
        }
      case _ =>
    }
  }

  // Two tokens have different identifiers.
  lemma TokensDiffer(w: World, a: Req, b: Req)
    requires TokensOk(w) && Tokens(w, a) > 0 && Tokens(w, b) > 0 && (a == b ==> Tokens(w, a) > 1)
    ensures a.id != b.id
  {
    assert TokenOk(w, a) && TokenOk(w, b);
  }

  // Finding b valid shows that another request of the user is gone.
  lemma SecondIsValid(w: World, a: Req, b: Req)
    requires a.id != b.id && a.id in w.entered && Says(w, Entry, b)
    ensures Apart(w, a, b)
  {
  }

  lemma SecondFound(w: World, t: nat, first: Req)
    requires TokensOk(w) && t < TIERS && w.pending[t] != [] && w.pc == Checking(Front2(t, first), Entry)
    requires Says(w, Entry, w.pending[t][0])
    ensures Apart(w, first, w.pending[t][0])
  {
    var b := w.pending[t][0];
    PopMoves(w, t, b);
    TokensDiffer(w, first, b);
    assert TokenOk(w, first);
    SecondIsValid(w, first, b);
  }

  lemma PartnerFound(w: World, t: nat)
    requires TokensOk(w) && t < TIERS - 1 && w.pending[t] != [] && w.pending[t + 1] != []
    requires Says(w, Entry, w.pending[t + 1][0])
    ensures Apart(w, w.pending[t][0], w.pending[t + 1][0])
  {
    var a, b := w.pending[t][0], w.pending[t + 1][0];
    PopMoves(w, t, a);
    PopMoves(PopAt(w, t), t + 1, a);
    PopMoves(w, t + 1, b);
    TokensDiffer(w, a, b);
    assert TokenOk(w, a);
    SecondIsValid(w, a, b);
  }

  lemma CheckKeepsHands(w: World, site: Site, read: Read, now: Millis)
    requires TokensOk(w) && SiteOk(site) && w.pc == Checking(site, read) && HandsOk(w, w.pc)
    ensures HandsOk(w, CheckStep(w, site, read, now).pc)
  {
    if AtQueue(site) && w.pending[TierAt(site)] != [] && Says(w, Entry, Subject(w, site)) && read == Entry {
      if site.Front2? {
        SecondFound(w, site.t, site.first);
      } else if site.Right? && w.pending[site.t] != [] {
        PartnerFound(w, site.t);
      }
    }
  }

  // The hands are judged by the map and the history only.
  lemma SameHands(w: World, w': World, pc: Pc)
    requires w'.reqs == w.reqs && w'.entered == w.entered
    ensures HandsOk(w', pc) <==> HandsOk(w, pc)
  {
  }

  lemma ThreadKeepsHands(w: World, now: Millis)
    requires MicroInv(w)
    ensures HandsOk(ThreadStep(w, now), ThreadStep(w, now).pc) && PlayersDiffer(ThreadStep(w, now).results)
  {
    match w.pc {
      case Checking(site, read) =>
        CheckKeepsHands(w, site, read, now);
        CheckFrame(w, site, read, now);
        SameHands(w, CheckStep(w, site, read, now), CheckStep(w, site, read, now).pc);
      case _ =>
    }
  }

  lemma FewerKeepsBounds(w: World, w': World)
    requires IdsBounded(w) && w'.issued == w.issued && w'.entered == w.entered && w'.lastReq == w.lastReq
    requires forall u :: u in w'.reqs ==> u in w.reqs && w'.reqs[u] == w.reqs[u]
    ensures IdsBounded(w') && FewerOrNew(w, w')
  {
    forall u | u in w'.reqs
      ensures EntryKnown(w', u)
    {
      assert EntryKnown(w, u);
    }
  }

  lemma ThreadEntries(w: World, now: Millis)
    requires PcOk(w.pc)
    ensures forall u :: u in ThreadStep(w, now).reqs ==> u in w.reqs && ThreadStep(w, now).reqs[u] == w.reqs[u]
  {
    if w.pc.Checking? {
      CheckFrame(w, w.pc.site, w.pc.read, now);
    }
  }

  lemma ThreadKeepsInv(w: World, now: Millis)
    requires MicroInv(w)
    ensures MicroInv(ThreadStep(w, now))
  {
    var w' := ThreadStep(w, now);
    forall r
      ensures Moved(w, w', r)
    {
      ThreadMoves(w, now, r);
    }
    ThreadFrame(w, now);
    MovesKeepTokens(w, w');
    ThreadKeepsHands(w, now);
    ThreadEntries(w, now);
    FewerKeepsBounds(w, w');
  }

  // ----- the other threads -----

  // They leave these parts alone.
  predicate CallerOnly(w: World, w': World) {
    w'.pc == w.pc && w'.results == w.results && w'.pending == w.pending
  }

  // A step of another thread that makes no entry and issues nothing.
  lemma QuietStepKeepsInv(w: World, w': World)
    requires MicroInv(w) && Moves(w, w') && CallerOnly(w, w') && w'.lastReq == w.lastReq
    requires forall u :: u in w'.reqs ==> u in w.reqs && w'.reqs[u] == w.reqs[u]
    ensures MicroInv(w')
  {
    MovesKeepTokens(w, w');
    FewerKeepsBounds(w, w');
    HandsStayOk(w, w');
  }

  // A step after which every request is where it was.
  lemma StillKeepsInv(w: World, w': World)
    requires MicroInv(w) && CallerOnly(w, w') && ThreadOnly(w, w') && w'.incoming == w.incoming
    requires forall u :: u in w'.reqs ==> u in w.reqs && w'.reqs[u] == w.reqs[u]
    ensures MicroInv(w')
  {
    forall r
      ensures Moved(w, w', r)
    {
    }
    QuietStepKeepsInv(w, w');
  }

  lemma TakeKeepsTokens(w: World, i: nat, now: Millis)
    requires TokensOk(w) && IdsBounded(w) && i < |w.asked|
    ensures TokensOk(TakeStep(w, i, now))
  {
    var w' := TakeStep(w, i, now);
    var r := w'.held[|w.held|];
    forall x
      ensures TokenOk(w', x)
    {
      assert TokenOk(w, x);
      Appended(w.held, r, x);
      assert Issued(w.issued, x) ==> Issued(w'.issued, x);
    }
  }

  lemma TakeKeepsInv(w: World, i: nat, now: Millis)
    requires MicroInv(w) && i < |w.asked|
    ensures MicroInv(TakeStep(w, i, now))
  {
    var w' := TakeStep(w, i, now);
    TakeKeepsTokens(w, i, now);
    forall u | u in w'.reqs
      ensures EntryKnown(w', u)
    {
      assert EntryKnown(w, u);
    }
    HandsStayOk(w, w');
  }

  lemma EnterKeepsTokens(w: World, i: nat)
    requires TokensOk(w) && i < |w.held|
    ensures TokensOk(EnterStep(w, i))
  {
    var w', r := EnterStep(w, i), w.held[i];
    TakenOut(w.held, i, r);
    assert TokenOk(w, r);
    forall x
      ensures TokenOk(w', x)
    {
      assert TokenOk(w, x);
      TakenOut(w.held, i, x);
      Appended(w.mapped, r, x);
      assert Issued(w'.issued, x) <==> Issued(w.issued, x);
      if x != r && Tokens(w, x) > 0 {
        TokensDiffer(w, x, r);
      }
    }
  }

  lemma EnterKeepsInv(w: World, i: nat)
    requires MicroInv(w) && i < |w.held|
    ensures MicroInv(EnterStep(w, i))
  {
    var w', r := EnterStep(w, i), w.held[i];
    TakenOut(w.held, i, r);
    assert TokenOk(w, r);
    EnterKeepsTokens(w, i);
    forall u | u in w'.reqs
      ensures EntryKnown(w', u)
    {
      assert u in w.reqs ==> EntryKnown(w, u);
    }
    HandsStayOk(w, w');
  }

  lemma MarkKeepsInv(w: World, i: nat)
    requires MicroInv(w) && i < |w.mapped|
    ensures MicroInv(MarkStep(w, i))
  {
    var w' := MarkStep(w, i);
    forall r
      ensures Moved(w, w', r)
    {
      TakenOut(w.mapped, i, r);
      Appended(w.marked, w.mapped[i], r);
    }
    QuietStepKeepsInv(w, w');
  }

  lemma PushMoves(w: World, i: nat, r: Req)
    requires i < |w.marked|
    ensures
      var w' := PushStep(w, i);
      && Pushed(w', r) == Pushed(w, r) + One(w.marked[i], r)
      && Mapped(w', r) + One(w.marked[i], r) == Mapped(w, r)
      && Tokens(w', r) == Tokens(w, r)
  {
    var a := w.marked[i];
    var t := TierOf(a.score);
    TakenOut(w.marked, i, r);
    Appended(w.incoming[t], a, r);
    TierChanges(w.incoming, t, w.incoming[t] + [a], r);
  }

  lemma PushKeepsInv(w: World, i: nat)
    requires MicroInv(w) && i < |w.marked|
    ensures MicroInv(PushStep(w, i))
  {
    var w' := PushStep(w, i);
    forall x
      ensures TokenOk(w', x)
    {
      assert TokenOk(w, x);
      PushMoves(w, i, x);
      assert Issued(w'.issued, x) <==> Issued(w.issued, x);
    }
    FewerKeepsBounds(w, w');
    HandsStayOk(w, w');
  }

  lemma MicroStepKeepsInv(w: World, e: MicroEvent)
    requires MicroInv(w) && CanHappen(w, e)
    ensures MicroInv(MicroStep(w, e))
  {
    match e {
      case Takes(i, now) => TakeKeepsInv(w, i, now);
      case Enters(i) => EnterKeepsInv(w, i);
      case Marks(i) => MarkKeepsInv(w, i);
      case Pushes(i) => PushKeepsInv(w, i);
      case Thread(now) => ThreadKeepsInv(w, now);
      case _ => OtherStepKeepsInv(w, e);
    }
  }

  lemma OtherStepKeepsInv(w: World, e: MicroEvent)
    requires MicroInv(w) && CanHappen(w, e)
    requires e.Asks? || e.Undoes? || e.Erases? || e.Looks? || e.Resets? || e.Others?
    ensures MicroInv(MicroStep(w, e))
  {
    StillKeepsInv(w, MicroStep(w, e));
  }

  lemma {:induction false} MicroRunKeepsInv(w: World, es: seq<MicroEvent>)
    requires MicroInv(w) && MicroRunOk(w, es)
    ensures MicroInv(MicroRun(w, es))
    decreases |es|
  {
    if es != [] {
      MicroStepKeepsInv(w, es[0]);
      MicroRunKeepsInv(MicroStep(w, es[0]), es[1..]);
    }
  }

  // ----- safety under every interleaving -----

  lemma {:induction false} WonPrefix(results: seq<Pairing>, n: nat, r: Req)
    requires n <= |results|
    ensures Won(results[..n], r) <= Won(results, r)
  {
    if n < |results| {
      WonPrefix(results[..|results| - 1], n, r);
      assert results[..|results| - 1][..n] == results[..n];
    } else {
      assert results[..n] == results;
    }
  }

  // Players of the results are won tokens; of two results, two of them.
  lemma WonAt(results: seq<Pairing>, k: nat, r: Req)
    requires k < |results|
    ensures Won(results[..k], r) + One(results[k].p1, r) + One(results[k].p2, r) <= Won(results, r)
  {
    WonPrefix(results, k + 1, r);
    assert results[..k + 1][..k] == results[..k];
  }

  ghost predicate Sound(w: World, k: nat)
    requires k < |w.results|
  {
    var p := w.results[k];
    && p.p1.id in w.accepted && p.p2.id in w.accepted
    && Issued(w.issued, p.p1) && Issued(w.issued, p.p2)
    && p.p1.user != p.p2.user && p.p1.id != p.p2.id
  }

  predicate Disjoint(p: Pairing, q: Pairing) {
    p.p1.id != q.p1.id && p.p1.id != q.p2.id && p.p2.id != q.p1.id && p.p2.id != q.p2.id
  }

  lemma ResultIsSound(w: World, k: nat)
    requires MicroInv(w) && k < |w.results|
    ensures Sound(w, k)
  {
    var p := w.results[k];
    WonAt(w.results, k, p.p1);
    WonAt(w.results, k, p.p2);
    assert TokenOk(w, p.p1) && TokenOk(w, p.p2);
  }

  lemma PlayersOfTwo(w: World, j: nat, k: nat, a: Req, b: Req)
    requires MicroInv(w) && j < k < |w.results| && Plays(w.results[j], a) && Plays(w.results[k], b)
    ensures a.id != b.id
  {
    WonAt(w.results, k, a);
    WonAt(w.results, k, b);
    WonAt(w.results[..k], j, a);
    TokensDiffer(w, a, b);
  }

  lemma ResultsAreDisjoint(w: World, j: nat, k: nat)
    requires MicroInv(w) && j < k < |w.results|
    ensures Disjoint(w.results[j], w.results[k])
  {
    var p, q := w.results[j], w.results[k];
    PlayersOfTwo(w, j, k, p.p1, q.p1);
    PlayersOfTwo(w, j, k, p.p1, q.p2);
    PlayersOfTwo(w, j, k, p.p2, q.p1);
    PlayersOfTwo(w, j, k, p.p2, q.p2);
  }

  // Whatever the interleaving: no identifier is in two results, each belongs to an
  // enqueue that returned true, and the players of a result are two users.
  lemma SafeUnderEveryInterleaving(online: Users, es: seq<MicroEvent>)
    requires MicroRunOk(EmptyWorld(online), es)
    ensures
      var w := MicroRun(EmptyWorld(online), es);
      && (forall k :: 0 <= k < |w.results| ==> Sound(w, k))
      && (forall j, k :: 0 <= j < k < |w.results| ==> Disjoint(w.results[j], w.results[k]))
  {
    var w := MicroRun(EmptyWorld(online), es);
    EmptyWorldInv(online);
    MicroRunKeepsInv(EmptyWorld(online), es);
    forall k | 0 <= k < |w.results|
      ensures Sound(w, k)
    {
      ResultIsSound(w, k);
    }
    forall j, k | 0 <= j < k < |w.results|
      ensures Disjoint(w.results[j], w.results[k])
    {
      ResultsAreDisjoint(w, j, k);
    }
  }
}
