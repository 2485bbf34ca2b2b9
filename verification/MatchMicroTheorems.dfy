// What does not survive every interleaving: a live request can be dropped.
module MatchMicroTheorems {
  import opened Online
  import opened MatchSpec
  import opened MatchMicro
  import opened MatchMicroProofs

  predicate Alive(w: World, r: Req) {
    Says(w, IfOnline, r) && Says(w, Status, r) && Says(w, Entry, r)
  }

  // The one in hand whose partner is being validated once more: the second, or
  // either one of a pair across tiers.
  predicate BesideSubject(site: Site, r: Req) {
    match site
    case Again1(_, _, second) => second == r
    case Cross1(_, _, p2) => p2 == r
    case Cross2(_, p1, _) => p1 == r
    case _ => false
  }

  // A live request that was pushed is lost in a step of the match thread if and
  // only if the step finds its partner in hand invalid.
  lemma LiveRequestIsLostIff(w: World, now: Millis, r: Req)
    requires MicroInv(w) && Alive(w, r) && Pushed(w, r) > 0
    ensures Pushed(ThreadStep(w, now), r) == 0 <==> Fails(w) && BesideSubject(w.pc.site, r)
  {
    assert TokenOk(w, r);
    ThreadConserves(w, now, r);
    if Fails(w) {
      var site := w.pc.site;
      assert Subject(w, site) != r;
      OnlyOneHand(w, r);
    }
  }

  // In hand at most once.
  lemma OnlyOneHand(w: World, r: Req)
    requires MicroInv(w) && Fails(w) && Subject(w, w.pc.site) != r
    ensures Dropped(w, w.pc.site, r) == if BesideSubject(w.pc.site, r) then 1 else 0
  {
  }

  // ----- lost for good -----

  // No step brings an issued request to more places than it was.
  lemma TokensFall(w: World, e: MicroEvent, r: Req)
    requires MicroInv(w) && CanHappen(w, e) && r.id in w.issued
    ensures Tokens(MicroStep(w, e), r) <= Tokens(w, r) && r.id in MicroStep(w, e).issued
  {
    match e {
      case Takes(i, now) => Appended(w.held, TakeStep(w, i, now).held[|w.held|], r);
      case Enters(i) =>
        TakenOut(w.held, i, r);
        Appended(w.mapped, w.held[i], r);
      case Marks(i) =>
        TakenOut(w.mapped, i, r);
        Appended(w.marked, w.mapped[i], r);
      case Pushes(i) => PushMoves(w, i, r);
      case Thread(now) =>
        ThreadMoves(w, now, r);
        ThreadFrame(w, now);
      case _ =>
    }
  }

  // An issued request that is nowhere stays nowhere, and so is in no result of
  // any run.
  lemma {:induction false} NowhereForGood(w: World, es: seq<MicroEvent>, r: Req)
    requires MicroInv(w) && MicroRunOk(w, es) && r.id in w.issued && Tokens(w, r) == 0
    ensures Tokens(MicroRun(w, es), r) == 0 && Won(MicroRun(w, es).results, r) == 0
    decreases |es|
  {
    if es != [] {
      TokensFall(w, es[0], r);
      MicroStepKeepsInv(w, es[0]);
      NowhereForGood(MicroStep(w, es[0]), es[1..], r);
    }
  }

  // ----- it does happen -----

  ghost predicate Reachable(w: World) {
    exists online, es :: MicroRunOk(EmptyWorld(online), es) && MicroRun(EmptyWorld(online), es) == w
  }

  lemma ReachableInv(w: World)
    requires Reachable(w)
    ensures MicroInv(w)
  {
    var online, es :| MicroRunOk(EmptyWorld(online), es) && MicroRun(EmptyWorld(online), es) == w;
    EmptyWorldInv(online);
    MicroRunKeepsInv(EmptyWorld(online), es);
  }

  lemma {:induction false} OneMore(w: World, es: seq<MicroEvent>, e: MicroEvent)
    requires MicroRunOk(w, es) && CanHappen(MicroRun(w, es), e)
    ensures MicroRunOk(w, es + [e]) && MicroRun(w, es + [e]) == MicroStep(MicroRun(w, es), e)
    decreases |es|
  {
    if es == [] {
      assert [] + [e] == [e];
      assert MicroRunOk(MicroStep(w, e), [e][1..]);
    } else {
      assert (es + [e])[0] == es[0] && (es + [e])[1..] == es[1..] + [e];
      OneMore(MicroStep(w, es[0]), es[1..], e);
    }
  }

  lemma Further(w: World, e: MicroEvent) returns (w': World)
    requires Reachable(w) && CanHappen(w, e)
    ensures w' == MicroStep(w, e) && Reachable(w')
  {
    var online, es :| MicroRunOk(EmptyWorld(online), es) && MicroRun(EmptyWorld(online), es) == w;
    OneMore(EmptyWorld(online), es, e);
    w' := MicroStep(w, e);
  }

  lemma StartIsReachable(online: Users)
    ensures Reachable(EmptyWorld(online))
  {
    assert MicroRunOk(EmptyWorld(online), []) && MicroRun(EmptyWorld(online), []) == EmptyWorld(online);
  }

  predicate NoCalls(w: World) {
    && w.asked == [] && w.held == [] && w.mapped == [] && w.marked == []
    && w.undoing == [] && w.erased == [] && w.resetting == []
  }

  lemma LastOne<T>(x: T)
    ensures Without([] + [x], 0) == [] && |[] + [x]| == 1 && ([] + [x])[0] == x
  {
  }

  function Mapping(w: World, r: Req): World {
    w.(reqs := w.reqs[r.user := Meta(TierOf(r.score), r.id, r.time)], lastReq := r.id,
      issued := w.issued[r.id := r], entered := w.entered + {r.id})
  }

  // Nobody disturbs the first half of an enqueue ...
  lemma HalfEnqueued(w: World, r: Req) returns (w': World)
    requires Reachable(w) && NoCalls(w) && StatusOf(w.online, r.user) == HallIdle && r.user !in w.reqs
    requires r.id == w.lastReq + 1 && !r.cancelled
    ensures Reachable(w') && w' == Mapping(w, r).(mapped := [r])
  {
    var w1 := Further(w, Asks(Ask(r.user, r.score)));
    LastOne(Ask(r.user, r.score));
    var w2 := Further(w1, Takes(0, r.time));
    LastOne(r);
    w' := Further(w2, Enters(0));
    assert [] + [r] == [r];
  }

  // ... and of its second half.
  lemma Enqueued(w: World, r: Req) returns (w': World)
    requires Reachable(w) && NoCalls(w) && StatusOf(w.online, r.user) == HallIdle && r.user !in w.reqs
    requires r.id == w.lastReq + 1 && !r.cancelled
    ensures Reachable(w')
    ensures
      var t := TierOf(r.score);
      w' == Mapping(w, r).(
        online := w.online[r.user := Matching], incoming := w.incoming[t := w.incoming[t] + [r]], accepted := w.accepted + {r.id})
  {
    var w1 := HalfEnqueued(w, r);
    LastOne(r);
    assert [] + [r] == [r];
    var w2 := Further(w1, Marks(0));
    w' := Further(w2, Pushes(0));
  }

  // A validation of a live request, undisturbed.
  lemma FoundValid(w: World, site: Site) returns (w': World)
    requires Reachable(w) && SiteOk(site) && (AtQueue(site) ==> w.pending[TierAt(site)] != [])
    requires w.pc == Checking(site, IfOnline) && Alive(w, Subject(w, site))
    ensures Reachable(w') && w' == OnValid(w, site, 0)
  {
    var w1 := Further(w, Thread(0));
    var w2 := Further(w1, Thread(0));
    w' := Further(w2, Thread(0));
    SameNext(w, w2, site);
  }

  lemma SameNext(w: World, w2: World, site: Site)
    requires SiteOk(site) && (AtQueue(site) ==> w.pending[TierAt(site)] != [])
    requires w2 == w.(pc := w2.pc)
    ensures OnValid(w2, site, 0) == OnValid(w, site, 0)
  {
  }

  const ONE := Req(1, 1000, 0, 1, false)
  const TWO := Req(2, 1000, 0, 2, false)

  // Two users have been accepted one after the other.
  predicate BothAccepted(w: World) {
    && NoCalls(w) && w.results == []
    && 1 in w.online && 2 in w.online && w.online[1] == Matching && w.online[2] == Matching
    && 1 in w.reqs && 2 in w.reqs && w.reqs[1].id == 1 && w.reqs[2].id == 2
    && 1 in w.issued && w.issued[1] == ONE && 2 in w.issued && w.issued[2] == TWO && 2 in w.accepted
  }

  lemma BothEnqueued() returns (w: World)
    ensures Reachable(w) && BothAccepted(w) && w.pc == Draining(0)
    ensures w.incoming == [[ONE, TWO], [], []] && w.pending == [[], [], []]
  {
    var start := EmptyWorld(map[1 := HallIdle, 2 := HallIdle]);
    StartIsReachable(start.online);
    var w1 := Enqueued(start, ONE);
    assert [] + [ONE] == [ONE] && [ONE] + [TWO] == [ONE, TWO];
    assert w1.incoming == [[ONE], [], []];
    w := Enqueued(w1, TWO);
    assert w.incoming == [[ONE, TWO], [], []];
  }

  // One request is drained, and all others stay where they are.
  lemma Drained(w: World, r: Req, rest: seq<Req>) returns (w': World)
    requires Reachable(w) && w.pc == Draining(0) && w.incoming[0] == [r] + rest
    ensures Reachable(w')
    ensures w' == w.(incoming := w.incoming[0 := rest], pending := w.pending[0 := w.pending[0] + [r]])
  {
    assert ([r] + rest)[1..] == rest;
    w' := Further(w, Thread(0));
  }

  lemma BothDrained() returns (w: World)
    ensures Reachable(w) && BothAccepted(w) && w.pc == Draining(0)
    ensures w.incoming == [[], [], []] && w.pending == [[ONE, TWO], [], []]
  {
    var w0 := BothEnqueued();
    assert [ONE, TWO] == [ONE] + [TWO] && [TWO] == [TWO] + [] && [] + [ONE] == [ONE];
    var w1 := Drained(w0, ONE, [TWO]);
    w := Drained(w1, TWO, []);
    assert w.incoming == [[], [], []] && w.pending == [[ONE, TWO], [], []];
  }

  lemma BothQueued() returns (w: World)
    ensures Reachable(w) && BothAccepted(w) && w.pc == Checking(Front1(0), IfOnline)
    ensures w.incoming == [[], [], []] && w.pending == [[ONE, TWO], [], []]
  {
    var w0 := BothDrained();
    var w1 := Further(w0, Thread(0));
    var w2 := Further(w1, Thread(0));
    w := Further(w2, Thread(0));
  }

  lemma BothInHand() returns (w: World)
    ensures Reachable(w) && BothAccepted(w) && w.pc == Checking(Again1(0, ONE, TWO), IfOnline)
    ensures w.incoming == [[], [], []] && w.pending == [[], [], []]
  {
    var w0 := BothQueued();
    var w1 := FoundValid(w0, Front1(0));
    assert w1.pending == [[TWO], [], []] && w1.pc == Checking(Front2(0, ONE), IfOnline);
    w := FoundValid(w1, Front2(0, ONE));
    assert [TWO][1..] == [];
    assert w.pending == [[], [], []];
  }

  // User 1 cancels between the two validations, and is told so and made idle;
  // user 2 stays marked as matching, with an entry in the map, but its request is
  // nowhere any more, and never will be.
  lemma SomebodyIsStranded() returns (w: World)
    ensures Reachable(w) && NoCalls(w) && StatusOf(w.online, 2) == Matching && 2 in w.reqs && w.reqs[2].id in w.issued
    ensures w.issued[w.reqs[2].id] == TWO && TWO.id in w.accepted && Tokens(w, TWO) == 0
    ensures forall es :: MicroRunOk(w, es) ==> Won(MicroRun(w, es).results, TWO) == 0
  {
    var w4 := SecondDropped();
    var w5 := Further(w4, Looks(0));
    assert w5.resetting == [1];
    w := Further(w5, Resets(0));
    ReachableInv(w);
    forall es | MicroRunOk(w, es)
      ensures Won(MicroRun(w, es).results, TWO) == 0
    {
      NowhereForGood(w, es, TWO);
    }
  }

  // Both calls of enqueue are over, and the cancel of user 1 has erased its entry.
  lemma SecondDropped() returns (w: World)
    ensures Reachable(w) && w.erased == [1] && w.undoing == [] && w.resetting == []
    ensures w.asked == [] && w.held == [] && w.mapped == [] && w.marked == []
    ensures 1 in w.online && 2 in w.online && w.online[2] == Matching
    ensures 2 in w.reqs && w.reqs[2].id == 2 && 2 in w.issued && w.issued[2] == TWO && 2 in w.accepted
    ensures Tokens(w, TWO) == 0
  {
    var w0 := BothInHand();
    var w1 := Further(w0, Erases(1));
    assert w1.erased == [1];
    assert w1.pc == w0.pc && 1 !in w1.reqs;
    var w2 := Further(w1, Thread(0));
    assert w2 == w1.(pc := Checking(Again1(0, ONE, TWO), Status));
    var w3 := Further(w2, Thread(0));
    assert w3 == w1.(pc := Checking(Again1(0, ONE, TWO), Entry));
    w := Further(w3, Thread(0));
    assert w == w1.(pc := Checking(Front1(0), IfOnline));
  }
}
