// Under interleaving a cancel can come too late: exactly when.
module MatchMicroCancels {
  import opened Basics
  import opened Online
  import opened MatchSpec
  import opened MatchMicro
  import opened MatchMicroProofs
  import opened MatchMicroTheorems

  // Some continuation puts r into a result.
  ghost predicate CanWin(w: World, r: Req) {
    exists es :: MicroRunOk(w, es) && Won(MicroRun(w, es).results, r) > 0
  }

  // The match thread will not look at the entry of r again: a match with r is
  // being made, or only the partner is still being validated, and the partner's
  // entry is there.
  predicate Committed(w: World, r: Req) {
    match w.pc
    case Draining(_) => false
    case Checking(site, _) => CommittedAt(w, site, r)
    case _ => w.pc.p1 == r || w.pc.p2 == r
  }

  predicate CommittedAt(w: World, site: Site, r: Req) {
    match site
    case Again2(_, first, second) => first == r && Says(w, Entry, second)
    case Cross2(_, p1, p2) => p1 == r && Says(w, Entry, p2)
    case _ => false
  }

  // ----- entries that are gone -----

  lemma StepIsFewerOrNew(w: World, e: MicroEvent)
    requires MicroInv(w) && CanHappen(w, e)
    ensures FewerOrNew(w, MicroStep(w, e))
  {
    match e {
      case Enters(i) =>
        TakenOut(w.held, i, w.held[i]);
        assert TokenOk(w, w.held[i]);
      case Thread(now) =>
        ThreadEntries(w, now);
        ThreadFrame(w, now);
      case _ =>
    }
  }

  // A request in hand without its entry has lost it for good.
  lemma HandIsGone(w: World, a: Req)
    requires MicroInv(w) && InHand(w.pc, a) > 0 && !Says(w, Entry, a)
    ensures Gone(w, a)
  {
    assert TokenOk(w, a);
  }

  // The other threads cannot make a match with r certain.
  lemma CallerCommitsNobody(w: World, w': World, r: Req)
    requires MicroInv(w) && FewerOrNew(w, w') && w'.pc == w.pc && !Committed(w, r)
    ensures !Committed(w', r)
  {
    if w.pc.Checking? && w.pc.site.Again2? && !Says(w, Entry, w.pc.site.second) {
      HandIsGone(w, w.pc.site.second);
      GoneStaysGone(w, w', w.pc.site.second);
    }
    if w.pc.Checking? && w.pc.site.Cross2? && !Says(w, Entry, w.pc.site.p2) {
      HandIsGone(w, w.pc.site.p2);
      GoneStaysGone(w, w', w.pc.site.p2);
    }
  }

  // Nor does a validation, since r fails the last read of its own.
  lemma ValidCommitsNobody(w: World, site: Site, now: Millis, r: Req)
    requires SiteOk(site) && (AtQueue(site) ==> w.pending[TierAt(site)] != [])
    requires Gone(w, r) && Says(w, Entry, Subject(w, site)) && !CommittedAt(w, site, r)
    ensures !Committed(OnValid(w, site, now), r)
  {
  }

  lemma InvalidCommitsNobody(w: World, site: Site, r: Req)
    requires SiteOk(site) && (AtQueue(site) ==> w.pending[TierAt(site)] != [])
    requires !Says(w, Entry, Subject(w, site)) || !CommittedAt(w, site, r)
    ensures !Committed(OnInvalid(w, site), r)
  {
  }

  lemma CheckCommitsNobody(w: World, site: Site, read: Read, now: Millis, r: Req)
    requires SiteOk(site) && Gone(w, r) && !CommittedAt(w, site, r)
    ensures !Committed(CheckStep(w, site, read, now), r)
  {
    if AtQueue(site) && w.pending[TierAt(site)] == [] {
    } else if !Says(w, read, Subject(w, site)) {
      InvalidCommitsNobody(w, site, r);
    } else if read == Entry {
      ValidCommitsNobody(w, site, now, r);
    }
  }

  lemma ThreadCommitsNobody(w: World, now: Millis, r: Req)
    requires MicroInv(w) && Gone(w, r) && !Committed(w, r) && Won(w.results, r) == 0
    ensures !Committed(ThreadStep(w, now), r) && Won(ThreadStep(w, now).results, r) == 0
  {
    match w.pc {
      case Draining(t) =>
      case Checking(site, read) =>
        CheckCommitsNobody(w, site, read, now, r);
        CheckFrame(w, site, read, now);
      case Emitting(p1, p2, back) => OneMoreResult(w.results, Pairing(w.lastRoom + 1, p1, p2), r);
      case _ =>
    }
  }

  lemma StepCommitsNobody(w: World, e: MicroEvent, r: Req)
    requires MicroInv(w) && CanHappen(w, e) && Gone(w, r) && !Committed(w, r) && Won(w.results, r) == 0
    ensures
      var w' := MicroStep(w, e);
      Gone(w', r) && !Committed(w', r) && Won(w'.results, r) == 0
  {
    StepIsFewerOrNew(w, e);
    GoneStaysGone(w, MicroStep(w, e), r);
    if e.Thread? {
      ThreadCommitsNobody(w, e.now, r);
    } else {
      CallerCommitsNobody(w, MicroStep(w, e), r);
    }
  }

  lemma {:induction false} RunWinsNothing(w: World, es: seq<MicroEvent>, r: Req)
    requires MicroInv(w) && MicroRunOk(w, es) && Gone(w, r) && !Committed(w, r) && Won(w.results, r) == 0
    ensures Won(MicroRun(w, es).results, r) == 0
    decreases |es|
  {
    if es != [] {
      MicroStepKeepsInv(w, es[0]);
      StepCommitsNobody(w, es[0], r);
      RunWinsNothing(MicroStep(w, es[0]), es[1..], r);
    }
  }

  // ----- a committed match is made -----

  lemma OneStepEarlier(w: World, e: MicroEvent, r: Req)
    requires CanHappen(w, e) && CanWin(MicroStep(w, e), r)
    ensures CanWin(w, r)
  {
    var w1 := MicroStep(w, e);
    var es :| MicroRunOk(w1, es) && Won(MicroRun(w1, es).results, r) > 0;
    assert ([e] + es)[1..] == es;
    assert MicroRunOk(w, [e] + es) && MicroRun(w, [e] + es) == MicroRun(w1, es);
  }

  lemma EmittingWins(w: World, r: Req)
    requires PcOk(w.pc) && w.pc.Emitting? && Committed(w, r)
    ensures CanWin(w, r)
  {
    var w1 := ThreadStep(w, 0);
    OneMoreResult(w.results, Pairing(w.lastRoom + 1, w.pc.p1, w.pc.p2), r);
    assert MicroRunOk(w1, []) && Won(MicroRun(w1, []).results, r) > 0;
    OneStepEarlier(w, Thread(0), r);
  }

  lemma SettingWins(w: World, r: Req)
    requires PcOk(w.pc) && (w.pc.Setting1? || w.pc.Setting2?) && Committed(w, r)
    ensures CanWin(w, r)
  {
    if w.pc.Setting2? {
      EmittingWins(ThreadStep(w, 0), r);
    } else {
      EmittingWins(ThreadStep(ThreadStep(w, 0), 0), r);
      OneStepEarlier(ThreadStep(w, 0), Thread(0), r);
    }
    OneStepEarlier(w, Thread(0), r);
  }

  lemma MakingWins(w: World, r: Req)
    requires PcOk(w.pc) && !w.pc.Checking? && Committed(w, r)
    ensures CanWin(w, r)
  {
    if w.pc.Erasing? {
      SettingWins(ThreadStep(w, 0), r);
      OneStepEarlier(w, Thread(0), r);
    } else if w.pc.Emitting? {
      EmittingWins(w, r);
    } else {
      SettingWins(w, r);
    }
  }

  // The last validation succeeds if the partner is online and matching.
  lemma LastCheckWins(w: World, r: Req)
    requires PcOk(w.pc) && w.pc.Checking? && Committed(w, r) && Alive(w, Subject(w, w.pc.site))
    ensures CanWin(w, r)
    decreases match w.pc.read case IfOnline => 2 case Status => 1 case Entry => 0
  {
    var w1 := ThreadStep(w, 0);
    match w.pc.read {
      case Entry => MakingWins(w1, r);
      case _ => LastCheckWins(w1, r);
    }
    OneStepEarlier(w, Thread(0), r);
  }

  lemma CommittedWins(w: World, r: Req)
    requires MicroInv(w) && Committed(w, r)
    ensures CanWin(w, r)
  {
    if w.pc.Checking? {
      var partner := Subject(w, w.pc.site);
      assert TokenOk(w, partner);
      assert Issued(w.issued, partner);
      var online := w.online[partner.user := Matching];
      LastCheckWins(MicroStep(w, Others(online)), r);
      OneStepEarlier(w, Others(online), r);
    } else {
      MakingWins(w, r);
    }
  }

  // ----- the exact condition -----

  // A request whose entry is gone, and that is in no result yet, can still get
  // into one if and only if the match thread is committed to it.
  lemma GoneIsMatchedIff(w: World, r: Req)
    requires MicroInv(w) && Gone(w, r) && Won(w.results, r) == 0
    ensures CanWin(w, r) <==> Committed(w, r)
  {
    if Committed(w, r) {
      CommittedWins(w, r);
    } else {
      forall es | MicroRunOk(w, es)
        ensures Won(MicroRun(w, es).results, r) == 0
      {
        RunWinsNothing(w, es, r);
      }
    }
  }

  // The entries of the two in hand have been erased.
  predicate BeyondErasing(pc: Pc, r: Req) {
    (pc.Setting1? || pc.Setting2? || pc.Emitting?) && (pc.p1 == r || pc.p2 == r)
  }

  // Whoever was matched, or is about to be emitted, has no entry of that request.
  predicate WonIsGone(w: World, r: Req) {
    Won(w.results, r) > 0 || BeyondErasing(w.pc, r) ==> Gone(w, r)
  }

  lemma CheckErasesNothing(w: World, site: Site, read: Read, now: Millis, r: Req)
    requires SiteOk(site)
    ensures !BeyondErasing(CheckStep(w, site, read, now).pc, r)
  {
  }

  lemma ErasingMakesGone(w: World, now: Millis, r: Req)
    requires MicroInv(w) && w.pc.Erasing? && (w.pc.p1 == r || w.pc.p2 == r)
    ensures Gone(ThreadStep(w, now), r)
  {
    assert TokenOk(w, r);
  }

  lemma ThreadWonIsGone(w: World, now: Millis, r: Req)
    requires MicroInv(w) && WonIsGone(w, r) && FewerOrNew(w, ThreadStep(w, now))
    ensures WonIsGone(ThreadStep(w, now), r)
  {
    var w' := ThreadStep(w, now);
    if Gone(w, r) {
      GoneStaysGone(w, w', r);
    } else if w.pc.Checking? {
      CheckErasesNothing(w, w.pc.site, w.pc.read, now, r);
      CheckFrame(w, w.pc.site, w.pc.read, now);
    } else if w.pc.Erasing? && (w.pc.p1 == r || w.pc.p2 == r) {
      ErasingMakesGone(w, now, r);
    } else if w.pc.Emitting? {
      OneMoreResult(w.results, Pairing(w.lastRoom + 1, w.pc.p1, w.pc.p2), r);
    }
  }

  lemma {:induction false} RunWonIsGone(w: World, es: seq<MicroEvent>, r: Req)
    requires MicroInv(w) && MicroRunOk(w, es) && WonIsGone(w, r)
    ensures MicroInv(MicroRun(w, es)) && WonIsGone(MicroRun(w, es), r)
    decreases |es|
  {
    if es != [] {
      var e := es[0];
      MicroStepKeepsInv(w, e);
      StepIsFewerOrNew(w, e);
      if e.Thread? {
        ThreadWonIsGone(w, e.now, r);
      }
      RunWonIsGone(MicroStep(w, e), es[1..], r);
    }
  }

  // A cancel that finds the entry, and so answers true, comes too late if and
  // only if the match thread is committed to the request at that moment.
  lemma CancelIsTooLateIff(online: Users, es: seq<MicroEvent>, u: UserId)
    requires MicroRunOk(EmptyWorld(online), es) && u in MicroRun(EmptyWorld(online), es).reqs
    ensures
      var w := MicroRun(EmptyWorld(online), es);
      && w.reqs[u].id in w.issued
      && var r := w.issued[w.reqs[u].id];
      && r.user == u && (CanWin(EraseStep(w, u), r) <==> Committed(w, r))
  {
    var w := MicroRun(EmptyWorld(online), es);
    EmptyWorldInv(online);
    MicroRunKeepsInv(EmptyWorld(online), es);
    assert EntryKnown(w, u);
    var r := w.issued[w.reqs[u].id];
    RunWonIsGone(EmptyWorld(online), es, r);
    MicroStepKeepsInv(w, Erases(u));
    GoneIsMatchedIff(EraseStep(w, u), r);
    ErasingChangesNothing(w, u, r);
  }

  // Erasing the entry of r leaves the partner's entry alone.
  lemma ErasingChangesNothing(w: World, u: UserId, r: Req)
    requires MicroInv(w) && r.user == u
    ensures Committed(EraseStep(w, u), r) <==> Committed(w, r)
  {
  }

  // It does come too late: user 1 cancels while its partner is validated once
  // more, is told yes, and is matched all the same.
  lemma SomebodyIsMatchedAfterCancelling() returns (w: World)
    ensures Reachable(w) && 1 in w.reqs && w.reqs[1].id in w.issued && w.issued[w.reqs[1].id] == ONE
    ensures EraseStep(w, 1).erased == w.erased + [1] && 1 !in EraseStep(w, 1).reqs
    ensures CanWin(EraseStep(w, 1), ONE)
  {
    var w0 := BothInHand();
    w := FoundValid(w0, Again1(0, ONE, TWO));
    ReachableInv(w);
    ErasingChangesNothing(w, 1, ONE);
    MicroStepKeepsInv(w, Erases(1));
    CommittedWins(EraseStep(w, 1), ONE);
  }
}
