// The two models of the matchmaker agree: a turn of the match thread that nobody
// disturbs does, step by step, what one body of the loop does at once.
module MatchMicroTurns {
  import opened Online
  import opened MatchSpec
  import opened MatchProofs
  import opened MatchLoopProofs
  import opened MatchPasses
  import opened MatchMicro
  import opened MatchMicroTheorems

  // The world w with the match thread at pc and the matchmaker as m says.
  function In(w: World, m: MState, pc: Pc): World {
    w.(online := m.online, reqs := m.reqs, incoming := m.incoming, pending := m.pending,
      lastRoom := m.lastRoom, results := m.results, pc := pc)
  }

  // Steps of the match thread alone, at one reading of the clock.
  ghost predicate Alone(es: seq<MicroEvent>, now: Millis) {
    forall k :: 0 <= k < |es| ==> es[k] == Thread(now)
  }

  ghost predicate Runs(w: World, es: seq<MicroEvent>, w': World, now: Millis) {
    Alone(es, now) && MicroRunOk(w, es) && MicroRun(w, es) == w'
  }

  ghost predicate Leads(w: World, w': World, now: Millis) {
    exists es :: Runs(w, es, w', now)
  }

  // ----- putting steps together -----

  lemma {:induction false} Joins(w: World, es: seq<MicroEvent>, fs: seq<MicroEvent>)
    requires MicroRunOk(w, es) && MicroRunOk(MicroRun(w, es), fs)
    ensures MicroRunOk(w, es + fs) && MicroRun(w, es + fs) == MicroRun(MicroRun(w, es), fs)
    decreases |es|
  {
    if es == [] {
      assert [] + fs == fs;
    } else {
      assert (es + fs)[0] == es[0] && (es + fs)[1..] == es[1..] + fs;
      Joins(MicroStep(w, es[0]), es[1..], fs);
    }
  }

  lemma Via(w: World, w1: World, w2: World, now: Millis)
    requires Leads(w, w1, now) && Leads(w1, w2, now)
    ensures Leads(w, w2, now)
  {
    var es :| Runs(w, es, w1, now);
    var fs :| Runs(w1, fs, w2, now);
    Joins(w, es, fs);
    assert Runs(w, es + fs, w2, now);
  }

  lemma Stays(w: World, now: Millis)
    ensures Leads(w, w, now)
  {
    assert Runs(w, [], w, now);
  }

  lemma Goes(w: World, now: Millis)
    requires PcOk(w.pc)
    ensures Leads(w, ThreadStep(w, now), now)
  {
    var es := [Thread(now)];
    assert es[1..] == [] && MicroRunOk(ThreadStep(w, now), es[1..]);
    assert Runs(w, es, ThreadStep(w, now), now);
  }

  // ----- one validation -----

  lemma LiveIsAlive(w: World, m: MState, pc: Pc, r: Req)
    ensures Alive(In(w, m, pc), r) <==> IsLive(m, r)
  {
  }

  lemma ReadOn(w: World, site: Site, read: Read, next: Read, now: Millis)
    requires SiteOk(site) && (AtQueue(site) ==> w.pending[TierAt(site)] != []) && w.pc == Checking(site, read)
    requires Says(w, read, Subject(w, site))
    requires (read == IfOnline && next == Status) || (read == Status && next == Entry)
    ensures Leads(w, w.(pc := Checking(site, next)), now)
  {
    Goes(w, now);
  }

  lemma ReadsUntil(w: World, site: Site, now: Millis)
    requires SiteOk(site) && (AtQueue(site) ==> w.pending[TierAt(site)] != []) && w.pc == Checking(site, IfOnline)
    requires Says(w, IfOnline, Subject(w, site)) && Says(w, Status, Subject(w, site))
    ensures Leads(w, w.(pc := Checking(site, Entry)), now)
  {
    var w1 := w.(pc := Checking(site, Status));
    ReadOn(w, site, IfOnline, Status, now);
    ReadOn(w1, site, Status, Entry, now);
    Via(w, w1, w.(pc := Checking(site, Entry)), now);
  }

  lemma Validates(w: World, site: Site, now: Millis)
    requires SiteOk(site) && (AtQueue(site) ==> w.pending[TierAt(site)] != []) && w.pc == Checking(site, IfOnline)
    requires Alive(w, Subject(w, site))
    ensures Leads(w, OnValid(w, site, now), now)
  {
    var w2 := w.(pc := Checking(site, Entry));
    ReadsUntil(w, site, now);
    Goes(w2, now);
    ValidWherever(w, w2, site, now);
    Via(w, w2, OnValid(w, site, now), now);
  }

  lemma ValidWherever(w: World, w2: World, site: Site, now: Millis)
    requires SiteOk(site) && (AtQueue(site) ==> w.pending[TierAt(site)] != []) && w2 == w.(pc := w2.pc)
    ensures OnValid(w2, site, now) == OnValid(w, site, now)
  {
  }

  lemma InvalidWherever(w: World, w2: World, site: Site)
    requires SiteOk(site) && (AtQueue(site) ==> w.pending[TierAt(site)] != []) && w2 == w.(pc := w2.pc)
    ensures OnInvalid(w2, site) == OnInvalid(w, site)
  {
  }

  lemma Rejects(w: World, site: Site, now: Millis)
    requires SiteOk(site) && (AtQueue(site) ==> w.pending[TierAt(site)] != []) && w.pc == Checking(site, IfOnline)
    requires !Alive(w, Subject(w, site))
    ensures Leads(w, OnInvalid(w, site), now)
  {
    var r := Subject(w, site);
    if !Says(w, IfOnline, r) {
      Goes(w, now);
    } else if !Says(w, Status, r) {
      var w1 := w.(pc := Checking(site, Status));
      ReadOn(w, site, IfOnline, Status, now);
      Goes(w1, now);
      InvalidWherever(w, w1, site);
      Via(w, w1, OnInvalid(w, site), now);
    } else {
      var w2 := w.(pc := Checking(site, Entry));
      ReadsUntil(w, site, now);
      Goes(w2, now);
      InvalidWherever(w, w2, site);
      Via(w, w2, OnInvalid(w, site), now);
    }
  }

  // ----- the discarding loop -----

  function Trimmed(m: MState, t: nat): MState
    requires t < TIERS
  {
    m.(pending := m.pending[t := DropDead(m, m.pending[t])])
  }

  lemma {:induction false} Discards(w: World, m: MState, site: Site, now: Millis)
    requires SiteOk(site) && AtQueue(site)
    ensures Leads(In(w, m, Checking(site, IfOnline)), In(w, Trimmed(m, TierAt(site)), Checking(site, IfOnline)), now)
    decreases |m.pending[TierAt(site)]|
  {
    var t, pc := TierAt(site), Checking(site, IfOnline);
    var q, w1 := m.pending[t], In(w, m, pc);
    if q == [] || IsLive(m, q[0]) {
      assert m.pending[t := q] == m.pending;
      Stays(w1, now);
    } else {
      LiveIsAlive(w, m, pc, q[0]);
      Rejects(w1, site, now);
      var m2 := m.(pending := m.pending[t := q[1..]]);
      assert OnInvalid(w1, site) == In(w, m2, pc);
      Discards(w, m2, site, now);
      SameDrop(m, m2, q[1..]);
      assert Trimmed(m2, t).pending == Trimmed(m, t).pending;
      Via(w1, In(w, m2, pc), In(w, Trimmed(m, t), pc), now);
    }
  }

  // ----- making a match -----

  lemma MakesMatch(w: World, m: MState, p1: Req, p2: Req, back: Site, now: Millis)
    requires PcOk(Erasing(p1, p2, back))
    ensures Leads(In(w, m, Erasing(p1, p2, back)), In(w, Finalize(m, p1, p2), Resume(back)), now)
  {
    var m1 := m.(reqs := m.reqs - {p1.user} - {p2.user});
    var m2 := m1.(online := WithStatus(m1.online, p1.user, InRoom));
    var m3 := m2.(online := WithStatus(m2.online, p2.user, InRoom));
    var w0 := In(w, m, Erasing(p1, p2, back));
    var w1 := In(w, m1, Setting1(p1, p2, back));
    var w2 := In(w, m2, Setting2(p1, p2, back));
    var w3 := In(w, m3, Emitting(p1, p2, back));
    var w4 := In(w, Finalize(m, p1, p2), Resume(back));
    Goes(w0, now);
    Goes(w1, now);
    Goes(w2, now);
    Goes(w3, now);
    Via(w0, w1, w2, now);
    Via(w0, w2, w3, now);
    Via(w0, w3, w4, now);
  }

  // ----- a pass within a tier -----

  // Both in hand are found valid once more and matched.
  lemma MatchesPair(w: World, m: MState, t: nat, first: Req, second: Req, now: Millis)
    requires t < TIERS && IsLive(m, first) && IsLive(m, second)
    ensures Leads(In(w, m, Checking(Again1(t, first, second), IfOnline)),
      In(w, Finalize(m, first, second), Checking(Front1(t), IfOnline)), now)
  {
    var w0 := In(w, m, Checking(Again1(t, first, second), IfOnline));
    var w1 := In(w, m, Checking(Again2(t, first, second), IfOnline));
    var w2 := In(w, m, Erasing(first, second, Front1(t)));
    var w3 := In(w, Finalize(m, first, second), Checking(Front1(t), IfOnline));
    Validates(w0, Again1(t, first, second), now);
    Validates(w1, Again2(t, first, second), now);
    MakesMatch(w, m, first, second, Front1(t), now);
    Via(w0, w1, w2, now);
    Via(w0, w2, w3, now);
  }

  // The live front is taken, and the dead ones behind it are dropped.
  lemma TakesFirst(w: World, m: MState, t: nat, now: Millis)
    requires t < TIERS && |m.pending[t]| >= 2 && IsLive(m, m.pending[t][0])
    ensures
      var m' := m.(pending := m.pending[t := Rest(m, t)]);
      Leads(In(w, m, Checking(Front1(t), IfOnline)), In(w, m', Checking(Front2(t, m.pending[t][0]), IfOnline)), now)
  {
    var first := m.pending[t][0];
    var m1 := m.(pending := m.pending[t := m.pending[t][1..]]);
    var w0 := In(w, m, Checking(Front1(t), IfOnline));
    var w1 := In(w, m1, Checking(Front2(t, first), IfOnline));
    Validates(w0, Front1(t), now);
    Discards(w, m1, Front2(t, first), now);
    SameDrop(m, m1, m.pending[t][1..]);
    var m2 := m.(pending := m.pending[t := Rest(m, t)]);
    assert Trimmed(m1, t).pending == m2.pending;
    Via(w0, w1, In(w, m2, Checking(Front2(t, first), IfOnline)), now);
  }

  // The next live request is taken too, and the two are matched.
  lemma TakesSecond(w: World, m: MState, t: nat, now: Millis)
    requires t < TIERS && |m.pending[t]| >= 2 && IsLive(m, m.pending[t][0]) && Rest(m, t) != [] && IsLive(m, Rest(m, t)[0])
    ensures
      var m' := m.(pending := m.pending[t := Rest(m, t)]);
      Leads(In(w, m', Checking(Front2(t, m.pending[t][0]), IfOnline)), In(w, AfterPair(m, t), Checking(Front1(t), IfOnline)), now)
  {
    var first, second := m.pending[t][0], Rest(m, t)[0];
    var m1 := m.(pending := m.pending[t := Rest(m, t)]);
    var m2 := m.(pending := m.pending[t := Rest(m, t)[1..]]);
    var w0 := In(w, m1, Checking(Front2(t, first), IfOnline));
    var w1 := In(w, m2, Checking(Again1(t, first, second), IfOnline));
    Validates(w0, Front2(t, first), now);
    assert m1.pending[t := Rest(m, t)[1..]] == m2.pending;
    assert OnValid(w0, Front2(t, first), now) == w1;
    MatchesPair(w, m2, t, first, second, now);
    Via(w0, w1, In(w, AfterPair(m, t), Checking(Front1(t), IfOnline)), now);
  }

  // There is no other live request: the first one is put back.
  lemma PutsBack(w: World, m: MState, t: nat, now: Millis)
    requires t < TIERS && |m.pending[t]| >= 2 && IsLive(m, m.pending[t][0]) && Rest(m, t) == []
    ensures
      var m' := m.(pending := m.pending[t := [m.pending[t][0]]]);
      Leads(In(w, m, Checking(Front1(t), IfOnline)), In(w, m', AfterSame(t)), now)
  {
    var first := m.pending[t][0];
    var m1 := m.(pending := m.pending[t := Rest(m, t)]);
    var w1 := In(w, m1, Checking(Front2(t, first), IfOnline));
    var w2 := In(w, m.(pending := m.pending[t := [first]]), AfterSame(t));
    TakesFirst(w, m, t, now);
    Goes(w1, now);
    assert [first] + [] == [first];
    assert m1.pending[t := [first]] == m.pending[t := [first]];
    assert ThreadStep(w1, now) == w2;
    Via(In(w, m, Checking(Front1(t), IfOnline)), w1, w2, now);
  }

  // A queue without a second request ends the pass.
  lemma EndsPass(w: World, m: MState, t: nat, now: Millis)
    requires t < TIERS && |m.pending[t]| <= 1 && (m.pending[t] != [] ==> IsLive(m, m.pending[t][0]))
    ensures Leads(In(w, m, Checking(Front1(t), IfOnline)), In(w, m, AfterSame(t)), now)
  {
    var w0 := In(w, m, Checking(Front1(t), IfOnline));
    if m.pending[t] == [] {
      Goes(w0, now);
    } else {
      Validates(w0, Front1(t), now);
    }
  }

  lemma {:induction false} PassTurn(w: World, m: MState, t: nat, now: Millis)
    requires MatchInv(m) && t < TIERS
    ensures Leads(In(w, m, Checking(Front1(t), IfOnline)), In(w, SameTier(m, t), AfterSame(t)), now)
    decreases |m.pending[t]|
  {
    var w0, m1 := In(w, m, Checking(Front1(t), IfOnline)), Trimmed(m, t);
    var w1, end := In(w, m1, Checking(Front1(t), IfOnline)), In(w, SameTier(m, t), AfterSame(t));
    Discards(w, m, Front1(t), now);
    DropIsHarmless(m, t);
    if |m1.pending[t]| <= 1 {
      ShortQueueIsDone(m1, t);
      EndsPass(w, m1, t, now);
    } else {
      NextPair(m1, t);
      if Rest(m1, t) == [] {
        PutsBack(w, m1, t, now);
      } else {
        var m2 := m1.(pending := m1.pending[t := Rest(m1, t)]);
        var w2 := In(w, m2, Checking(Front2(t, m1.pending[t][0]), IfOnline));
        var w3 := In(w, AfterPair(m1, t), Checking(Front1(t), IfOnline));
        TakesFirst(w, m1, t, now);
        TakesSecond(w, m1, t, now);
        PassTurn(w, AfterPair(m1, t), t, now);
        Via(w1, w2, w3, now);
        Via(w1, w3, end, now);
      }
    }
    Via(w0, w1, end, now);
  }

  // ----- a pass across two tiers -----

  // Left and right are rid of their dead fronts.
  lemma TrimsBoth(w: World, m: MState, t: nat, now: Millis)
    requires t < TIERS - 1
    ensures
      var m' := m.(pending := m.pending[t := DropDead(m, m.pending[t])][t + 1 := DropDead(m, m.pending[t + 1])]);
      Leads(In(w, m, Checking(Left(t), IfOnline)), In(w, m', Checking(Right(t), IfOnline)), now)
  {
    var m1 := Trimmed(m, t);
    var m2 := Trimmed(m1, t + 1);
    var w0 := In(w, m, Checking(Left(t), IfOnline));
    var w1 := In(w, m1, Checking(Left(t), IfOnline));
    var w2 := In(w, m1, Checking(Right(t), IfOnline));
    var w3 := In(w, m2, Checking(Right(t), IfOnline));
    Discards(w, m, Left(t), now);
    DropKeepsLive(m, m.pending[t]);
    if m1.pending[t] == [] {
      Goes(w1, now);
    } else {
      Validates(w1, Left(t), now);
    }
    Discards(w, m1, Right(t), now);
    SameDrop(m, m1, m.pending[t + 1]);
    Via(w0, w1, w2, now);
    Via(w0, w2, w3, now);
  }

  // Both in hand are found valid once more and matched.
  lemma MatchesAcross(w: World, m: MState, t: nat, p1: Req, p2: Req, now: Millis)
    requires t < TIERS - 1 && IsLive(m, p1) && IsLive(m, p2)
    ensures Leads(In(w, m, Checking(Cross1(t, p1, p2), IfOnline)), In(w, Finalize(m, p1, p2), AfterCross(t)), now)
  {
    var w1 := In(w, m, Checking(Cross1(t, p1, p2), IfOnline));
    var w2 := In(w, m, Checking(Cross2(t, p1, p2), IfOnline));
    var w3 := In(w, m, Erasing(p1, p2, Left(t)));
    var w4 := In(w, Finalize(m, p1, p2), AfterCross(t));
    Validates(w1, Cross1(t, p1, p2), now);
    Validates(w2, Cross2(t, p1, p2), now);
    MakesMatch(w, m, p1, p2, Left(t), now);
    Via(w1, w2, w3, now);
    Via(w1, w3, w4, now);
  }

  lemma MatchesFronts(w: World, m: MState, t: nat, now: Millis)
    requires t < TIERS - 1 && m.pending[t] != [] && m.pending[t + 1] != []
    requires IsLive(m, m.pending[t][0]) && IsLive(m, m.pending[t + 1][0])
    requires Waited(m.pending[t][0], now) || Waited(m.pending[t + 1][0], now)
    ensures
      var p1, p2 := m.pending[t][0], m.pending[t + 1][0];
      var m' := m.(pending := m.pending[t := m.pending[t][1..]][t + 1 := m.pending[t + 1][1..]]);
      Leads(In(w, m, Checking(Right(t), IfOnline)), In(w, Finalize(m', p1, p2), AfterCross(t)), now)
  {
    var p1, p2 := m.pending[t][0], m.pending[t + 1][0];
    var m1 := m.(pending := m.pending[t := m.pending[t][1..]][t + 1 := m.pending[t + 1][1..]]);
    var w0 := In(w, m, Checking(Right(t), IfOnline));
    var w1 := In(w, m1, Checking(Cross1(t, p1, p2), IfOnline));
    Validates(w0, Right(t), now);
    assert OnValid(w0, Right(t), now) == w1;
    MatchesAcross(w, m1, t, p1, p2, now);
    Via(w0, w1, In(w, Finalize(m1, p1, p2), AfterCross(t)), now);
  }

  // No match across: one queue is empty, or nobody has waited.
  lemma LeavesFronts(w: World, m: MState, t: nat, now: Millis)
    requires t < TIERS - 1 && (m.pending[t + 1] != [] ==> IsLive(m, m.pending[t + 1][0]))
    requires m.pending[t] == [] || m.pending[t + 1] == [] || !(Waited(m.pending[t][0], now) || Waited(m.pending[t + 1][0], now))
    ensures Leads(In(w, m, Checking(Right(t), IfOnline)), In(w, m, AfterCross(t)), now)
  {
    var w0 := In(w, m, Checking(Right(t), IfOnline));
    if m.pending[t + 1] == [] {
      Goes(w0, now);
    } else {
      Validates(w0, Right(t), now);
    }
  }

  lemma CrossTurn(w: World, m: MState, t: nat, now: Millis)
    requires t < TIERS - 1
    ensures Leads(In(w, m, Checking(Left(t), IfOnline)), In(w, CrossTier(m, t, now), AfterCross(t)), now)
  {
    var left, right := DropDead(m, m.pending[t]), DropDead(m, m.pending[t + 1]);
    var m1 := m.(pending := m.pending[t := left][t + 1 := right]);
    TrimsBoth(w, m, t, now);
    DropKeepsLive(m, m.pending[t]);
    DropKeepsLive(m, m.pending[t + 1]);
    if left == [] || right == [] || !(Waited(left[0], now) || Waited(right[0], now)) {
      LeavesFronts(w, m1, t, now);
    } else {
      MatchesFronts(w, m1, t, now);
      assert m1.pending[t := left[1..]][t + 1 := right[1..]] == m.pending[t := left[1..]][t + 1 := right[1..]];
    }
    Via(In(w, m, Checking(Left(t), IfOnline)), In(w, m1, Checking(Right(t), IfOnline)), In(w, CrossTier(m, t, now), AfterCross(t)), now);
  }

  // ----- draining -----

  function DrainOne(m: MState, t: nat): MState
    requires t < TIERS
  {
    m.(incoming := m.incoming[t := []], pending := m.pending[t := m.pending[t] + m.incoming[t]])
  }

  function AfterDrain(t: nat): Pc {
    if t < 2 then Draining(t + 1) else Checking(Front1(0), IfOnline)
  }

  lemma {:induction false} DrainTurn(w: World, m: MState, t: nat, now: Millis)
    requires t < TIERS
    ensures Leads(In(w, m, Draining(t)), In(w, DrainOne(m, t), AfterDrain(t)), now)
    decreases |m.incoming[t]|
  {
    var w0 := In(w, m, Draining(t));
    Goes(w0, now);
    if m.incoming[t] == [] {
      assert m.incoming[t := []] == m.incoming && m.pending[t] + [] == m.pending[t];
      assert m.pending[t := m.pending[t]] == m.pending;
    } else {
      var r, rest := m.incoming[t][0], m.incoming[t][1..];
      var m1 := m.(incoming := m.incoming[t := rest], pending := m.pending[t := m.pending[t] + [r]]);
      DrainTurn(w, m1, t, now);
      assert (m.pending[t] + [r]) + rest == m.pending[t] + m.incoming[t];
      assert DrainOne(m1, t).pending == DrainOne(m, t).pending && DrainOne(m1, t).incoming == DrainOne(m, t).incoming;
      Via(w0, In(w, m1, Draining(t)), In(w, DrainOne(m, t), AfterDrain(t)), now);
    }
  }

  lemma DrainsAll(w: World, m: MState, now: Millis)
    ensures Leads(In(w, m, Draining(0)), In(w, Drain(m), Checking(Front1(0), IfOnline)), now)
  {
    var m1 := DrainOne(m, 0);
    var m2 := DrainOne(m1, 1);
    var m3 := DrainOne(m2, 2);
    DrainTurn(w, m, 0, now);
    DrainTurn(w, m1, 1, now);
    DrainTurn(w, m2, 2, now);
    assert m3.incoming == [[], [], []] && m3.pending == Drain(m).pending;
    Via(In(w, m, Draining(0)), In(w, m1, Draining(1)), In(w, m2, Draining(2)), now);
    Via(In(w, m, Draining(0)), In(w, m2, Draining(2)), In(w, Drain(m), Checking(Front1(0), IfOnline)), now);
  }

  // ----- the whole turn -----

  lemma PassesTurn(w: World, m: MState, now: Millis)
    requires MatchInv(m)
    ensures MatchInv(SameTiers(m))
    ensures Leads(In(w, m, Draining(0)), In(w, SameTiers(m), Checking(Left(0), IfOnline)), now)
  {
    var a := Drain(m);
    var b := SameTier(a, 0);
    var c := SameTier(b, 1);
    var w0 := In(w, m, Draining(0));
    var w1, w2 := In(w, a, Checking(Front1(0), IfOnline)), In(w, b, Checking(Front1(1), IfOnline));
    var w3, w4 := In(w, c, Checking(Front1(2), IfOnline)), In(w, SameTiers(m), Checking(Left(0), IfOnline));
    DrainKeepsInv(m);
    SameTierKeepsInv(a, 0);
    SameTierKeepsInv(b, 1);
    SameTierKeepsInv(c, 2);
    DrainsAll(w, m, now);
    PassTurn(w, a, 0, now);
    PassTurn(w, b, 1, now);
    PassTurn(w, c, 2, now);
    Via(w0, w1, w2, now);
    Via(w0, w2, w3, now);
    Via(w0, w3, w4, now);
  }

  // From the start of a turn to the start of the next one, with nobody else
  // moving, the match thread does exactly what the loop body does; the clock
  // changes at most once, between the two passes across tiers.
  lemma UndisturbedTurn(w: World, m: MState, now0: Millis, now1: Millis)
    requires MatchInv(m) && w == In(w, m, Draining(0))
    ensures exists half ::
      && Leads(w, half, now0)
      && Leads(half, In(w, LoopBody(m, now0, now1), Draining(0)), now1)
  {
    var d := SameTiers(m);
    var e := CrossTier(d, 0, now0);
    var half := In(w, e, Checking(Left(1), IfOnline));
    PassesTurn(w, m, now0);
    CrossTurn(w, d, 0, now0);
    Via(w, In(w, d, Checking(Left(0), IfOnline)), half, now0);
    CrossTurn(w, e, 1, now1);
  }
}
