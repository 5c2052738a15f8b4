/** The game loop of src/game/main.js: the restart handler, starting from the menu, the
    Enter/Space listener, and the gameplay part of `update(t, dt)`: record a path sample,
    drive the snow spray and the skier, count down the gate flashes, then referee the tick
    in a fixed order (tree, gates, logs, coins, finish line), leaving at the first event
    that ends the run; a tick that does not end the run removes the coins collected and
    moves the ghost of the best run one frame on. Rendering, audio, the camera and the
    coin spin are not modelled. */
module Game {
  import opened Core
  import opened Course
  import opened Collision
  import opened Skier
  import opened Run
  import Particles

  // ---------------------------------------------------------------- configuration

  /** The options main.js gives the skier controller. */
  const SkierOptions := Options(40.0, 12.0, 8.0, 14.0, 18.0, 25.0, 5.5, 0.45)

  /** The snow spray attached to the skier. */
  const SnowConfig := Particles.Config(
    300, 15.0, 0.5, 0.2, Color(0.95, 0.95, 1.0, 0.7), Vec3(0.0, -0.5, 0.3),
    Particles.VelocityRange(Particles.Range(-3.0, 3.0), Particles.Range(0.2, 1.5), Particles.Range(1.0, 4.0)))

  /** Where the skier stands when the page loads, and where a restart puts it. */
  const SkierStart := Vec3(0.0, 0.15, 8.0)
  const RestartPosition := Vec3(0.0, 0.2, 8.0)
  /** Where a new ghost skier stands before its first frame. */
  const GhostStart := Vec3(0.0, 0.0, 0.0)

  /** The controller options keep the speed inside its ramped bounds: acceleration 8 over
      the 8-second ramp outpaces the minimum's rise from 6 to 12. */
  lemma SkierOptionsSane()
    ensures SaneOptions(SkierOptions) && SkierOptions.maxSpeed == 40.0
  {
  }

  // ---------------------------------------------------------------- snow spray

  /** The keys main.js counts as turning: either direction, whichever else is held. */
  predicate Turning(keys: map<string, bool>) {
    LeftHeld(keys) || RightHeld(keys)
  }

  /** 8 particles per second, plus up to 20 more with the speed ratio, plus 15 while turning. */
  function EmissionRate(speed: real, maxSpeed: real, turning: bool): (rate: real)
    requires maxSpeed != 0.0
  {
    8.0 + speed / maxSpeed * 20.0 + (if turning then 15.0 else 0.0)
  }

  /** With the speed between zero and the maximum, the rate lies in [8, 28] going straight
      and in [23, 43] while turning; in particular it is positive. */
  lemma EmissionRateBounds(speed: real, maxSpeed: real, turning: bool)
    requires 0.0 < maxSpeed && 0.0 <= speed <= maxSpeed
    ensures var bonus := if turning then 15.0 else 0.0;
            8.0 + bonus <= EmissionRate(speed, maxSpeed, turning) <= 28.0 + bonus
    ensures EmissionRate(speed, maxSpeed, turning) > 0.0
  {
    var ratio := speed / maxSpeed;
    assert ratio * maxSpeed == speed;
    assert 0.0 <= ratio <= 1.0 by {
      if ratio > 1.0 {
        MulStrict(ratio, maxSpeed);
      }
    }
  }

  lemma MulStrict(ratio: real, m: real)
    requires ratio > 1.0 && m > 0.0
    ensures ratio * m > m
  {
    MulPositive(ratio - 1.0, m);
  }

  /** Holding both directions cancels the lateral input but still counts as turning, so
      the spray gets the turning bonus while the skier goes straight. */
  lemma BothDirectionsStillTurning(keys: map<string, bool>)
    requires Held(keys, "KeyA") && Held(keys, "KeyD")
    ensures Lateral(keys) == 0.0 && Turning(keys)
  {
    assert LeftHeld(keys) && RightHeld(keys);
  }

  // ---------------------------------------------------------------- gate flash

  /** updateGateFlash: a running flash (flashTime > 0) counts down by dt; colour aside,
      nothing else about the pair changes. */
  function FlashTick(g: GatePair, dt: real): (h: GatePair)
    ensures h.(flashTime := g.flashTime) == g
    ensures g.flashTime > 0.0 ==> h.flashTime == g.flashTime - dt
    ensures dt >= 0.0 ==> h.flashTime <= g.flashTime
    ensures g.flashTime <= 0.0 ==> h == g
    ensures g.flashTime > 0.0 && dt <= g.flashTime ==> h.flashTime >= 0.0
  {
    if g.flashTime > 0.0 then g.(flashTime := g.flashTime - dt) else g
  }

  /** The flash pass over every gate pair. */
  function FlashAll(gs: seq<GatePair>, dt: real): (r: seq<GatePair>)
    ensures |r| == |gs| && forall j :: 0 <= j < |gs| ==> r[j] == FlashTick(gs[j], dt)
  {
    seq(|gs|, j requires 0 <= j < |gs| => FlashTick(gs[j], dt))
  }

  // ---------------------------------------------------------------- gates

  /** What the gate loop makes of one pair on this tick. */
  datatype Verdict =
    | Skipped   // already passed (or hit, or missed) this run
    | Ahead     // not reached yet
    | Passed    // reached, between the poles
    | HitPole   // touching a pole
    | Missed    // reached, outside the poles

  /** The loop body for one pair: a passed pair is skipped, a pole hit comes first, then
      reaching the pair's z decides between passing and missing. */
  function Judge(g: GatePair, p: Pose): (v: Verdict) {
    var skier := Entity(Some(p));
    if g.passed then Skipped
    else if CheckGateCollision(skier, g) then HitPole
    else if p.translation.z <= g.z then (if CheckGatePassing(skier, g) then Passed else Missed)
    else Ahead
  }

  /** Verdicts that end the run. */
  predicate Terminal(v: Verdict) {
    v == HitPole || v == Missed
  }

  /** The reason a terminal verdict ends the run with. */
  function Stop(v: Verdict): (why: Reason)
    requires Terminal(v)
  {
    if v == HitPole then Reason.Gate else MissGate
  }

  /** The pair after its verdict: every decision marks it passed, a pass also starts its
      flash. */
  function Judged(g: GatePair, v: Verdict): (h: GatePair)
    ensures h.passed == (g.passed || v in {Passed, HitPole, Missed})
    ensures v == Passed ==> h.flashTime == g.flashDuration
    ensures v != Passed ==> h.flashTime == g.flashTime
    ensures h.(passed := g.passed, flashTime := g.flashTime) == g
  {
    match v
    case Passed => g.(passed := true, flashTime := g.flashDuration)
    case HitPole => g.(passed := true)
    case Missed => g.(passed := true)
    case _ => g
  }

  /** The outcome of the gate loop: the pairs as it leaves them, how many times it called
      gatePassed, and the reason it ended the run with, if it did. */
  datatype Scan = Scan(gates: seq<GatePair>, passes: nat, end: Option<Reason>)

  /** The gate loop over `gs` for a skier at pose `p`, returning at the first terminal pair. */
  function ScanGates(gs: seq<GatePair>, p: Pose): (s: Scan)
    ensures |s.gates| == |gs|
    decreases |gs|
  {
    if gs == [] then Scan([], 0, None)
    else
      var v := Judge(gs[0], p);
      var g := Judged(gs[0], v);
      if Terminal(v) then Scan([g] + gs[1..], 0, Some(Stop(v)))
      else
        var rest := ScanGates(gs[1..], p);
        Scan([g] + rest.gates, rest.passes + (if v == Passed then 1 else 0), rest.end)
  }

  /** A scan that already produced `prefix` with `passes` passes, continued by `rest`. */
  function Then(prefix: seq<GatePair>, passes: nat, rest: Scan): (scan: Scan) {
    Scan(prefix + rest.gates, passes + rest.passes, rest.end)
  }

  /** The gate loop's step past a pair that does not end the run: the loop's pairs, its
      pass count and the GameState move on together. */
  lemma ScanAdvances(gs: seq<GatePair>, p: Pose, r: Run, done: seq<GatePair>, passes: nat, i: nat,
                     gates: seq<GatePair>, run: Run)
    requires i < |gs| && |done| == i && !Terminal(Judge(gs[i], p))
    requires ScanGates(gs, p) == Then(done, passes, ScanGates(gs[i..], p))
    requires gates == (done + gs[i..])[i := Judged(gs[i], Judge(gs[i], p))]
    requires run == if Judge(gs[i], p) == Passed then OnGatePassed(PassGates(r, passes)) else PassGates(r, passes)
    ensures var v := Judge(gs[i], p);
            var n := passes + (if v == Passed then 1 else 0);
            && ScanGates(gs, p) == Then(done + [Judged(gs[i], v)], n, ScanGates(gs[i + 1..], p))
            && gates == done + [Judged(gs[i], v)] + gs[i + 1..]
            && run == PassGates(r, n)
  {
    assert gs[i..][0] == gs[i] && gs[i..][1..] == gs[i + 1..];
  }

  /** The gate loop's stop at a pair that ends the run. */
  lemma ScanHalts(gs: seq<GatePair>, p: Pose, r: Run, done: seq<GatePair>, passes: nat, i: nat,
                  gates: seq<GatePair>, run: Run)
    requires i < |gs| && |done| == i && Terminal(Judge(gs[i], p))
    requires ScanGates(gs, p) == Then(done, passes, ScanGates(gs[i..], p))
    requires gates == (done + gs[i..])[i := Judged(gs[i], Judge(gs[i], p))]
    requires run == OnGameOver(PassGates(r, passes), Stop(Judge(gs[i], p)))
    ensures var s := ScanGates(gs, p);
            && s.end.Some? && gates == s.gates
            && run == OnGameOver(PassGates(r, s.passes), s.end.value)
  {
    assert gs[i..][0] == gs[i] && gs[i..][1..] == gs[i + 1..];
    assert gates == done + [Judged(gs[i], Judge(gs[i], p))] + gs[i + 1..];
  }

  /** The index of the first pair whose verdict ends the run, or |gs| when none does. */
  function FirstStop(gs: seq<GatePair>, p: Pose): (k: nat)
    ensures k <= |gs|
    ensures forall j :: 0 <= j < k ==> !Terminal(Judge(gs[j], p))
    ensures k < |gs| ==> Terminal(Judge(gs[k], p))
    decreases |gs|
  {
    if gs == [] || Terminal(Judge(gs[0], p)) then 0
    else
      var k := FirstStop(gs[1..], p);
      assert forall j :: 1 <= j < k + 1 ==> gs[j] == gs[1..][j - 1];
      k + 1
  }

  /** How many pairs of `gs` the skier passes between the poles. */
  function CountPasses(gs: seq<GatePair>, p: Pose): (count: nat)
    decreases |gs|
  {
    if gs == [] then 0
    else (if Judge(gs[0], p) == Passed then 1 else 0) + CountPasses(gs[1..], p)
  }

  /** The pairs the gate loop leaves behind: every pair up to and including the first
      terminal one receives its verdict, the pairs after it are left alone. */
  lemma {:induction false} ScanGatesJudgesUpToStop(gs: seq<GatePair>, p: Pose)
    ensures var s := ScanGates(gs, p);
            var k := FirstStop(gs, p);
            forall j :: 0 <= j < |gs| ==>
              s.gates[j] == if j <= k then Judged(gs[j], Judge(gs[j], p)) else gs[j]
    decreases |gs|
  {
    if gs != [] && !Terminal(Judge(gs[0], p)) {
      var tail := gs[1..];
      ScanGatesJudgesUpToStop(tail, p);
      var s := ScanGates(gs, p);
      var k := FirstStop(gs, p);
      assert k == FirstStop(tail, p) + 1;
      forall j | 1 <= j < |gs|
        ensures s.gates[j] == if j <= k then Judged(gs[j], Judge(gs[j], p)) else gs[j]
      {
        assert tail[j - 1] == gs[j];
        assert s.gates[j] == ScanGates(tail, p).gates[j - 1];
      }
    }
  }

  /** The gate loop ends the run exactly when some pair is terminal, with the first such
      pair's reason. */
  lemma {:induction false} ScanGatesEndsAtStop(gs: seq<GatePair>, p: Pose)
    ensures var k := FirstStop(gs, p);
            ScanGates(gs, p).end == if k < |gs| then Some(Stop(Judge(gs[k], p))) else None
    decreases |gs|
  {
    if gs != [] && !Terminal(Judge(gs[0], p)) {
      var tail := gs[1..];
      ScanGatesEndsAtStop(tail, p);
      var k := FirstStop(gs, p);
      assert k == FirstStop(tail, p) + 1;
      assert k < |gs| ==> tail[k - 1] == gs[k];
    }
  }

  /** The gate loop calls gatePassed once per pass before the first terminal pair. */
  lemma {:induction false} ScanGatesCountsPasses(gs: seq<GatePair>, p: Pose)
    ensures ScanGates(gs, p).passes == CountPasses(gs[..FirstStop(gs, p)], p)
    decreases |gs|
  {
    if gs == [] || Terminal(Judge(gs[0], p)) {
      assert gs[..0] == [];
    } else {
      var tail := gs[1..];
      ScanGatesCountsPasses(tail, p);
      var k := FirstStop(gs, p);
      assert k == FirstStop(tail, p) + 1;
      assert gs[..k][0] == gs[0] && gs[..k][1..] == tail[..k - 1];
    }
  }

  /** The gate loop, described pair by pair: every pair up to and including the first
      terminal one receives its verdict, the pairs after it are left alone, the run ends
      exactly when there is a terminal pair (with that pair's reason), and gatePassed is
      called once per pass before it. */
  lemma ScanGatesIsFirstStop(gs: seq<GatePair>, p: Pose)
    ensures var s := ScanGates(gs, p);
            var k := FirstStop(gs, p);
            && (forall j :: 0 <= j < |gs| ==>
                  s.gates[j] == if j <= k then Judged(gs[j], Judge(gs[j], p)) else gs[j])
            && s.end == (if k < |gs| then Some(Stop(Judge(gs[k], p))) else None)
            && s.passes == CountPasses(gs[..k], p)
  {
    ScanGatesJudgesUpToStop(gs, p);
    ScanGatesEndsAtStop(gs, p);
    ScanGatesCountsPasses(gs, p);
  }

  /** Bookkeeping of one gate loop, pair by pair: a pair already passed is left exactly as
      it was, the flag only ever goes from false to true, and a pair whose flag the loop
      sets without ending the run was passed between the poles and had its flash started. */
  lemma GateFlagsOnlyRise(gs: seq<GatePair>, p: Pose, j: nat)
    requires j < |gs|
    ensures var s := ScanGates(gs, p);
            && (gs[j].passed ==> s.gates[j] == gs[j])
            && (gs[j].passed ==> s.gates[j].passed)
            && s.gates[j].(passed := gs[j].passed, flashTime := gs[j].flashTime) == gs[j]
            && (!gs[j].passed && s.gates[j].passed && (s.end.None? || j < FirstStop(gs, p)) ==>
                  CheckGatePassing(Entity(Some(p)), gs[j]) && s.gates[j].flashTime == gs[j].flashDuration)
  {
    ScanGatesIsFirstStop(gs, p);
  }

  /** Once a pair is passed, no later tick changes it until the restart reopens it: the
      loop run again on its own output leaves every pair alone. */
  lemma PassedGatesStayPassed(gs: seq<GatePair>, p: Pose, q: Pose)
    requires forall j :: 0 <= j < |gs| ==> gs[j].passed
    ensures ScanGates(gs, q) == Scan(gs, 0, None)
  {
    ScanGatesIsFirstStop(gs, q);
    NoPassesAmongPassed(gs, q);
  }

  lemma {:induction false} NoPassesAmongPassed(gs: seq<GatePair>, q: Pose)
    requires forall j :: 0 <= j < |gs| ==> gs[j].passed
    ensures CountPasses(gs, q) == 0
    decreases |gs|
  {
    if gs != [] {
      NoPassesAmongPassed(gs[1..], q);
    }
  }

  /** The restart: every pair open again, flashes and everything else as they were. */
  function Reopened(gs: seq<GatePair>): (r: seq<GatePair>)
    ensures |r| == |gs|
    ensures forall j :: 0 <= j < |gs| ==> !r[j].passed && r[j].(passed := gs[j].passed) == gs[j]
  {
    seq(|gs|, j requires 0 <= j < |gs| => gs[j].(passed := false))
  }

  /** gatePassed called n times. */
  function PassGates(r: Run, n: nat): (r': Run) {
    if n == 0 then r else OnGatePassed(PassGates(r, n - 1))
  }

  /** While playing, n calls to gatePassed add exactly n and change nothing else. */
  lemma {:induction false} PassGatesCounts(r: Run, n: nat)
    requires r.state == Playing
    ensures PassGates(r, n) == r.(gatesPassed := r.gatesPassed + n)
  {
    if n > 0 {
      PassGatesCounts(r, n - 1);
    }
  }

  // ---------------------------------------------------------------- coins

  /** The coin hitbox: an uncollected coin within 1 of the skier in x and in z (y is ignored). */
  predicate Touches(c: Coin, p: Vec3) {
    !c.collected && Abs(c.translation.x - p.x) < 1.0 && Abs(c.translation.z - p.z) < 1.0
  }

  function Collect(c: Coin, p: Vec3): (c': Coin) {
    if Touches(c, p) then c.(collected := true) else c
  }

  /** The coin loop's marking: a coin ends up collected iff it already was or the skier
      touches it; identity and position stay. */
  function CollectAll(cs: seq<Coin>, p: Vec3): (r: seq<Coin>)
    ensures |r| == |cs|
    ensures forall j :: 0 <= j < |cs| ==>
              && r[j].id == cs[j].id && r[j].translation == cs[j].translation
              && (r[j].collected <==>
                    (cs[j].collected || (Abs(cs[j].translation.x - p.x) < 1.0 && Abs(cs[j].translation.z - p.z) < 1.0)))
  {
    seq(|cs|, j requires 0 <= j < |cs| => Collect(cs[j], p))
  }

  /** The coins the loop pushes onto coinsToRemove, in list order, as marked collected. */
  function Picked(cs: seq<Coin>, p: Vec3): (picked: seq<Coin>)
    decreases |cs|
  {
    if cs == [] then []
    else
      var last := cs[|cs| - 1];
      Picked(cs[..|cs| - 1], p) + (if Touches(last, p) then [last.(collected := true)] else [])
  }

  /** The picked coins are exactly the touched ones, marked collected: no more of them than
      coins. */
  lemma {:induction false} PickedAreTouched(cs: seq<Coin>, p: Vec3)
    ensures |Picked(cs, p)| <= |cs|
    ensures forall c :: c in Picked(cs, p) ==>
              c.collected && exists j :: 0 <= j < |cs| && Touches(cs[j], p) && c == cs[j].(collected := true)
    ensures forall j :: 0 <= j < |cs| && Touches(cs[j], p) ==> cs[j].(collected := true) in Picked(cs, p)
    decreases |cs|
  {
    if cs != [] {
      var init := cs[..|cs| - 1];
      PickedAreTouched(init, p);
      assert forall j :: 0 <= j < |init| ==> init[j] == cs[j];
    }
  }

  /** A second pass at the same spot collects nothing more: collected coins are skipped. */
  lemma {:induction false} CollectingTwicePicksNothing(cs: seq<Coin>, p: Vec3)
    ensures Picked(CollectAll(cs, p), p) == []
    ensures CollectAll(CollectAll(cs, p), p) == CollectAll(cs, p)
    decreases |cs|
  {
    if cs != [] {
      var r := CollectAll(cs, p);
      CollectingTwicePicksNothing(cs[..|cs| - 1], p);
      assert r[..|r| - 1] == CollectAll(cs[..|cs| - 1], p);
    }
  }

  /** Identities, in list order. */
  function Ids(cs: seq<Coin>): (r: seq<nat>)
    ensures |r| == |cs| && forall j :: 0 <= j < |cs| ==> r[j] == cs[j].id
  {
    seq(|cs|, j requires 0 <= j < |cs| => cs[j].id)
  }

  /** Every coin is a distinct object: identities strictly increase along the list. */
  predicate IdsIncreasing(cs: seq<Coin>) {
    forall i, j :: 0 <= i < j < |cs| ==> cs[i].id < cs[j].id
  }

  /** indexOf + splice on a list of identities (the scene): drop the first occurrence. */
  function RemoveId(xs: seq<nat>, id: nat): (ys: seq<nat>)
    decreases |xs|
  {
    if xs == [] then []
    else if xs[0] == id then xs[1..]
    else [xs[0]] + RemoveId(xs[1..], id)
  }

  /** indexOf + splice on the coin list: drop the first coin with that identity. */
  function RemoveCoin(cs: seq<Coin>, id: nat): (rest: seq<Coin>)
    decreases |cs|
  {
    if cs == [] then []
    else if cs[0].id == id then cs[1..]
    else [cs[0]] + RemoveCoin(cs[1..], id)
  }

  /** Splicing a coin out of the list and its identity out of the scene keep the two in step. */
  lemma {:induction false} RemoveCoinInStep(cs: seq<Coin>, id: nat)
    ensures Ids(RemoveCoin(cs, id)) == RemoveId(Ids(cs), id)
    decreases |cs|
  {
    if cs != [] && cs[0].id != id {
      RemoveCoinInStep(cs[1..], id);
      assert Ids(cs)[1..] == Ids(cs[1..]);
    } else if cs != [] {
      assert Ids(cs)[1..] == Ids(cs[1..]);
    }
  }

  /** With distinct identities, splicing removes exactly the coin with that identity. */
  lemma {:induction false} RemoveCoinMembers(cs: seq<Coin>, id: nat)
    requires IdsIncreasing(cs)
    ensures forall c :: c in RemoveCoin(cs, id) <==> c in cs && c.id != id
    decreases |cs|
  {
    if cs != [] {
      var tail := cs[1..];
      TailAfterHead(cs);
      if cs[0].id != id {
        RemoveCoinMembers(tail, id);
        var rest := RemoveCoin(tail, id);
        assert RemoveCoin(cs, id) == [cs[0]] + rest;
        forall c
          ensures c in RemoveCoin(cs, id) <==> c in cs && c.id != id
        {
          assert c in [cs[0]] + rest <==> c == cs[0] || c in rest;
        }
      }
    }
  }

  /** Splicing keeps the order of the coins that remain. */
  lemma {:induction false} RemoveCoinKeepsOrder(cs: seq<Coin>, id: nat)
    requires IdsIncreasing(cs)
    ensures IdsIncreasing(RemoveCoin(cs, id))
    decreases |cs|
  {
    if cs != [] {
      TailAfterHead(cs);
      if cs[0].id != id {
        var tail := cs[1..];
        RemoveCoinKeepsOrder(tail, id);
        RemoveCoinMembers(tail, id);
        var rest := RemoveCoin(tail, id);
        assert RemoveCoin(cs, id) == [cs[0]] + rest;
        ConsIncreasing(cs[0], rest);
      }
    }
  }

  /** A coin below every identity of an increasing list may head it. */
  lemma ConsIncreasing(h: Coin, rest: seq<Coin>)
    requires IdsIncreasing(rest) && forall c | c in rest :: c.id > h.id
    ensures IdsIncreasing([h] + rest)
  {
    var r := [h] + rest;
    forall i, j | 0 <= i < j < |r|
      ensures r[i].id < r[j].id
    {
      assert r[j] == rest[j - 1] && rest[j - 1] in rest;
      if i > 0 {
        assert r[i] == rest[i - 1];
      }
    }
  }

  /** With distinct identities, splicing removes exactly the coin with that identity and
      keeps the order of the rest. */
  lemma RemoveCoinRemovesExactly(cs: seq<Coin>, id: nat)
    requires IdsIncreasing(cs)
    ensures IdsIncreasing(RemoveCoin(cs, id))
    ensures forall c :: c in RemoveCoin(cs, id) <==> c in cs && c.id != id
  {
    RemoveCoinMembers(cs, id);
    RemoveCoinKeepsOrder(cs, id);
  }

  /** Below the head of a list with increasing identities: the rest increases too, lies
      above the head, and is what remains of the list without the head. */
  lemma TailAfterHead(cs: seq<Coin>)
    requires cs != [] && IdsIncreasing(cs)
    ensures IdsIncreasing(cs[1..])
    ensures forall c | c in cs[1..] :: c.id > cs[0].id
    ensures forall c | c in cs :: c == cs[0] || c in cs[1..]
  {
    var tail := cs[1..];
    forall i, j | 0 <= i < j < |tail| ensures tail[i].id < tail[j].id {
      assert tail[i] == cs[i + 1] && tail[j] == cs[j + 1];
    }
    forall c | c in tail ensures c.id > cs[0].id {
      var k :| 0 <= k < |tail| && tail[k] == c;
      assert cs[k + 1] == c;
    }
    forall c | c in cs ensures c == cs[0] || c in tail {
      var k :| 0 <= k < |cs| && cs[k] == c;
      if k > 0 {
        assert tail[k - 1] == c;
      }
    }
  }

  /** Several splices, in the order of `ids`. */
  function RemoveIds(xs: seq<nat>, ids: seq<nat>): (ys: seq<nat>)
    decreases |ids|
  {
    if ids == [] then xs else RemoveId(RemoveIds(xs, ids[..|ids| - 1]), ids[|ids| - 1])
  }

  function RemoveCoins(cs: seq<Coin>, ids: seq<nat>): (kept: seq<Coin>)
    decreases |ids|
  {
    if ids == [] then cs else RemoveCoin(RemoveCoins(cs, ids[..|ids| - 1]), ids[|ids| - 1])
  }

  /** The removal loop keeps the coin list and the scene's coins in step. */
  lemma {:induction false} RemoveCoinsInStep(cs: seq<Coin>, ids: seq<nat>)
    ensures Ids(RemoveCoins(cs, ids)) == RemoveIds(Ids(cs), ids)
    decreases |ids|
  {
    if ids != [] {
      RemoveCoinsInStep(cs, ids[..|ids| - 1]);
      RemoveCoinInStep(RemoveCoins(cs, ids[..|ids| - 1]), ids[|ids| - 1]);
    }
  }

  /** With distinct identities, the removal loop removes exactly the listed coins. */
  lemma {:induction false} RemoveCoinsRemovesExactly(cs: seq<Coin>, ids: seq<nat>)
    requires IdsIncreasing(cs)
    ensures IdsIncreasing(RemoveCoins(cs, ids))
    ensures forall c :: c in RemoveCoins(cs, ids) <==> c in cs && c.id !in ids
    decreases |ids|
  {
    if ids != [] {
      var init := ids[..|ids| - 1];
      RemoveCoinsRemovesExactly(cs, init);
      RemoveCoinRemovesExactly(RemoveCoins(cs, init), ids[|ids| - 1]);
      assert forall x :: x in ids <==> x in init || x == ids[|ids| - 1];
    }
  }

  /** Removing every coin of the scene from the scene, one by one, empties it. */
  lemma {:induction false} RemoveIdsOwnPrefix(xs: seq<nat>, i: nat)
    requires i <= |xs|
    ensures RemoveIds(xs, xs[..i]) == xs[i..]
    decreases i
  {
    if i > 0 {
      RemoveIdsOwnPrefix(xs, i - 1);
      assert xs[..i][..i - 1] == xs[..i - 1];
      assert xs[i - 1..][1..] == xs[i..];
    }
  }

  // ---------------------------------------------------------------- ghost replay

  /** The ghost skier (its translation, when there is one) and the next frame to show. */
  datatype Replay = Replay(ghostSkier: Option<Vec3>, ghostIndex: nat)

  /** One tick of the replay: copy frame ghostIndex of the best run and move on, while that
      frame exists; otherwise hold still. */
  function ReplayStep(g: Replay, path: seq<Vec3>): (h: Replay)
    ensures g.ghostSkier.None? || g.ghostIndex >= |path| ==> h == g
    ensures g.ghostSkier.Some? && g.ghostIndex < |path| ==> h.ghostIndex == g.ghostIndex + 1
  {
    if g.ghostSkier.Some? && g.ghostIndex < |path| then Replay(Some(path[g.ghostIndex]), g.ghostIndex + 1)
    else g
  }

  function ReplaySteps(g: Replay, path: seq<Vec3>, n: nat): (g': Replay) {
    if n == 0 then g else ReplayStep(ReplaySteps(g, path, n - 1), path)
  }

  /** A fresh ghost replays the best run frame by frame and then holds its last frame:
      after n ticks it shows frame min(n, |path|) - 1. */
  lemma {:induction false} GhostHoldsLastFrame(start: Vec3, path: seq<Vec3>, n: nat)
    ensures var g := ReplaySteps(Replay(Some(start), 0), path, n);
            var shown := if n < |path| then n else |path|;
            && g.ghostIndex == shown
            && g.ghostSkier == (if shown == 0 then Some(start) else Some(path[shown - 1]))
  {
    if n > 0 {
      GhostHoldsLastFrame(start, path, n - 1);
    }
  }

  // ---------------------------------------------------------------- the tick

  /** What the game loop keeps besides the GameState and the objects it drives: the gate
      pairs, the coins, the coins among the scene's entities (by identity, in scene order),
      the coins waiting for removal, and the ghost replay. */
  datatype Board = Board(
    gatePairs: seq<GatePair>, coins: seq<Coin>, sceneCoins: seq<nat>,
    coinsToRemove: seq<Coin>, replay: Replay)

  /** The coin bookkeeping every tick and every restart keeps: distinct coins, the scene
      shows exactly the coin list, and a coin of the list waits for removal exactly when it
      is collected. */
  predicate Tidy(b: Board) {
    && IdsIncreasing(b.coins)
    && b.sceneCoins == Ids(b.coins)
    && forall c :: c in b.coins ==> (c.collected <==> c.id in Ids(b.coinsToRemove))
  }

  /** The deferred removal: every waiting coin leaves the scene and the coin list. */
  function Flush(b: Board): (b': Board) {
    var ids := Ids(b.coinsToRemove);
    b.(sceneCoins := RemoveIds(b.sceneCoins, ids), coins := RemoveCoins(b.coins, ids), coinsToRemove := [])
  }

  /** After the removal nothing waits, the scene still shows the coin list, and no
      collected coin is left in it. */
  lemma FlushClears(b: Board)
    requires Tidy(b)
    ensures var f := Flush(b);
            && Tidy(f) && f.coinsToRemove == []
            && (forall c :: c in f.coins ==> !c.collected)
            && (forall c :: c in f.coins <==> c in b.coins && c.id !in Ids(b.coinsToRemove))
  {
    var ids := Ids(b.coinsToRemove);
    RemoveCoinsInStep(b.coins, ids);
    RemoveCoinsRemovesExactly(b.coins, ids);
  }

  /** The world and the GameState after one tick. */
  datatype Tick = Tick(board: Board, run: Run)

  /** The referee part of update, after gameState.update: with the menu down, a tree hit,
      then the gate loop, then a log hit end the run; then coins are collected; then the
      finish line ends the run; only a tick that goes on flushes the waiting coins and moves
      the ghost. */
  function Referee(b: Board, r: Run, trees: seq<Entity>, obstacles: seq<Obstacle>, p: Pose): (t: Tick) {
    var skier := Entity(Some(p));
    if !r.showingMenu && CheckTreeCollisions(skier, trees).Some? then Tick(b, OnGameOver(r, Reason.Tree))
    else
      var s := if r.showingMenu then Scan(b.gatePairs, 0, None) else ScanGates(b.gatePairs, p);
      var r1 := PassGates(r, s.passes);
      var b1 := b.(gatePairs := s.gates);
      if s.end.Some? then Tick(b1, OnGameOver(r1, s.end.value))
      else if !r.showingMenu && CheckObstacleCollisions(skier, obstacles).Some? then
        Tick(b1, OnGameOver(r1, Reason.Obstacle))
      else Settle(b1, r1, p)
  }

  /** The rest of a tick no hazard ended: collect the touched coins, then either the finish
      line ends the run or the waiting coins are flushed and the ghost moves on. */
  function Settle(b: Board, r: Run, p: Pose): (t: Tick) {
    var picked := Picked(b.coins, p.translation);
    var r2 := r.(coins := r.coins + |picked|);
    var b2 := b.(coins := CollectAll(b.coins, p.translation), coinsToRemove := b.coinsToRemove + picked);
    if p.translation.z <= FinishZ then Tick(b2, OnGameOver(r2, Finish))
    else
      var b3 := Flush(b2);
      Tick(b3.(replay := ReplayStep(b3.replay, r2.bestRunPath)), r2)
  }

  /** The gameplay part of one update(t, dt): nothing unless playing; otherwise the path
      sample (the skier's position before it moves), the flash countdown, gameState.update
      with the skier's new position `p` and speed, then the referee. */
  function Play(b: Board, r: Run, trees: seq<Entity>, obstacles: seq<Obstacle>,
                sample: Vec3, p: Pose, speed: real, dt: real): (t: Tick)
  {
    if r.state != Playing then Tick(b, r)
    else
      var r0 := OnUpdate(r.(currentRunPath := r.currentRunPath + [sample]), p.translation.z, speed);
      Referee(b.(gatePairs := FlashAll(b.gatePairs, dt)), r0, trees, obstacles, p)
  }

  /** The first event of a tick, in the referee's order; the tree, gate and log checks are
      off while the menu shows, the finish line is not. */
  function FirstEvent(b: Board, r: Run, trees: seq<Entity>, obstacles: seq<Obstacle>, p: Pose): (e: Option<Reason>) {
    var skier := Entity(Some(p));
    var k := FirstStop(b.gatePairs, p);
    if !r.showingMenu && CheckTreeCollisions(skier, trees).Some? then Some(Reason.Tree)
    else if !r.showingMenu && k < |b.gatePairs| then Some(Stop(Judge(b.gatePairs[k], p)))
    else if !r.showingMenu && CheckObstacleCollisions(skier, obstacles).Some? then Some(Reason.Obstacle)
    else if p.translation.z <= FinishZ then Some(Finish)
    else None
  }

  /** While playing, the referee ends the run exactly when there is an event, with the
      first event's reason; an event before the coin check leaves the coins and their count
      alone; and a run that ends keeps its waiting coins and its ghost where they were. */
  lemma RefereeEndsAtFirstEvent(b: Board, r: Run, trees: seq<Entity>, obstacles: seq<Obstacle>, p: Pose)
    requires r.state == Playing
    ensures var t := Referee(b, r, trees, obstacles, p);
            var e := FirstEvent(b, r, trees, obstacles, p);
            && (t.run.state == GameOver <==> e.Some?)
            && (e.Some? ==> t.run.reason == e)
            && (e.Some? && e != Some(Finish) ==> t.board.coins == b.coins && t.run.coins == r.coins)
            && (e.Some? ==> t.board.replay == b.replay && t.board.sceneCoins == b.sceneCoins)
  {
    if !r.showingMenu {
      ScanGatesIsFirstStop(b.gatePairs, p);
      var s := ScanGates(b.gatePairs, p);
      PassGatesCounts(r, s.passes);
    }
  }

  /** While the menu shows, only the finish line can end the run and the gate pairs are
      left alone. */
  lemma MenuLeavesOnlyFinish(b: Board, r: Run, trees: seq<Entity>, obstacles: seq<Obstacle>, p: Pose)
    requires r.state == Playing && r.showingMenu
    ensures var t := Referee(b, r, trees, obstacles, p);
            && t.board.gatePairs == b.gatePairs
            && (t.run.state == GameOver <==> p.translation.z <= FinishZ)
            && (t.run.state == GameOver ==> t.run.reason == Some(Finish))
  {
    RefereeEndsAtFirstEvent(b, r, trees, obstacles, p);
  }

  /** The board a tick without an event leaves: coins marked and queued, then flushed,
      then the ghost moved on. */
  function QuietBoard(b: Board, gates: seq<GatePair>, p: Vec3, path: seq<Vec3>): (b': Board) {
    var b2 := b.(gatePairs := gates, coins := CollectAll(b.coins, p),
                 coinsToRemove := b.coinsToRemove + Picked(b.coins, p));
    var b3 := Flush(b2);
    b3.(replay := ReplayStep(b3.replay, path))
  }

  /** Without an event the referee is the quiet path: gate verdicts, coins, flush, ghost. */
  lemma QuietReferee(b: Board, r: Run, trees: seq<Entity>, obstacles: seq<Obstacle>, p: Pose)
    requires r.state == Playing
    requires FirstEvent(b, r, trees, obstacles, p).None?
    ensures var s := if r.showingMenu then Scan(b.gatePairs, 0, None) else ScanGates(b.gatePairs, p);
            var picked := Picked(b.coins, p.translation);
            var r2 := r.(gatesPassed := r.gatesPassed + s.passes, coins := r.coins + |picked|);
            Referee(b, r, trees, obstacles, p) == Tick(QuietBoard(b, s.gates, p.translation, r2.bestRunPath), r2)
  {
    var s := if r.showingMenu then Scan(b.gatePairs, 0, None) else ScanGates(b.gatePairs, p);
    if !r.showingMenu {
      ScanGatesIsFirstStop(b.gatePairs, p);
    }
    PassGatesCounts(r, s.passes);
  }

  /** A tick that does not end the run collects every touched coin, adds one to the count
      per coin, removes the collected coins from the list and the scene, and leaves none
      waiting; the coin bookkeeping holds again. */
  lemma QuietTickCollects(b: Board, r: Run, trees: seq<Entity>, obstacles: seq<Obstacle>, p: Pose)
    requires r.state == Playing && Tidy(b)
    requires FirstEvent(b, r, trees, obstacles, p).None?
    ensures var t := Referee(b, r, trees, obstacles, p);
            var picked := Picked(b.coins, p.translation);
            && Tidy(t.board)
            && t.board.coinsToRemove == []
            && t.run.coins == r.coins + |picked|
            && (forall c :: c in t.board.coins ==> !c.collected)
            && (forall c :: c in b.coins && !c.collected && !Touches(c, p.translation) ==> c in t.board.coins)
            && (forall j :: 0 <= j < |b.coins| && Touches(b.coins[j], p.translation) ==>
                  b.coins[j].id !in Ids(t.board.coins))
  {
    QuietReferee(b, r, trees, obstacles, p);
    var s := if r.showingMenu then Scan(b.gatePairs, 0, None) else ScanGates(b.gatePairs, p);
    var q := p.translation;
    var b2 := b.(gatePairs := s.gates, coins := CollectAll(b.coins, q),
                 coinsToRemove := b.coinsToRemove + Picked(b.coins, q));
    CollectedTidy(b, b2, q);
    FlushClears(b2);
    var f := Flush(b2);
    forall c | c in b.coins && !c.collected && !Touches(c, q)
      ensures c in f.coins
    {
      var j :| 0 <= j < |b.coins| && b.coins[j] == c;
      assert b2.coins[j] == c;
    }
    forall j | 0 <= j < |b.coins| && Touches(b.coins[j], q)
      ensures b.coins[j].id !in Ids(f.coins)
    {
      forall k | 0 <= k < |f.coins|
        ensures Ids(f.coins)[k] != b.coins[j].id
      {
        assert f.coins[k] in f.coins;
      }
    }
  }

  /** A coin neither collected nor touched is not queued after the coin pass. */
  lemma UntouchedNotQueued(b: Board, p: Vec3, j: nat)
    requires Tidy(b) && j < |b.coins| && !b.coins[j].collected && !Touches(b.coins[j], p)
    ensures b.coins[j].id !in Ids(b.coinsToRemove + Picked(b.coins, p))
  {
    var queued := b.coinsToRemove + Picked(b.coins, p);
    var picked := Picked(b.coins, p);
    PickedAreTouched(b.coins, p);
    assert b.coins[j] in b.coins;
    forall k | 0 <= k < |queued|
      ensures Ids(queued)[k] != b.coins[j].id
    {
      if k < |b.coinsToRemove| {
        assert Ids(queued)[k] == Ids(b.coinsToRemove)[k];
      } else {
        var w := queued[k];
        assert w == picked[k - |b.coinsToRemove|];
        assert w in picked;
        var i :| 0 <= i < |b.coins| && Touches(b.coins[i], p) && w == b.coins[i].(collected := true);
        assert i != j;
      }
    }
  }

  /** Marking the touched coins and queueing them keeps the bookkeeping, and every touched
      coin is queued. */
  lemma CollectedTidy(b: Board, b2: Board, p: Vec3)
    requires Tidy(b)
    requires b2.coins == CollectAll(b.coins, p) && b2.coinsToRemove == b.coinsToRemove + Picked(b.coins, p)
    requires b2.sceneCoins == b.sceneCoins
    ensures Tidy(b2)
    ensures forall j :: 0 <= j < |b.coins| && Touches(b.coins[j], p) ==> b.coins[j].id in Ids(b2.coinsToRemove)
  {
    var picked := Picked(b.coins, p);
    PickedAreTouched(b.coins, p);
    assert Ids(b2.coins) == Ids(b.coins);
    forall c | c in b2.coins
      ensures c.collected <==> c.id in Ids(b2.coinsToRemove)
    {
      var j :| 0 <= j < |b2.coins| && b2.coins[j] == c;
      assert b.coins[j] in b.coins;
      if b.coins[j].collected {
        IdsConcat(b.coinsToRemove, picked, c.id);
      } else if Touches(b.coins[j], p) {
        PickedIdIn(b.coins[j], picked, b.coinsToRemove);
      } else {
        UntouchedNotQueued(b, p, j);
      }
    }
    forall j | 0 <= j < |b.coins| && Touches(b.coins[j], p)
      ensures b.coins[j].id in Ids(b2.coinsToRemove)
    {
      PickedIdIn(b.coins[j], picked, b.coinsToRemove);
    }
  }

  lemma IdsConcat(xs: seq<Coin>, ys: seq<Coin>, id: nat)
    requires id in Ids(xs)
    ensures id in Ids(xs + ys)
  {
    var k :| 0 <= k < |xs| && Ids(xs)[k] == id;
    assert Ids(xs + ys)[k] == id;
  }

  lemma PickedIdIn(c: Coin, picked: seq<Coin>, waiting: seq<Coin>)
    requires c.(collected := true) in picked
    ensures c.id in Ids(waiting + picked)
  {
    var k :| 0 <= k < |picked| && picked[k] == c.(collected := true);
    assert Ids(waiting + picked)[|waiting| + k] == c.id;
  }

  /** Every coin the board knows, listed or waiting, was created before identity n. */
  predicate IdsBelow(b: Board, n: nat) {
    (forall c :: c in b.coins ==> c.id < n) && (forall c :: c in b.coinsToRemove ==> c.id < n)
  }

  /** What the tree loop produced: at least one tree, the i-th at its drawn place, every
      tree but the last before finishZ - 30 and the last at or past it. */
  predicate TreesPlaced(ts: seq<Entity>, rnd: nat -> real) {
    && |ts| >= 1
    && (forall i :: 0 <= i < |ts| ==> ts[i] == CreateTree(TreeX(rnd, i), TreeZ(rnd, i), TreeHeight(rnd, i)))
    && (forall i :: 0 <= i < |ts| - 1 ==> TreeZ(rnd, i) > FinishZ - 30.0)
    && TreeZ(rnd, |ts| - 1) <= FinishZ - 30.0
  }

  /** What the log loop produced: at least one log, the i-th at its drawn place, every log
      but the last before finishZ - 20 and the last at or past it. */
  predicate LogsPlaced(os: seq<Obstacle>, rnd: nat -> real, sin: real -> real, cos: real -> real) {
    && |os| >= 1
    && (forall i :: 0 <= i < |os| ==> os[i] == ObstacleAt(rnd, i, sin, cos))
    && (forall i :: 0 <= i < |os| - 1 ==> ObstacleZ(rnd, i) > FinishZ - 20.0)
    && ObstacleZ(rnd, |os| - 1) <= FinishZ - 20.0
  }

  /** What the gate loop produced: 22 pairs, the i-th at its z with its drawn centre, red
      at even indices. */
  predicate GatesPlaced(gs: seq<GatePair>, rnd: nat -> real) {
    |gs| == GateCount && forall i :: 0 <= i < GateCount ==> gs[i] == CreateGatePair(GateZ(i), GateCenterX(rnd, i), i % 2 == 0)
  }

  /** The i-th coin has identity first + i and stands at its drawn place, not collected. */
  predicate Numbered(cs: seq<Coin>, first: nat, rnd: nat -> real) {
    forall i :: 0 <= i < |cs| ==> cs[i] == CreateCoin(first + i, CoinX(rnd, i), CoinZ(rnd, i))
  }

  /** spawnCoins places n coins: every coin but the last lies before finishZ + 20, and the
      last lies at or past it. */
  predicate CoinRunEnds(n: nat, rnd: nat -> real) {
    n >= 1 && (forall i :: 0 <= i < n - 1 ==> CoinZ(rnd, i) > FinishZ + 20.0) && CoinZ(rnd, n - 1) <= FinishZ + 20.0
  }

  /** What spawnCoins produced, numbered from `first`: as many coins as the loop places,
      each with its identity at its drawn place, none collected. */
  predicate Spawned(cs: seq<Coin>, first: nat, rnd: nat -> real) {
    Numbered(cs, first, rnd) && CoinRunEnds(|cs|, rnd)
  }

  /** Freshly spawned coins, numbered from `first` upward, over a queue of older coins:
      the bookkeeping holds, since none of them is collected or waiting. */
  lemma FreshCoinsTidy(gates: seq<GatePair>, spawned: seq<Coin>, first: nat, rnd: nat -> real, waiting: seq<Coin>, replay: Replay)
    requires |spawned| >= 1 && Numbered(spawned, first, rnd)
    requires forall c :: c in waiting ==> c.id < first
    ensures var b := Board(gates, spawned, Ids(spawned), waiting, replay);
            Tidy(b) && IdsBelow(b, first + |spawned|)
  {
    forall c | c in spawned
      ensures c.id !in Ids(waiting)
    {
      forall k | 0 <= k < |waiting|
        ensures Ids(waiting)[k] != c.id
      {
        assert waiting[k] in waiting;
      }
    }
  }

  /** The restart's coin bookkeeping: on a tidy board whose identities all lie below `first`,
      taking every listed coin out of the scene and listing and showing a fresh run numbered
      from `first` leaves a tidy board whose scene shows exactly the fresh coins. */
  lemma RenewedTidy(gates: seq<GatePair>, retired: seq<Coin>, scene: seq<nat>, waiting: seq<Coin>, replay: Replay,
                    first: nat, spawned: seq<Coin>, rnd: nat -> real)
    requires Tidy(Board(gates, retired, scene, waiting, replay))
    requires IdsBelow(Board(gates, retired, scene, waiting, replay), first)
    requires Spawned(spawned, first, rnd)
    ensures RemoveIds(scene, Ids(retired)) + Ids(spawned) == Ids(spawned)
    ensures Tidy(Board(gates, spawned, Ids(spawned), waiting, replay))
    ensures IdsBelow(Board(gates, spawned, Ids(spawned), waiting, replay), first + |spawned|)
  {
    var ids := Ids(retired);
    RemoveIdsOwnPrefix(ids, |ids|);
    assert ids[..|ids|] == ids;
    FreshCoinsTidy(gates, spawned, first, rnd, waiting, replay);
  }

  /** Collecting coins invents no identity: the list and the waiting queue stay below `n`. */
  lemma CollectedBelow(b: Board, q: Vec3, n: nat)
    requires IdsBelow(b, n)
    ensures IdsBelow(b.(coins := CollectAll(b.coins, q), coinsToRemove := b.coinsToRemove + Picked(b.coins, q)), n)
  {
    var picked := Picked(b.coins, q);
    var collected := CollectAll(b.coins, q);
    PickedAreTouched(b.coins, q);
    forall c | c in collected
      ensures c.id < n
    {
      var j :| 0 <= j < |collected| && collected[j] == c;
      assert b.coins[j] in b.coins;
    }
    forall c | c in picked
      ensures c.id < n
    {
      var j :| 0 <= j < |b.coins| && Touches(b.coins[j], q) && c == b.coins[j].(collected := true);
      assert b.coins[j] in b.coins;
    }
  }

  /** The rest of a tick keeps the coin bookkeeping and invents no identity. */
  lemma SettleKeepsTidy(b: Board, r: Run, p: Pose, n: nat)
    requires Tidy(b) && IdsBelow(b, n)
    ensures Tidy(Settle(b, r, p).board) && IdsBelow(Settle(b, r, p).board, n)
  {
    var q := p.translation;
    var b2 := b.(coins := CollectAll(b.coins, q), coinsToRemove := b.coinsToRemove + Picked(b.coins, q));
    CollectedTidy(b, b2, q);
    CollectedBelow(b, q, n);
    if q.z > FinishZ {
      FlushClears(b2);
    }
  }

  /** Whatever the referee decides, the coin bookkeeping holds afterwards and no coin
      identity is invented. */
  lemma RefereeKeepsTidy(b: Board, r: Run, trees: seq<Entity>, obstacles: seq<Obstacle>, p: Pose, n: nat)
    requires Tidy(b) && IdsBelow(b, n)
    ensures Tidy(Referee(b, r, trees, obstacles, p).board)
    ensures IdsBelow(Referee(b, r, trees, obstacles, p).board, n)
  {
    var s := if r.showingMenu then Scan(b.gatePairs, 0, None) else ScanGates(b.gatePairs, p);
    SettleKeepsTidy(b.(gatePairs := s.gates), PassGates(r, s.passes), p, n);
  }

  // ---------------------------------------------------------------- keys

  predicate StartKey(code: string) {
    code == "Enter" || code == "Space"
  }

  /** What the Enter/Space listener does. */
  datatype KeyAction = NoAction | StartFromMenu | RestartRun

  function KeyActionFor(code: string, r: Run): (a: KeyAction) {
    if StartKey(code) && r.showingMenu then StartFromMenu
    else if StartKey(code) && r.state != Playing && !r.showingMenu then RestartRun
    else NoAction
  }

  /** Enter or Space starts the game from the menu and restarts after a game over; during
      a run, and for any other key, the listener does nothing. */
  lemma KeyActionCases(code: string, r: Run)
    ensures KeyActionFor(code, r) != NoAction ==> StartKey(code)
    ensures r.state == Playing && !r.showingMenu ==> KeyActionFor(code, r) == NoAction
    ensures StartKey(code) && r.state == GameOver ==>
              KeyActionFor(code, r) == if r.showingMenu then StartFromMenu else RestartRun
  {
  }

  // ---------------------------------------------------------------- the world

  /** Page load's course: the tree, log and gate loops, then the first spawnCoins, with
      coin identities from 0. */
  method LayCourse(treeDraws: nat -> real, obstacleDraws: nat -> real, gateDraws: nat -> real,
                   coinDraws: nat -> real, sin: real -> real, cos: real -> real)
    returns (trees: seq<Entity>, obstacles: seq<Obstacle>, gates: seq<GatePair>, coins: seq<Coin>)
    requires ValidDraws(treeDraws) && ValidDraws(obstacleDraws) && ValidDraws(coinDraws)
    ensures TreesPlaced(trees, treeDraws) && LogsPlaced(obstacles, obstacleDraws, sin, cos)
    ensures GatesPlaced(gates, gateDraws) && Spawned(coins, 0, coinDraws)
  {
    trees := GenerateTrees(treeDraws);
    obstacles := GenerateObstacles(obstacleDraws, sin, cos);
    gates := GenerateGates(gateDraws);
    coins := SpawnCoins(0, coinDraws);
  }

  /** The module-level state of main.js that gameplay touches: the skier's Transform, its
      controller, the GameState, the snow spray, the course, the coins and the ghost. */
  class World {
    const skier: Transform
    const controller: SkierController
    const gameState: GameState
    const particleSystem: Particles.ParticleSystem
    const trees: seq<Entity>
    const obstacles: seq<Obstacle>
    var gatePairs: seq<GatePair>
    var coins: seq<Coin>
    /** The coins among the scene's entities, by identity, in scene order. */
    var sceneCoins: seq<nat>
    var coinsToRemove: seq<Coin>
    /** The ghost skier's translation while there is one. */
    var ghostSkier: Option<Vec3>
    var ghostIndex: nat
    /** The identity the next coin created gets. */
    var nextCoinId: nat

    function Layout(): (b: Board)
      reads this
    {
      Board(gatePairs, coins, sceneCoins, coinsToRemove, Replay(ghostSkier, ghostIndex))
    }

    /** The controller drives this skier, whose scale (its collision box) is [1, 1, 1], with
        the game's options and a speed inside the ramped bounds. */
    ghost predicate RiderReady()
      reads this, skier, controller
    {
      && controller.transform == skier
      && skier.scale == One
      && controller.opts == SkierOptions
      && SpeedInBounds(controller.State(), SkierOptions)
    }

    /** The spray pool is consistent and, as driven, never holds a dead particle. */
    ghost predicate SprayReady()
      reads this, particleSystem, particleSystem.particles
    {
      particleSystem.Valid() && Particles.AllActive(particleSystem.particles)
    }

    /** The coin bookkeeping holds and every identity in use is below `nextCoinId`. */
    predicate CoinsReady()
      reads this
    {
      Tidy(Layout()) && IdsBelow(Layout(), nextCoinId)
    }

    /** The three parts above, and the spray runs whenever the game does. */
    ghost predicate Valid()
      reads this, skier, controller, gameState, particleSystem, particleSystem.particles
    {
      && RiderReady()
      && SprayReady()
      && (gameState.state == Playing ==> particleSystem.enabled)
      && CoinsReady()
    }

    /** Page load: the course from its draw streams, the skier at its start, the coins
        spawned, a fresh GameState with the menu up, no ghost. */
    constructor (treeDraws: nat -> real, obstacleDraws: nat -> real, gateDraws: nat -> real,
                 coinDraws: nat -> real, sin: real -> real, cos: real -> real)
      requires ValidDraws(treeDraws) && ValidDraws(obstacleDraws) && ValidDraws(coinDraws)
      ensures Valid()
      ensures gameState.Snapshot() == Initial
      ensures skier.translation == SkierStart && skier.scale == One
      ensures controller.State() == Motion(SkierStart, 12.0, 0.0, 0.0, 0.0, 0.0, false, 0.0)
      ensures particleSystem.Settings() == SnowConfig && particleSystem.hasMesh && particleSystem.particles == []
      ensures TreesPlaced(trees, treeDraws)
      ensures LogsPlaced(obstacles, obstacleDraws, sin, cos)
      ensures GatesPlaced(gatePairs, gateDraws)
      ensures Spawned(coins, 0, coinDraws)
      ensures sceneCoins == Ids(coins) && coinsToRemove == [] && ghostSkier == None && ghostIndex == 0
    {
      var t, o, g, c := LayCourse(treeDraws, obstacleDraws, gateDraws, coinDraws, sin, cos);
      var s := new Transform(SkierStart, Quat.Quat4(0.0, 0.0, 0.0, 1.0), One);
      skier := s;
      controller := new SkierController(s, SkierOptions);
      gameState := new GameState();
      var ps := new Particles.ParticleSystem(SnowConfig, true);
      particleSystem := ps;
      trees := t;
      obstacles := o;
      gatePairs := g;
      coins := c;
      sceneCoins := Ids(c);
      coinsToRemove := [];
      ghostSkier := None;
      ghostIndex := 0;
      nextCoinId := |c|;
      FreshCoinsTidy(g, c, 0, coinDraws, [], Replay(None, 0));
    }

    /** What the restart handler leaves behind, the GameState aside: the skier back at
        (0, 0.2, 8) with its controller reset to the slow start, a ghost of the best run iff
        there is one, fresh coins numbered from the old counter in the list and the scene,
        the waiting coins as they were, the spray empty and enabled with its mesh, accumulator
        and rate as they were, every gate reopened. */
    twostate predicate Restarted(coinDraws: nat -> real)
      reads this, skier, controller, gameState, particleSystem
    {
      RestartedFrom(old(gatePairs), old(ghostIndex), old(nextCoinId), old(coinsToRemove),
                    old(particleSystem.hasMesh), old(particleSystem.emissionAccumulator),
                    old(particleSystem.emissionRate), coinDraws)
    }

    /** `Restarted`, given the gate pairs, ghost index, coin counter and removal queue the
        restart started from. */
    predicate RestartedFrom(gates0: seq<GatePair>, ghostIndex0: nat, nextCoinId0: nat, toRemove0: seq<Coin>,
                            hasMesh0: bool, acc0: real, rate0: real, coinDraws: nat -> real)
      reads this, skier, controller, gameState, particleSystem
    {
      && controller.transform == skier
      && controller.State() == Motion(RestartPosition, StartMinSpeed, 0.0, 0.0, 0.0, 0.0, false, 0.0)
      && particleSystem.particles == [] && particleSystem.enabled
      && particleSystem.hasMesh == hasMesh0 && particleSystem.emissionAccumulator == acc0
      && particleSystem.emissionRate == rate0
      && gatePairs == Reopened(gates0)
      && (|gameState.bestRunPath| > 0 ==> ghostSkier == Some(GhostStart) && ghostIndex == 0)
      && (|gameState.bestRunPath| == 0 ==> ghostSkier == None && ghostIndex == ghostIndex0)
      && nextCoinId == nextCoinId0 + |coins|
      && Spawned(coins, nextCoinId0, coinDraws)
      && sceneCoins == Ids(coins) && coinsToRemove == toRemove0
    }

    /** The restart handler: drop the ghost, reset the GameState, put the skier back and
        reset its controller, bring in a ghost of the best run if there is one, replace the
        coins with freshly spawned ones, empty and re-enable the spray, and reopen every gate. */
    method Restart(coinDraws: nat -> real)
      requires Valid() && ValidDraws(coinDraws)
      modifies this, skier, controller, gameState, particleSystem
      ensures Valid()
      ensures gameState.Snapshot() == OnReset(old(gameState.Snapshot()))
      ensures controller.keys == old(controller.keys)
      ensures Restarted(coinDraws)
    {
      ResetRider();
      ResetCourse(coinDraws);
    }

    /** The first half of the restart handler: drop the ghost, reset the GameState, put the
        skier back, reset its controller, and bring in a ghost of the best run if there is one. */
    method ResetRider()
      requires RiderReady()
      modifies this`ghostSkier, this`ghostIndex, skier, controller, gameState
      ensures RiderReady() && gameState.state == Playing
      ensures gameState.Snapshot() == OnReset(old(gameState.Snapshot()))
      ensures controller.State() == Motion(RestartPosition, StartMinSpeed, 0.0, 0.0, 0.0, 0.0, false, 0.0)
      ensures controller.keys == old(controller.keys)
      ensures |gameState.bestRunPath| > 0 ==> ghostSkier == Some(GhostStart) && ghostIndex == 0
      ensures |gameState.bestRunPath| == 0 ==> ghostSkier == None && ghostIndex == old(ghostIndex)
    {
      ghostSkier := None;
      gameState.Reset();
      skier.translation := RestartPosition;
      controller.Reset();
      if |gameState.bestRunPath| > 0 {
        ghostSkier := Some(GhostStart);
        ghostIndex := 0;
      }
    }

    /** The second half: replace the coins, empty and re-enable the spray, reopen every gate. */
    method ResetCourse(coinDraws: nat -> real)
      requires CoinsReady() && SprayReady() && ValidDraws(coinDraws)
      modifies this`coins, this`sceneCoins, this`nextCoinId, this`gatePairs
      modifies particleSystem`particles, particleSystem`particleEntities, particleSystem`enabled
      ensures CoinsReady() && SprayReady()
      ensures particleSystem.particles == [] && particleSystem.enabled
      ensures gatePairs == Reopened(old(gatePairs))
      ensures nextCoinId == old(nextCoinId) + |coins|
      ensures Spawned(coins, old(nextCoinId), coinDraws)
      ensures sceneCoins == Ids(coins)
    {
      RenewCoins(coinDraws);
      ResetSpray();
      ReopenGates();
    }

    /** The restart's coin handling with its bookkeeping: after the old coins leave the scene
        and the fresh ones join it, the scene shows exactly the fresh coins, and the coin
        bookkeeping holds again, whatever stale coins still wait. */
    method RenewCoins(coinDraws: nat -> real)
      requires CoinsReady() && ValidDraws(coinDraws)
      modifies this`coins, this`sceneCoins, this`nextCoinId
      ensures CoinsReady()
      ensures nextCoinId == old(nextCoinId) + |coins|
      ensures Spawned(coins, old(nextCoinId), coinDraws)
      ensures sceneCoins == Ids(coins)
    {
      ghost var retired, scene := coins, sceneCoins;
      ReplaceCoins(coinDraws);
      RenewedTidy(gatePairs, retired, scene, coinsToRemove, Replay(ghostSkier, ghostIndex), old(nextCoinId), coins, coinDraws);
    }

    /** The restart's spray handling: drop every particle and switch emission back on. */
    method ResetSpray()
      requires SprayReady()
      modifies particleSystem`particles, particleSystem`particleEntities, particleSystem`enabled
      ensures SprayReady() && particleSystem.particles == [] && particleSystem.enabled
    {
      particleSystem.Clear();
      particleSystem.SetEnabled(true);
    }

    /** The restart's coin handling: take every coin out of the scene, spawn a fresh set
        numbered from `nextCoinId` upward and put those into the scene. */
    method ReplaceCoins(coinDraws: nat -> real)
      requires ValidDraws(coinDraws)
      modifies this`coins, this`sceneCoins, this`nextCoinId
      ensures nextCoinId == old(nextCoinId) + |coins|
      ensures Spawned(coins, old(nextCoinId), coinDraws)
      ensures sceneCoins == RemoveIds(old(sceneCoins), Ids(old(coins))) + Ids(coins)
    {
      RemoveCoinsFromScene();
      var spawned := SpawnCoins(nextCoinId, coinDraws);
      coins := spawned;
      nextCoinId := nextCoinId + |spawned|;
      sceneCoins := sceneCoins + Ids(spawned);
    }

    /** removeCoinsFromScene: splice each listed coin out of the scene. */
    method RemoveCoinsFromScene()
      modifies this`sceneCoins
      ensures sceneCoins == RemoveIds(old(sceneCoins), Ids(coins))
    {
      for i := 0 to |coins|
        invariant sceneCoins == RemoveIds(old(sceneCoins), Ids(coins)[..i])
      {
        assert Ids(coins)[..i + 1][..i] == Ids(coins)[..i];
        sceneCoins := RemoveId(sceneCoins, coins[i].id);
      }
      assert Ids(coins)[..|coins|] == Ids(coins);
    }

    /** The restart's gate loop: clear every passed flag. */
    method ReopenGates()
      modifies this`gatePairs
      ensures gatePairs == Reopened(old(gatePairs))
    {
      for i := 0 to |gatePairs|
        invariant |gatePairs| == |old(gatePairs)|
        invariant forall j :: 0 <= j < i ==> gatePairs[j] == old(gatePairs)[j].(passed := false)
        invariant forall j :: i <= j < |gatePairs| ==> gatePairs[j] == old(gatePairs)[j]
      {
        gatePairs := gatePairs[i := gatePairs[i].(passed := false)];
      }
    }

    /** startGameFromMenu: lower the menu, then restart. */
    method StartGameFromMenu(coinDraws: nat -> real)
      requires Valid() && ValidDraws(coinDraws)
      modifies this, skier, controller, gameState, particleSystem
      ensures Valid()
      ensures gameState.Snapshot() == OnReset(OnStartGame(old(gameState.Snapshot())))
      ensures controller.keys == old(controller.keys)
      ensures Restarted(coinDraws)
    {
      gameState.StartGame();
      Restart(coinDraws);
    }

    /** A key press: the controller's handler records it, then the game's listener starts
        the game from the menu or restarts after a game over on Enter or Space. */
    method PressKey(code: string, coinDraws: nat -> real)
      requires Valid() && ValidDraws(coinDraws)
      modifies this, skier, controller, gameState, particleSystem
      ensures Valid()
      ensures controller.keys == old(controller.keys)[code := true]
      ensures var r := old(gameState.Snapshot());
              match KeyActionFor(code, r)
              case NoAction =>
                && gameState.Snapshot() == r && Layout() == old(Layout()) && nextCoinId == old(nextCoinId)
                && controller.State() == old(controller.State())
                && unchanged(skier, particleSystem)
              case StartFromMenu => gameState.Snapshot() == OnReset(OnStartGame(r)) && Restarted(coinDraws)
              case RestartRun => gameState.Snapshot() == OnReset(r) && Restarted(coinDraws)
    {
      ghost var gates, index, id, waiting := gatePairs, ghostIndex, nextCoinId, coinsToRemove;
      ghost var mesh, acc, rate :=
        particleSystem.hasMesh, particleSystem.emissionAccumulator, particleSystem.emissionRate;
      controller.KeyDown(code);
      Listen(code, coinDraws);
      assert KeyActionFor(code, old(gameState.Snapshot())) != NoAction ==>
               RestartedFrom(gates, index, id, waiting, mesh, acc, rate, coinDraws);
    }

    /** The game's own keydown listener: Enter or Space starts the game from the menu, or
        restarts it when a run is over; otherwise nothing changes. */
    method Listen(code: string, coinDraws: nat -> real)
      requires Valid() && ValidDraws(coinDraws)
      modifies this, skier, controller, gameState, particleSystem
      ensures Valid()
      ensures controller.keys == old(controller.keys)
      ensures var r := old(gameState.Snapshot());
              match KeyActionFor(code, r)
              case NoAction =>
                && gameState.Snapshot() == r && Layout() == old(Layout()) && nextCoinId == old(nextCoinId)
                && controller.State() == old(controller.State())
                && unchanged(skier, particleSystem)
              case StartFromMenu => gameState.Snapshot() == OnReset(OnStartGame(r)) && Restarted(coinDraws)
              case RestartRun => gameState.Snapshot() == OnReset(r) && Restarted(coinDraws)
    {
      ghost var r := gameState.Snapshot();
      if (code == "Enter" || code == "Space") && gameState.showingMenu {
        assert KeyActionFor(code, r) == StartFromMenu;
        StartGameFromMenu(coinDraws);
      } else if (code == "Enter" || code == "Space") && !gameState.IsPlaying() && !gameState.showingMenu {
        assert KeyActionFor(code, r) == RestartRun;
        Restart(coinDraws);
      } else {
        assert KeyActionFor(code, r) == NoAction;
      }
    }

    /** A key release reaches only the controller. */
    method ReleaseKey(code: string)
      requires Valid()
      modifies controller`keys
      ensures Valid() && controller.keys == old(controller.keys)[code := false]
    {
      controller.KeyUp(code);
    }

    /** The spray's two updates on a playing tick: first with the skier at `parent`, which
        appends the particles due, then as one of the skier entity's components, without a
        parent, which only drains the accumulator again; its flags stay as they were. */
    twostate predicate SprayedTwice(dt: real, parent: Vec3, draws: nat -> real)
      reads particleSystem, particleSystem.particles
    {
      SprayedFrom(old(particleSystem.emissionAccumulator), old(particleSystem.particles),
                  old(particleSystem.enabled), old(particleSystem.hasMesh), dt, parent, draws)
    }

    /** `SprayedTwice`, given the accumulator, pool and flags the tick started from. */
    ghost predicate SprayedFrom(acc0: real, pool0: seq<Particles.Particle>, enabled0: bool, hasMesh0: bool,
                                dt: real, parent: Vec3, draws: nat -> real)
      reads particleSystem, particleSystem.particles
    {
      var rate := particleSystem.emissionRate;
      var first := Particles.Drain(acc0 + dt, rate);
      var second := Particles.Drain(first.remainder + dt, rate);
      && particleSystem.emissionAccumulator == second.remainder
      && Particles.Appended(particleSystem.Settings(), particleSystem.hasMesh, Some(parent), draws, first.count,
                            pool0, particleSystem.particles)
      && particleSystem.enabled == enabled0
      && particleSystem.hasMesh == hasMesh0
    }

    /** update(t, dt), the gameplay part. Nothing happens unless a run is playing, except
        that the spray is switched off. Otherwise the board and the GameState evolve as
        `Play` says, the skier takes one motion step, and the spray, whose rate is set from
        the speed before the step and the turning keys, is drained to less than one period
        and, as driven, only ever grows. */
    method Update(t: real, dt: real, draws: nat -> real)
      requires Valid() && dt >= 0.0
      modifies this, skier, controller, gameState, particleSystem
      ensures Valid()
      ensures var tick := Play(old(Layout()), old(gameState.Snapshot()), trees, obstacles,
                               old(skier.translation), skier.Snapshot(), controller.currentSpeed, dt);
              Layout() == tick.board && gameState.Snapshot() == tick.run
      ensures old(gameState.state) != Playing ==>
                && !particleSystem.enabled && controller.State() == old(controller.State())
                && unchanged(skier)
                && particleSystem.particles == old(particleSystem.particles)
                && particleSystem.hasMesh == old(particleSystem.hasMesh)
                && particleSystem.emissionAccumulator == old(particleSystem.emissionAccumulator)
                && particleSystem.emissionRate == old(particleSystem.emissionRate)
      ensures old(gameState.state) == Playing ==>
                && controller.State() == Step(old(controller.State()), SkierOptions, controller.keys, dt)
                && particleSystem.emissionRate ==
                     EmissionRate(old(controller.currentSpeed), SkierOptions.maxSpeed, Turning(controller.keys))
                && SprayedTwice(dt, old(skier.translation), draws)
                && Particles.WithinPeriod(particleSystem.emissionAccumulator, particleSystem.emissionRate)
                && old(particleSystem.particles) <= particleSystem.particles
      ensures nextCoinId == old(nextCoinId) && controller.keys == old(controller.keys)
    {
      if !gameState.IsPlaying() {
        particleSystem.SetEnabled(false);
        return;
      }
      ghost var b := Layout();
      ghost var acc, pool, enabled, mesh := particleSystem.emissionAccumulator, particleSystem.particles,
                                            particleSystem.enabled, particleSystem.hasMesh;
      Move(t, dt, draws);
      assert SprayedFrom(acc, pool, enabled, mesh, dt, old(skier.translation), draws);
      ghost var r := gameState.Snapshot();
      Arbitrate();
      RefereeKeepsTidy(b.(gatePairs := FlashAll(b.gatePairs, dt)), r, trees, obstacles, skier.Snapshot(), nextCoinId);
    }

    /** The part of a playing tick before the referee: record the skier's position in the
        run's path, drive the spray and the skier, count the gate flashes down and let the
        GameState take in the new position and speed. */
    method Move(t: real, dt: real, draws: nat -> real)
      requires Valid() && dt >= 0.0 && gameState.state == Playing
      modifies skier, controller, gameState, particleSystem, this`gatePairs
      ensures Valid()
      ensures Layout() == old(Layout()).(gatePairs := FlashAll(old(gatePairs), dt))
      ensures gameState.Snapshot() ==
                OnUpdate(old(gameState.Snapshot()).(currentRunPath := old(gameState.currentRunPath) + [old(skier.translation)]),
                         skier.translation.z, controller.currentSpeed)
      ensures controller.State() == Step(old(controller.State()), SkierOptions, controller.keys, dt)
      ensures controller.keys == old(controller.keys)
      ensures particleSystem.emissionRate ==
                EmissionRate(old(controller.currentSpeed), SkierOptions.maxSpeed, Turning(controller.keys))
      ensures SprayedTwice(dt, old(skier.translation), draws)
      ensures Particles.WithinPeriod(particleSystem.emissionAccumulator, particleSystem.emissionRate)
      ensures old(particleSystem.particles) <= particleSystem.particles
    {
      gameState.currentRunPath := gameState.currentRunPath + [skier.translation];
      ghost var acc, pool, enabled, mesh := particleSystem.emissionAccumulator, particleSystem.particles,
                                            particleSystem.enabled, particleSystem.hasMesh;
      Drive(t, dt, draws);
      assert SprayedFrom(acc, pool, enabled, mesh, dt, old(skier.translation), draws);
      FlashGates(dt);
      gameState.Update(skier.translation.z, controller.GetCurrentSpeed());
    }

    /** The spray with the skier as parent, then the skier entity's components in order:
        the spray again (no parent, so it only drains) and the controller. */
    method Drive(t: real, dt: real, draws: nat -> real)
      requires Valid() && dt >= 0.0 && gameState.state == Playing
      modifies skier, controller, particleSystem
      ensures Valid()
      ensures controller.State() == Step(old(controller.State()), SkierOptions, controller.keys, dt)
      ensures controller.keys == old(controller.keys)
      ensures particleSystem.emissionRate ==
                EmissionRate(old(controller.currentSpeed), SkierOptions.maxSpeed, Turning(controller.keys))
      ensures SprayedTwice(dt, old(skier.translation), draws)
      ensures Particles.WithinPeriod(particleSystem.emissionAccumulator, particleSystem.emissionRate)
      ensures old(particleSystem.particles) <= particleSystem.particles
    {
      var speed := controller.GetCurrentSpeed();
      var turning := Turning(controller.keys);
      RampBounds(SkierOptions, controller.rampUpTime);
      EmissionRateBounds(speed, SkierOptions.maxSpeed, turning);
      particleSystem.emissionRate := EmissionRate(speed, controller.opts.maxSpeed, turning);
      ghost var acc, pool := particleSystem.emissionAccumulator, particleSystem.particles;
      SprayTwice(t, dt, skier.translation, draws);
      assert SprayedFrom(acc, pool, true, particleSystem.hasMesh, dt, old(skier.translation), draws);
      ghost var m := controller.State();
      controller.Update(t, dt);
      SpeedBoundsPreserved(m, SkierOptions, controller.keys, dt);
    }

    /** The spray's update with the skier at `parent`, then again without a parent. */
    method SprayTwice(t: real, dt: real, parent: Vec3, draws: nat -> real)
      requires particleSystem.Valid() && Particles.AllActive(particleSystem.particles)
      requires particleSystem.enabled && particleSystem.emissionRate > 0.0 && dt >= 0.0
      modifies particleSystem`particles, particleSystem`particleEntities, particleSystem`emissionAccumulator
      ensures particleSystem.Valid() && Particles.AllActive(particleSystem.particles)
      ensures SprayedTwice(dt, parent, draws)
      ensures Particles.WithinPeriod(particleSystem.emissionAccumulator, particleSystem.emissionRate)
      ensures old(particleSystem.particles) <= particleSystem.particles
    {
      Spray(t, dt, Some(parent), draws);
      Spray(t, dt, None, draws);
    }

    /** One call of the spray's update with a positive rate: the accumulator takes dt and
        keeps only the remainder of the due particles, which are appended to the pool (with
        a parent and a mesh); as driven, the pool only grows, stays all alive, and the
        accumulator is left under one period. */
    method Spray(t: real, dt: real, parent: Option<Vec3>, draws: nat -> real)
      requires particleSystem.Valid() && Particles.AllActive(particleSystem.particles)
      requires particleSystem.enabled && particleSystem.emissionRate > 0.0 && dt >= 0.0
      modifies particleSystem`particles, particleSystem`particleEntities, particleSystem`emissionAccumulator
      ensures particleSystem.Valid() && Particles.AllActive(particleSystem.particles)
      ensures var e := Particles.Drain(old(particleSystem.emissionAccumulator) + dt, particleSystem.emissionRate);
              && particleSystem.emissionAccumulator == e.remainder
              && Particles.Appended(particleSystem.Settings(), particleSystem.hasMesh, parent, draws, e.count,
                                    old(particleSystem.particles), particleSystem.particles)
      ensures Particles.WithinPeriod(particleSystem.emissionAccumulator, particleSystem.emissionRate)
      ensures old(particleSystem.particles) <= particleSystem.particles
    {
      ghost var before := particleSystem.particles;
      ghost var acc := particleSystem.emissionAccumulator;
      ghost var emitted := particleSystem.Update(t, dt, parent, draws);
      Particles.SweepKeepsActivePool(particleSystem.Settings(), particleSystem.hasMesh, parent, draws,
        Particles.Drain(acc + dt, particleSystem.emissionRate).count, before, emitted,
        particleSystem.particles, particleSystem.particleEntities);
      Particles.EmissionDrains(acc + dt, particleSystem.emissionRate);
    }

    /** The flash countdown over every gate pair. */
    method FlashGates(dt: real)
      modifies this`gatePairs
      ensures gatePairs == FlashAll(old(gatePairs), dt)
    {
      for i := 0 to |gatePairs|
        invariant |gatePairs| == |old(gatePairs)|
        invariant forall j :: 0 <= j < i ==> gatePairs[j] == FlashTick(old(gatePairs)[j], dt)
        invariant forall j :: i <= j < |gatePairs| ==> gatePairs[j] == old(gatePairs)[j]
      {
        var pair := gatePairs[i];
        if pair.flashTime > 0.0 {
          gatePairs := gatePairs[i := pair.(flashTime := pair.flashTime - dt)];
        }
      }
    }

    /** The referee part of update, after gameState.update. */
    method Arbitrate()
      modifies this`gatePairs, this`coins, this`sceneCoins, this`coinsToRemove, this`ghostSkier, this`ghostIndex
      modifies gameState
      ensures var tick := Referee(old(Layout()), old(gameState.Snapshot()), trees, obstacles, skier.Snapshot());
              Layout() == tick.board && gameState.Snapshot() == tick.run
    {
      var pose := skier.Snapshot();
      var entity := Entity(Some(pose));
      if !gameState.showingMenu {
        if CheckTreeCollisions(entity, trees).Some? {
          gameState.GameOver(Reason.Tree);
          return;
        }
        var ended := CheckGates(pose);
        if ended {
          return;
        }
        if CheckObstacleCollisions(entity, obstacles).Some? {
          gameState.GameOver(Reason.Obstacle);
          return;
        }
      }
      SettleTick(pose);
    }

    /** After the hazards: the coin loop, the finish line, the deferred removal, the ghost. */
    method SettleTick(pose: Pose)
      modifies this`coins, this`sceneCoins, this`coinsToRemove, this`ghostSkier, this`ghostIndex, gameState
      ensures var tick := Settle(old(Layout()), old(gameState.Snapshot()), pose);
              Layout() == tick.board && gameState.Snapshot() == tick.run
    {
      CollectCoins(pose.translation);
      if pose.translation.z <= FinishZ {
        gameState.GameOver(Finish);
        return;
      }
      RemoveCollectedCoins();
      StepGhost();
    }

    /** The gate loop: skip passed pairs; a pole hit marks the pair and ends the run; at or
        past the pair's z, passing between the poles marks it, starts its flash and counts
        it, and missing marks it and ends the run. */
    method CheckGates(p: Pose) returns (ended: bool)
      modifies this`gatePairs, gameState
      ensures var s := ScanGates(old(gatePairs), p);
              && gatePairs == s.gates && ended == s.end.Some?
              && gameState.Snapshot() == if s.end.Some? then OnGameOver(PassGates(old(gameState.Snapshot()), s.passes), s.end.value)
                                         else PassGates(old(gameState.Snapshot()), s.passes)
    {
      ghost var gs := gatePairs;
      ghost var r := gameState.Snapshot();
      ghost var passes: nat := 0;
      ghost var done: seq<GatePair> := [];
      var i := 0;
      while i < |gatePairs|
        invariant 0 <= i <= |gs| && |done| == i
        invariant gatePairs == done + gs[i..]
        invariant ScanGates(gs, p) == Then(done, passes, ScanGates(gs[i..], p))
        invariant gameState.Snapshot() == PassGates(r, passes)
      {
        var stop;
        stop, done, passes := ScanStep(i, p, gs, r, done, passes);
        if stop {
          return true;
        }
        i := i + 1;
      }
      assert gs[i..] == [];
      return false;
    }

    /** One turn of the gate loop, told against the whole scan: either the loop stops here
        with the scan's outcome, or the pair joins the done prefix and the pass count and
        the GameState move on together. */
    method ScanStep(i: nat, p: Pose, ghost gs: seq<GatePair>, ghost r: Run, ghost done: seq<GatePair>, ghost passes: nat)
        returns (stop: bool, ghost done': seq<GatePair>, ghost passes': nat)
      requires i < |gs| && |done| == i && gatePairs == done + gs[i..]
      requires ScanGates(gs, p) == Then(done, passes, ScanGates(gs[i..], p))
      requires gameState.Snapshot() == PassGates(r, passes)
      modifies this`gatePairs, gameState
      ensures var s := ScanGates(gs, p);
              stop ==> s.end.Some? && gatePairs == s.gates && gameState.Snapshot() == OnGameOver(PassGates(r, s.passes), s.end.value)
      ensures !stop ==> && |done'| == i + 1 && gatePairs == done' + gs[i + 1..]
                        && ScanGates(gs, p) == Then(done', passes', ScanGates(gs[i + 1..], p))
                        && gameState.Snapshot() == PassGates(r, passes')
    {
      ghost var v := Judge(gs[i], p);
      stop := CheckGate(i, p);
      done', passes' := done + [Judged(gs[i], v)], passes + if v == Passed then 1 else 0;
      if stop {
        ScanHalts(gs, p, r, done, passes, i, gatePairs, gameState.Snapshot());
      } else {
        ScanAdvances(gs, p, r, done, passes, i, gatePairs, gameState.Snapshot());
      }
    }

    /** The gate loop's body for pair i: skip a passed pair; a pole hit marks the pair and
        ends the run; at or past the pair's z, passing between the poles marks it, starts
        its flash and counts it, and missing marks it and ends the run. */
    method CheckGate(i: nat, p: Pose) returns (stop: bool)
      requires i < |gatePairs|
      modifies this`gatePairs, gameState
      ensures var v := Judge(old(gatePairs)[i], p);
              && stop == Terminal(v)
              && gatePairs == old(gatePairs)[i := Judged(old(gatePairs)[i], v)]
              && gameState.Snapshot() == if Terminal(v) then OnGameOver(old(gameState.Snapshot()), Stop(v))
                                         else if v == Passed then OnGatePassed(old(gameState.Snapshot()))
                                         else old(gameState.Snapshot())
    {
      var entity := Entity(Some(p));
      var pair := gatePairs[i];
      if pair.passed {
        return false;
      }
      if CheckGateCollision(entity, pair) {
        gatePairs := gatePairs[i := pair.(passed := true)];
        gameState.GameOver(Reason.Gate);
        return true;
      }
      if p.translation.z <= pair.z {
        if CheckGatePassing(entity, pair) {
          gatePairs := gatePairs[i := pair.(passed := true, flashTime := pair.flashDuration)];
          gameState.GatePassed();
        } else {
          gatePairs := gatePairs[i := pair.(passed := true)];
          gameState.GameOver(MissGate);
          return true;
        }
      }
      return false;
    }

    /** The coin loop: mark each touched, uncollected coin, queue it and count it. */
    method CollectCoins(q: Vec3)
      modifies this`coins, this`coinsToRemove, gameState`coins
      ensures coins == CollectAll(old(coins), q)
      ensures coinsToRemove == old(coinsToRemove) + Picked(old(coins), q)
      ensures gameState.coins == old(gameState.coins) + |Picked(old(coins), q)|
    {
      for i := 0 to |coins|
        invariant |coins| == |old(coins)|
        invariant forall j :: 0 <= j < i ==> coins[j] == Collect(old(coins)[j], q)
        invariant forall j :: i <= j < |coins| ==> coins[j] == old(coins)[j]
        invariant coinsToRemove == old(coinsToRemove) + Picked(old(coins)[..i], q)
        invariant gameState.coins == old(gameState.coins) + |Picked(old(coins)[..i], q)|
      {
        assert old(coins)[..i + 1][..i] == old(coins)[..i];
        var coin := coins[i];
        if !coin.collected {
          var dx := coin.translation.x - q.x;
          var dz := coin.translation.z - q.z;
          if Abs(dx) < 1.0 && Abs(dz) < 1.0 {
            coins := coins[i := coin.(collected := true)];
            coinsToRemove := coinsToRemove + [coins[i]];
            gameState.coins := gameState.coins + 1;
          }
        }
      }
      assert old(coins)[..|old(coins)|] == old(coins);
    }

    /** The deferred removal: splice every waiting coin out of the scene and the coin list,
        then empty the queue. */
    method RemoveCollectedCoins()
      modifies this`sceneCoins, this`coins, this`coinsToRemove
      ensures sceneCoins == RemoveIds(old(sceneCoins), Ids(old(coinsToRemove)))
      ensures coins == RemoveCoins(old(coins), Ids(old(coinsToRemove)))
      ensures coinsToRemove == []
    {
      if |coinsToRemove| > 0 {
        for i := 0 to |coinsToRemove|
          invariant coinsToRemove == old(coinsToRemove)
          invariant sceneCoins == RemoveIds(old(sceneCoins), Ids(coinsToRemove)[..i])
          invariant coins == RemoveCoins(old(coins), Ids(coinsToRemove)[..i])
        {
          assert Ids(coinsToRemove)[..i + 1][..i] == Ids(coinsToRemove)[..i];
          var coin := coinsToRemove[i];
          sceneCoins := RemoveId(sceneCoins, coin.id);
          coins := RemoveCoin(coins, coin.id);
        }
        assert Ids(coinsToRemove)[..|coinsToRemove|] == Ids(coinsToRemove);
        coinsToRemove := [];
      }
    }

    /** The ghost replay: show the next frame of the best run while there is one. */
    method StepGhost()
      modifies this`ghostSkier, this`ghostIndex
      ensures Replay(ghostSkier, ghostIndex) == ReplayStep(old(Replay(ghostSkier, ghostIndex)), gameState.bestRunPath)
    {
      if ghostSkier.Some? && ghostIndex < |gameState.bestRunPath| {
        var frame := gameState.bestRunPath[ghostIndex];
        ghostSkier := Some(frame);
        ghostIndex := ghostIndex + 1;
      }
    }
  }
}
