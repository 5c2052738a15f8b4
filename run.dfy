/** The run state machine (src/game/GameState.js): a run is `playing` or `gameover`, a
    menu flag is up until the game is started, counters are kept while playing, the first
    game-over archives the run's path and promotes it to the best run on a strictly longer
    distance, and a reset clears the run but keeps the archive. The DOM overlay and HUD are
    not modelled except for the reason the overlay would name. */
module Run {
  import opened Core

  datatype Phase = Playing | GameOver

  /** Why a run ended; Collision is the default when no reason is given. */
  datatype Reason = Tree | Gate | MissGate | Obstacle | Finish | Collision

  /** A path sample: the skier's translation on one tick. */
  type Sample = Vec3

  /** Everything a GameState holds, as a value. */
  datatype Run = Run(
    state: Phase, showingMenu: bool, score: int, distance: int, gatesPassed: nat,
    speed: real, coins: nat, currentRunPath: seq<Sample>, lastRunPath: seq<Sample>,
    bestDistance: int, bestRunPath: seq<Sample>, reason: Option<Reason>)

  /** A fresh GameState: playing, with the menu showing, counters at zero, no paths. */
  const Initial := Run(Playing, true, 0, 0, 0, 0.0, 0, [], [], 0, [], None)

  /** max(0, floor(-z)): how far down the slope (toward negative z) the skier is, in whole metres. */
  function Distance(z: real): (d: int)
    ensures d >= 0
    ensures z <= 0.0 ==> d as real <= -z < d as real + 1.0
    ensures d == 0 <==> z > -1.0
  {
    if (-z).Floor > 0 then (-z).Floor else 0
  }

  // ---------------------------------------------------------------- archive

  /** A finished run as the archive sees it: its distance and its path. */
  datatype Record = Record(distance: int, path: seq<Sample>)

  /** Promote the run to best only when it is strictly longer. */
  function Archive(best: Record, run: Record): (r: Record)
    ensures r.distance == if run.distance > best.distance then run.distance else best.distance
    ensures r == best || (r == run && run.distance > best.distance)
  {
    if run.distance > best.distance then run else best
  }

  /** The archive after the given runs ended in order, starting from `init`. */
  function BestOf(runs: seq<Record>, init: Record): (best: Record)
  {
    if |runs| == 0 then init else Archive(BestOf(runs[..|runs| - 1], init), runs[|runs| - 1])
  }

  /** The archive holds a longest run, and of several equally long ones the earliest:
      it is `init` unless some run beat it, and then it is the first run reaching the
      maximum distance. */
  lemma {:induction false} BestOfIsFirstLongest(runs: seq<Record>, init: Record)
    ensures var b := BestOf(runs, init);
            && b.distance >= init.distance
            && (forall i :: 0 <= i < |runs| ==> runs[i].distance <= b.distance)
            && (b == init || exists k :: 0 <= k < |runs| && runs[k] == b && b.distance > init.distance
                                         && forall i :: 0 <= i < k ==> runs[i].distance < b.distance)
  {
    if |runs| > 0 {
      var prefix := runs[..|runs| - 1];
      var last := runs[|runs| - 1];
      BestOfIsFirstLongest(prefix, init);
      var p := BestOf(prefix, init);
      assert forall i :: 0 <= i < |prefix| ==> prefix[i] == runs[i];
      if last.distance > p.distance {
        assert runs[|runs| - 1] == BestOf(runs, init);
      } else if p != init {
        var k :| 0 <= k < |prefix| && prefix[k] == p && p.distance > init.distance
                 && forall i :: 0 <= i < k ==> prefix[i].distance < p.distance;
        assert runs[k] == BestOf(runs, init);
      }
    }
  }

  // ---------------------------------------------------------------- transitions

  /** startGame: the menu goes away; nothing else changes. */
  function OnStartGame(r: Run): (r': Run) {
    r.(showingMenu := false)
  }

  /** update(skierZ, speed): while playing, store the distance and the speed. */
  function OnUpdate(r: Run, skierZ: real, speed: real): (r': Run) {
    if r.state == Playing then r.(distance := Distance(skierZ), speed := speed) else r
  }

  /** gameOver(reason): the first call archives the run, later calls do nothing. */
  function OnGameOver(r: Run, reason: Reason): (r': Run) {
    if r.state == GameOver then r
    else
      var best := Archive(Record(r.bestDistance, r.bestRunPath), Record(r.distance, r.currentRunPath));
      r.(state := GameOver, lastRunPath := r.currentRunPath, bestDistance := best.distance,
         bestRunPath := best.path, currentRunPath := [], reason := Some(reason))
  }

  /** reset: back to playing with the run's counters and path cleared. */
  function OnReset(r: Run): (r': Run) {
    r.(state := Playing, score := 0, distance := 0, gatesPassed := 0, speed := 0.0, coins := 0,
       currentRunPath := [], reason := None)
  }

  /** gatePassed: one more gate while playing. */
  function OnGatePassed(r: Run): (r': Run) {
    if r.state == Playing then r.(gatesPassed := r.gatesPassed + 1) else r
  }

  /** A fresh GameState is playing with the menu up, zero counters and empty paths. */
  lemma InitialRun()
    ensures Initial.state == Playing && Initial.showingMenu
    ensures Initial.score == 0 && Initial.distance == 0 && Initial.gatesPassed == 0 && Initial.coins == 0
    ensures Initial.currentRunPath == [] && Initial.lastRunPath == [] && Initial.bestRunPath == []
    ensures Initial.bestDistance == 0
  {
  }

  /** startGame lowers the menu flag and leaves the state and every counter alone. */
  lemma StartGameOnlyMenu(r: Run)
    ensures !OnStartGame(r).showingMenu
    ensures OnStartGame(r).(showingMenu := r.showingMenu) == r
  {
  }

  /** update is a no-op unless playing; otherwise it stores a distance >= 0 and the speed. */
  lemma UpdateStoresDistance(r: Run, z: real, speed: real)
    ensures r.state != Playing ==> OnUpdate(r, z, speed) == r
    ensures r.state == Playing ==>
              OnUpdate(r, z, speed) == r.(distance := Distance(z), speed := speed) && OnUpdate(r, z, speed).distance >= 0
  {
  }

  /** gameOver is idempotent: once over, later calls change nothing, whatever their reason. */
  lemma GameOverIdempotent(r: Run, first: Reason, second: Reason)
    ensures OnGameOver(OnGameOver(r, first), second) == OnGameOver(r, first)
    ensures r.state == GameOver ==> OnGameOver(r, second) == r
  {
  }

  /** The first gameOver: state over, the run's path copied to lastRunPath and cleared,
      counters kept, and the best run replaced exactly when this run is strictly longer. */
  lemma GameOverArchives(r: Run, reason: Reason)
    requires r.state == Playing
    ensures var g := OnGameOver(r, reason);
            && g.state == GameOver && g.reason == Some(reason)
            && g.lastRunPath == r.currentRunPath && g.currentRunPath == []
            && g.distance == r.distance && g.gatesPassed == r.gatesPassed && g.coins == r.coins
            && g.showingMenu == r.showingMenu
            && (r.distance > r.bestDistance ==> g.bestDistance == r.distance && g.bestRunPath == r.currentRunPath)
            && (r.distance <= r.bestDistance ==> g.bestDistance == r.bestDistance && g.bestRunPath == r.bestRunPath)
  {
  }

  /** reset clears the run but keeps the archive, the last run and the menu flag. */
  lemma ResetKeepsArchive(r: Run)
    ensures var n := OnReset(r);
            && n.state == Playing && n.score == 0 && n.distance == 0 && n.gatesPassed == 0
            && n.speed == 0.0 && n.coins == 0 && n.currentRunPath == []
            && n.bestDistance == r.bestDistance && n.bestRunPath == r.bestRunPath
            && n.lastRunPath == r.lastRunPath && n.showingMenu == r.showingMenu
  {
  }

  /** gatePassed adds exactly one while playing and nothing otherwise. */
  lemma GatePassedCounts(r: Run)
    ensures r.state == Playing ==> OnGatePassed(r).gatesPassed == r.gatesPassed + 1
    ensures r.state == Playing ==> OnGatePassed(r).(gatesPassed := r.gatesPassed) == r
    ensures r.state != Playing ==> OnGatePassed(r) == r
  {
  }

  // ---------------------------------------------------------------- sequences of calls

  /** Every way the game touches a GameState: its methods, plus the path sample and the
      coin count that the game loop writes into it directly. */
  datatype Op =
    | StartGame
    | Update(skierZ: real, speed: real)
    | End(reason: Reason)
    | Reset
    | PassGate
    | RecordSample(sample: Sample)
    | CollectCoin

  function Apply(r: Run, op: Op): (r': Run) {
    match op
    case StartGame => OnStartGame(r)
    case Update(z, speed) => OnUpdate(r, z, speed)
    case End(reason) => OnGameOver(r, reason)
    case Reset => OnReset(r)
    case PassGate => OnGatePassed(r)
    case RecordSample(s) => r.(currentRunPath := r.currentRunPath + [s])
    case CollectCoin => r.(coins := r.coins + 1)
  }

  function ApplyAll(r: Run, ops: seq<Op>): (r': Run)
    decreases |ops|
  {
    if |ops| == 0 then r else ApplyAll(Apply(r, ops[0]), ops[1..])
  }

  /** Only the first gameOver of a run touches the archive, and it never lowers it. */
  lemma ApplyKeepsBest(r: Run, op: Op)
    ensures Apply(r, op).bestDistance >= r.bestDistance
    ensures !op.End? || r.state == GameOver ==>
              Apply(r, op).bestDistance == r.bestDistance && Apply(r, op).bestRunPath == r.bestRunPath
  {
  }

  /** Whatever happens, the best distance never decreases. */
  lemma {:induction false} BestDistanceMonotone(r: Run, ops: seq<Op>)
    ensures ApplyAll(r, ops).bestDistance >= r.bestDistance
    decreases |ops|
  {
    if |ops| > 0 {
      ApplyKeepsBest(r, ops[0]);
      BestDistanceMonotone(Apply(r, ops[0]), ops[1..]);
    }
  }

  /** Distances stay non-negative, so does the best distance. */
  predicate Sound(r: Run) {
    r.distance >= 0 && r.bestDistance >= 0
  }

  lemma {:induction false} SoundPreserved(r: Run, ops: seq<Op>)
    requires Sound(r)
    ensures Sound(ApplyAll(r, ops))
    decreases |ops|
  {
    if |ops| > 0 {
      var n := Apply(r, ops[0]);
      assert Sound(n);
      SoundPreserved(n, ops[1..]);
    }
  }

  // ---------------------------------------------------------------- the class

  class GameState {
    var state: Phase
    var showingMenu: bool
    var score: int
    var distance: int
    var gatesPassed: nat
    var speed: real
    var coins: nat
    var currentRunPath: seq<Sample>
    var lastRunPath: seq<Sample>
    var bestDistance: int
    var bestRunPath: seq<Sample>
    /** The reason the game-over overlay names, while it is shown. */
    var reason: Option<Reason>

    function Snapshot(): (r: Run)
      reads this
    {
      Run(state, showingMenu, score, distance, gatesPassed, speed, coins,
          currentRunPath, lastRunPath, bestDistance, bestRunPath, reason)
    }

    constructor ()
      ensures Snapshot() == Initial
    {
      state := Playing;
      showingMenu := true;
      score := 0;
      distance := 0;
      gatesPassed := 0;
      speed := 0.0;
      coins := 0;
      currentRunPath := [];
      lastRunPath := [];
      bestDistance := 0;
      bestRunPath := [];
      reason := None;
    }

    method StartGame()
      modifies this
      ensures Snapshot() == OnStartGame(old(Snapshot()))
    {
      showingMenu := false;
    }

    method Update(skierZ: real, speed: real)
      modifies this
      ensures Snapshot() == OnUpdate(old(Snapshot()), skierZ, speed)
    {
      if state == Playing {
        var d := (-skierZ).Floor;
        distance := if d > 0 then d else 0;
        this.speed := speed;
      }
    }

    method GameOver(reason: Reason)
      modifies this
      ensures Snapshot() == OnGameOver(old(Snapshot()), reason)
    {
      if state == Phase.GameOver {
        return;
      }
      state := Phase.GameOver;
      lastRunPath := currentRunPath;
      if distance > bestDistance {
        bestDistance := distance;
        bestRunPath := currentRunPath;
      }
      currentRunPath := [];
      this.reason := Some(reason);
    }

    method Reset()
      modifies this
      ensures Snapshot() == OnReset(old(Snapshot()))
    {
      state := Playing;
      score := 0;
      distance := 0;
      gatesPassed := 0;
      speed := 0.0;
      coins := 0;
      currentRunPath := [];
      reason := None;
    }

    predicate IsPlaying()
      reads this
    {
      state == Playing
    }

    method GatePassed()
      modifies this
      ensures Snapshot() == OnGatePassed(old(Snapshot()))
    {
      if state != Playing {
        return;
      }
      gatesPassed := gatesPassed + 1;
    }
  }
}
