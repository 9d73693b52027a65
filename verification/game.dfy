/**
 The game state machine: the registry, one ball, two paddles, two one-byte
 score counters and the set of keys currently held down. Each tick moves the
 paddles, checks for a goal (respawning the ball when one is scored) and then
 advances the physics. How a paddle reacts to the held keys and how the
 physics advances are not part of this model: both are parameters of Update.
 */
module PongGame {
  import opened Options
  import opened Registry
  import opened Input
  import GamePlayer

  const BALL_SIZE: real := 20.0
  const BALL_HORIZONTAL_SPEED: real := 18.0
  const BALL_VERTICAL_SPEED: real := 10.0

  /** Where every ball, the first one and each respawned one, starts. */
  const BALL_SPAWN: Vec2 := Vec2(50.0, 50.0)

  /** A ball whose x passes either bound is a goal. */
  const RIGHT_BOUND: real := 800.0
  const LEFT_BOUND: real := 0.0

  const PLAYER_ONE_SPAWN: Vec2 := Vec2(50.0, 200.0)
  const PLAYER_TWO_SPAWN: Vec2 := Vec2(735.0, 300.0)

  /** Scores are unsigned bytes. */
  type Score = n: nat | n < 256

  datatype PongBall = PongBall(body: Handle)

  /** A paddle of the game together with the keys that drive it. */
  datatype Paddle = Paddle(player: GamePlayer.PongPlayer, upKey: Key, downKey: Key)

  datatype Game = Game(
    world: World,
    ball: PongBall,
    playerOne: Paddle,
    playerTwo: Paddle,
    playerOneScore: Score,
    playerTwoScore: Score,
    keysPressed: set<Key>
  )

  /** The body every ball is built as: a bouncy, frictionless disc launched with the spawn velocity. */
  function SpawnedBall(): Body {
    Body(BALL_SPAWN, Vec2(BALL_HORIZONTAL_SPEED, BALL_VERTICAL_SPEED), Dynamic,
         Circle(BALL_SIZE), Material(2.0, 0.0))
  }

  /** The body a paddle is built as: a still, kinematic 15 x 50 box with an inert material. */
  function PaddleBody(position: Vec2): Body {
    Body(position, Vec2(0.0, 0.0), Kinematic, Cuboid(7.5, 25.0), Material(0.0, 0.0))
  }

  /** The three entity handles are live and pairwise distinct. */
  predicate WellFormed(g: Game) {
    && g.ball.body in g.world.bodies
    && g.playerOne.player.body in g.world.bodies
    && g.playerTwo.player.body in g.world.bodies
    && g.ball.body != g.playerOne.player.body
    && g.ball.body != g.playerTwo.player.body
    && g.playerOne.player.body != g.playerTwo.player.body
  }

  /** Builds a ball in the registry at the spawn point with the spawn velocity. */
  function InitBall(w: World): (r: (World, PongBall))
    ensures r.1.body !in w.bodies
    ensures r.0.bodies.Keys == w.bodies.Keys + {r.1.body}
    ensures var b := r.0.bodies[r.1.body];
            && b.position == Vec2(50.0, 50.0)
            && b.velocity == Vec2(18.0, 10.0)
            && b.status == Dynamic
            && b.shape == Circle(20.0)
            && b.material == Material(2.0, 0.0)
    ensures forall h :: h in w.bodies ==> r.0.bodies[h] == w.bodies[h]
  {
    var (w', h) := Insert(w, SpawnedBall());
    (w', PongBall(h))
  }

  /** Builds a kinematic paddle body at `position` and binds it to the two keys. */
  function InitPlayer(w: World, position: Vec2, upKey: Key, downKey: Key): (r: (World, Paddle))
    ensures r.1.player.body !in w.bodies
    ensures r.1.upKey == upKey && r.1.downKey == downKey
    ensures r.0.bodies.Keys == w.bodies.Keys + {r.1.player.body}
    ensures var b := r.0.bodies[r.1.player.body];
            && b.position == position
            && b.velocity == Vec2(0.0, 0.0)
            && b.status == Kinematic
            && b.shape == Cuboid(7.5, 25.0)
            && b.material == Material(0.0, 0.0)
    ensures forall h :: h in w.bodies ==> r.0.bodies[h] == w.bodies[h]
  {
    var (w', h) := Insert(w, PaddleBody(position));
    (w', Paddle(GamePlayer.New(h), upKey, downKey))
  }

  /**
   A new game: no points, no keys held, the ball at its spawn point, player one
   at (50, 200) on W/S and player two at (735, 300) on Up/Down.
   */
  function New(): (g: Game)
    ensures g.playerOneScore == 0 && g.playerTwoScore == 0
    ensures g.keysPressed == {}
    ensures WellFormed(g)
    ensures g.world.bodies.Keys == {g.ball.body, g.playerOne.player.body, g.playerTwo.player.body}
    ensures g.world.bodies[g.ball.body] == SpawnedBall()
    ensures g.world.bodies[g.ball.body].position == Vec2(50.0, 50.0)
    ensures g.world.bodies[g.ball.body].velocity == Vec2(18.0, 10.0)
    ensures g.world.bodies[g.playerOne.player.body] == PaddleBody(Vec2(50.0, 200.0))
    ensures g.playerOne.upKey == W && g.playerOne.downKey == S
    ensures g.world.bodies[g.playerTwo.player.body] == PaddleBody(Vec2(735.0, 300.0))
    ensures g.playerTwo.upKey == Up && g.playerTwo.downKey == Down
  {
    var (w1, ball) := InitBall(Empty());
    var (w2, one) := InitPlayer(w1, PLAYER_ONE_SPAWN, W, S);
    var (w3, two) := InitPlayer(w2, PLAYER_TWO_SPAWN, Up, Down);
    Game(w3, ball, one, two, 0, 0, {})
  }

  /**
   A key going down joins the held set and a key going up leaves it; buttons
   that are not keyboard keys are ignored. Nothing but the held set changes.
   */
  function HandleKeyboardEvent(g: Game, args: ButtonArgs): (r: Game)
    ensures r.(keysPressed := g.keysPressed) == g
    ensures args.button.NonKeyboard? ==> r == g
    ensures args.button.Keyboard? && args.state == Press ==>
              forall k :: k in r.keysPressed <==> k in g.keysPressed || k == args.button.key
    ensures args.button.Keyboard? && args.state == Release ==>
              forall k :: k in r.keysPressed <==> k in g.keysPressed && k != args.button.key
  {
    match args.state
    case Press =>
      if args.button.Keyboard? then g.(keysPressed := g.keysPressed + {args.button.key}) else g
    case Release =>
      if args.button.Keyboard? then g.(keysPressed := g.keysPressed - {args.button.key}) else g
  }

  /** Pressing a key that is already held changes nothing. */
  lemma PressHeldKeyIsNoop(g: Game, k: Key)
    requires k in g.keysPressed
    ensures HandleKeyboardEvent(g, ButtonArgs(Press, Keyboard(k))) == g
  {
  }

  /** Releasing a key that is not held changes nothing. */
  lemma ReleaseUnheldKeyIsNoop(g: Game, k: Key)
    requires k !in g.keysPressed
    ensures HandleKeyboardEvent(g, ButtonArgs(Release, Keyboard(k))) == g
  {
  }

  /** Pressing and then releasing a key that was not held gives back the same game. */
  lemma PressThenReleaseRestores(g: Game, k: Key)
    requires k !in g.keysPressed
    ensures HandleKeyboardEvent(HandleKeyboardEvent(g, ButtonArgs(Press, Keyboard(k))),
                                ButtonArgs(Release, Keyboard(k))) == g
  {
  }

  /**
   Reference meaning of the held set: after a run of events, a key is held when
   the last keyboard event about it was a press, or, with no such event, when it
   was held before the run.
   */
  predicate Held(k: Key, initial: set<Key>, events: seq<ButtonArgs>)
    decreases |events|
  {
    if |events| == 0 then k in initial
    else
      var e := events[|events| - 1];
      if e.button == Keyboard(k) then e.state == Press
      else Held(k, initial, events[..|events| - 1])
  }

  /** Feeds a run of button events to the game, in order, as the event loop does. */
  method HandleEvents(g: Game, events: seq<ButtonArgs>) returns (r: Game)
    ensures r.(keysPressed := g.keysPressed) == g
    ensures forall k :: k in r.keysPressed <==> Held(k, g.keysPressed, events)
  {
    r := g;
    var i := 0;
    while i < |events|
      invariant 0 <= i <= |events|
      invariant r.(keysPressed := g.keysPressed) == g
      invariant forall k :: k in r.keysPressed <==> Held(k, g.keysPressed, events[..i])
    {
      r := HandleKeyboardEvent(r, events[i]);
      assert events[..i + 1][..i] == events[..i];
      i := i + 1;
    }
    assert events[..|events|] == events;
  }

  /** The ball's position: its body's translation while the body is live, None after it was removed. */
  function BallPosition(g: Game): (r: Option<Vec2>)
    ensures r.Some? <==> g.ball.body in g.world.bodies
    ensures r.Some? ==> r.value == g.world.bodies[g.ball.body].position
  {
    match Lookup(g.world, g.ball.body)
    case Some(b) => Some(b.position)
    case None => None
  }

  /** True when the ball is live and past the right bound: a point for player one. */
  predicate GoalForOne(g: Game) {
    var p := BallPosition(g);
    p.Some? && p.value.x > RIGHT_BOUND
  }

  /** True when the ball is live and past the left bound: a point for player two. */
  predicate GoalForTwo(g: Game) {
    var p := BallPosition(g);
    p.Some? && p.value.x < LEFT_BOUND
  }

  /** The counter a goal would raise is below 255, so the one-byte increment cannot overflow. */
  predicate ScoreHeadroom(g: Game) {
    && (GoalForOne(g) ==> g.playerOneScore < 255)
    && (GoalForTwo(g) ==> g.playerTwoScore < 255)
  }

  /**
   Removes the ball's body and builds a new ball at the spawn point with the
   spawn velocity. The new handle is not one of the surviving bodies; every
   surviving body, the paddles, the scores and the held keys are untouched.
   */
  function ResetBall(g: Game): (r: Game)
    ensures r.world.bodies.Keys == g.world.bodies.Keys - {g.ball.body} + {r.ball.body}
    ensures r.world.bodies[r.ball.body] == SpawnedBall()
    ensures forall h :: h in g.world.bodies && h != g.ball.body ==>
              h != r.ball.body && r.world.bodies[h] == g.world.bodies[h]
    ensures r.(world := g.world, ball := g.ball) == g
  {
    var removed := Remove(g.world, g.ball.body);
    var (w, ball) := InitBall(removed);
    g.(world := w, ball := ball)
  }

  /**
   Goal detection. A live ball beyond x = 800 scores one point for player one,
   one beyond x = 0 scores one for player two, and either goal respawns the
   ball. A ball inside [0, 800], bounds included, or a dead ball handle changes
   nothing.
   */
  function CheckGoal(g: Game): (r: Game)
    requires ScoreHeadroom(g)
    ensures BallPosition(g).None? ==> r == g
    ensures BallPosition(g).Some? && LEFT_BOUND <= BallPosition(g).value.x <= RIGHT_BOUND ==> r == g
    ensures GoalForOne(g) ==>
              && r.playerOneScore == g.playerOneScore + 1
              && r.playerTwoScore == g.playerTwoScore
              && r.(playerOneScore := g.playerOneScore) == ResetBall(g)
    ensures GoalForTwo(g) ==>
              && r.playerTwoScore == g.playerTwoScore + 1
              && r.playerOneScore == g.playerOneScore
              && r.(playerTwoScore := g.playerTwoScore) == ResetBall(g)
  {
    match BallPosition(g)
    case Some(p) =>
      if p.x > RIGHT_BOUND then
        ResetBall(g.(playerOneScore := g.playerOneScore + 1))
      else if p.x < LEFT_BOUND then
        ResetBall(g.(playerTwoScore := g.playerTwoScore + 1))
      else
        g
    case None => g
  }

  /**
   Each counter rises exactly when its goal condition holds, never by more than
   one, and at most one of them changes in a single check.
   */
  lemma GoalIff(g: Game)
    requires ScoreHeadroom(g)
    ensures var r := CheckGoal(g);
            && (r.playerOneScore == g.playerOneScore + 1 <==> GoalForOne(g))
            && (r.playerOneScore != g.playerOneScore + 1 ==> r.playerOneScore == g.playerOneScore)
            && (r.playerTwoScore == g.playerTwoScore + 1 <==> GoalForTwo(g))
            && (r.playerTwoScore != g.playerTwoScore + 1 ==> r.playerTwoScore == g.playerTwoScore)
            && (r.playerOneScore == g.playerOneScore || r.playerTwoScore == g.playerTwoScore)
  {
  }

  /** Respawning keeps the three handles live and distinct, and the paddles' bodies as they were. */
  lemma ResetBallKeepsWellFormed(g: Game)
    requires WellFormed(g)
    ensures WellFormed(ResetBall(g))
    ensures ResetBall(g).world.bodies[g.playerOne.player.body] == g.world.bodies[g.playerOne.player.body]
    ensures ResetBall(g).world.bodies[g.playerTwo.player.body] == g.world.bodies[g.playerTwo.player.body]
  {
  }

  /** Goal detection keeps the game well formed and never disturbs a paddle. */
  lemma CheckGoalKeepsWellFormed(g: Game)
    requires WellFormed(g) && ScoreHeadroom(g)
    ensures WellFormed(CheckGoal(g))
    ensures CheckGoal(g).world.bodies[g.playerOne.player.body] == g.world.bodies[g.playerOne.player.body]
    ensures CheckGoal(g).world.bodies[g.playerTwo.player.body] == g.world.bodies[g.playerTwo.player.body]
    ensures CheckGoal(g).keysPressed == g.keysPressed
  {
  }

  /** The game after both paddles have reacted to the held keys, player one first. */
  function AfterPaddles(g: Game, playerUpdate: (Paddle, World, set<Key>) -> World): Game {
    var w1 := playerUpdate(g.playerOne, g.world, g.keysPressed);
    g.(world := playerUpdate(g.playerTwo, w1, g.keysPressed))
  }

  /**
   One tick: both paddles update, then goal detection reads the ball where the
   paddle updates left it, and only then the physics step runs, on the registry
   as goal detection left it (so a respawned ball is already in place).
   */
  function Update(g: Game, playerUpdate: (Paddle, World, set<Key>) -> World, step: World -> World): (r: Game)
    requires ScoreHeadroom(AfterPaddles(g, playerUpdate))
    ensures r.keysPressed == g.keysPressed
    ensures r.playerOne == g.playerOne && r.playerTwo == g.playerTwo
    ensures var m := AfterPaddles(g, playerUpdate);
            && (r.playerOneScore == g.playerOneScore + 1 <==> GoalForOne(m))
            && (r.playerTwoScore == g.playerTwoScore + 1 <==> GoalForTwo(m))
            && (r.playerOneScore != g.playerOneScore + 1 ==> r.playerOneScore == g.playerOneScore)
            && (r.playerTwoScore != g.playerTwoScore + 1 ==> r.playerTwoScore == g.playerTwoScore)
            && (r.playerOneScore == g.playerOneScore || r.playerTwoScore == g.playerTwoScore)
    ensures var m := AfterPaddles(g, playerUpdate);
            !GoalForOne(m) && !GoalForTwo(m) ==> r == m.(world := step(m.world))
    ensures var m := AfterPaddles(g, playerUpdate);
            GoalForOne(m) || GoalForTwo(m) ==>
              r.ball == ResetBall(m).ball && r.world == step(ResetBall(m).world)
  {
    var m := AfterPaddles(g, playerUpdate);
    GoalIff(m);
    var c := CheckGoal(m);
    c.(world := step(c.world))
  }

  /**
   With paddles and physics that leave the registry alone, a tick that scores
   leaves a fresh ball at the spawn point and one more point in total.
   */
  lemma UpdateScoresThenRespawns(g: Game)
    requires ScoreHeadroom(g)
    requires GoalForOne(g) || GoalForTwo(g)
    ensures var r := Update(g, (p: Paddle, w: World, keys: set<Key>) => w, (w: World) => w);
            && BallPosition(r) == Some(BALL_SPAWN)
            && r.world.bodies[r.ball.body] == SpawnedBall()
            && r.playerOneScore + r.playerTwoScore == g.playerOneScore + g.playerTwoScore + 1
  {
  }
}
