/**
 The first, physics-free version of the game: two paddles and a ball as plain
 coordinates. Every event of the window's loop first advances the ball by its
 velocity; a key press of A or S then moves the left paddle and a press of K or
 L the right one, by 5 units, with y growing upwards for "up".
 */
module Standalone {
  import opened Options
  import opened Input

  datatype Player = Player(xPos: real, yPos: real)

  datatype Ball = Ball(xPos: real, yPos: real, xVelocity: real, yVelocity: real)

  /** What the window's loop can hand over: a button event, or anything else (a render or idle tick). */
  datatype Event = ButtonEvent(args: ButtonArgs) | OtherEvent

  datatype State = State(player1: Player, player2: Player, ball: Ball)

  function NewPlayer(xPos: real, yPos: real): (p: Player)
    ensures p.xPos == xPos && p.yPos == yPos
  {
    Player(xPos, yPos)
  }

  /** Raises the paddle by 5 and keeps its column. */
  function MoveUp(p: Player): (r: Player)
    ensures r.xPos == p.xPos
    ensures r.yPos - p.yPos == 5.0
  {
    p.(yPos := p.yPos + 5.0)
  }

  /** Lowers the paddle by 5 and keeps its column. */
  function MoveDown(p: Player): (r: Player)
    ensures r.xPos == p.xPos
    ensures p.yPos - r.yPos == 5.0
  {
    p.(yPos := p.yPos - 5.0)
  }

  /** Over the reals the two moves undo each other, in either order. */
  lemma MovesCancel(p: Player)
    ensures MoveDown(MoveUp(p)) == p
    ensures MoveUp(MoveDown(p)) == p
  {
  }

  /** A new ball sits at the given point and drifts right at 0.05 per event. */
  function NewBall(xPos: real, yPos: real): (b: Ball)
    ensures b.xPos == xPos && b.yPos == yPos
    ensures b.xVelocity == 0.05 && b.yVelocity == 0.0
  {
    Ball(xPos, yPos, 0.05, 0.0)
  }

  /** Moves the ball by its velocity, which itself stays as it was. */
  function UpdatePos(b: Ball): (r: Ball)
    ensures r.xVelocity == b.xVelocity && r.yVelocity == b.yVelocity
    ensures r.xPos - b.xPos == b.xVelocity && r.yPos - b.yPos == b.yVelocity
  {
    b.(xPos := b.xPos + b.xVelocity, yPos := b.yPos + b.yVelocity)
  }

  /** The ball after `n` successive position updates. */
  function Advance(b: Ball, n: nat): Ball
  {
    if n == 0 then b else UpdatePos(Advance(b, n - 1))
  }

  /** Updating the position n times moves the ball by n times its velocity. */
  lemma {:induction false} AdvanceDisplacement(b: Ball, n: nat)
    ensures Advance(b, n).xVelocity == b.xVelocity && Advance(b, n).yVelocity == b.yVelocity
    ensures Advance(b, n).xPos == b.xPos + (n as real) * b.xVelocity
    ensures Advance(b, n).yPos == b.yPos + (n as real) * b.yVelocity
  {
    if n > 0 {
      AdvanceDisplacement(b, n - 1);
    }
  }

  /** The state before the first event: paddles at (50, 380) and (750, 380), the ball at (400, 400). */
  function Initial(): (s: State)
    ensures s.player1 == Player(50.0, 380.0)
    ensures s.player2 == Player(750.0, 380.0)
    ensures s.ball == Ball(400.0, 400.0, 0.05, 0.0)
  {
    State(NewPlayer(50.0, 380.0), NewPlayer(750.0, 380.0), NewBall(400.0, 400.0))
  }

  /** The button an event pressed, if it is a press at all. */
  function PressArgs(e: Event): Option<Button> {
    if e.ButtonEvent? && e.args.state == Press then Some(e.args.button) else None
  }

  predicate Pressed(e: Event, k: Key) {
    PressArgs(e) == Some(Keyboard(k))
  }

  /**
   The key dispatch of the loop: four independent checks, in the order A, S, K,
   L, each moving one paddle when the event is a press of its key.
   */
  function Dispatch(s: State, e: Event): (r: State)
    ensures r.ball == s.ball
    ensures Pressed(e, A) ==> r.player1 == MoveDown(s.player1) && r.player2 == s.player2
    ensures Pressed(e, S) ==> r.player1 == MoveUp(s.player1) && r.player2 == s.player2
    ensures Pressed(e, K) ==> r.player2 == MoveUp(s.player2) && r.player1 == s.player1
    ensures Pressed(e, L) ==> r.player2 == MoveDown(s.player2) && r.player1 == s.player1
    ensures !Pressed(e, A) && !Pressed(e, S) && !Pressed(e, K) && !Pressed(e, L) ==> r == s
  {
    var s1 := if Pressed(e, A) then s.(player1 := MoveDown(s.player1)) else s;
    var s2 := if Pressed(e, S) then s1.(player1 := MoveUp(s1.player1)) else s1;
    var s3 := if Pressed(e, K) then s2.(player2 := MoveUp(s2.player2)) else s2;
    if Pressed(e, L) then s3.(player2 := MoveDown(s3.player2)) else s3
  }

  /**
   One pass of the loop: the ball moves, then the event is dispatched. The two
   do not interact: the paddles end up as a dispatch on the unmoved ball would
   leave them.
   */
  function Frame(s: State, e: Event): (r: State)
    ensures r.ball == UpdatePos(s.ball)
    ensures r.player1 == Dispatch(s, e).player1 && r.player2 == Dispatch(s, e).player2
    ensures r.player1.xPos == s.player1.xPos && r.player2.xPos == s.player2.xPos
  {
    Dispatch(s.(ball := UpdatePos(s.ball)), e)
  }

  /** How many of the events are presses of `k`. */
  function PressCount(events: seq<Event>, k: Key): nat
  {
    if |events| == 0 then 0
    else PressCount(events[..|events| - 1], k) + (if Pressed(events[|events| - 1], k) then 1 else 0)
  }

  /**
   Runs the loop over a sequence of events. The ball ends up moved by one
   velocity per event; each paddle ends up 5 units higher per press of its up
   key and 5 units lower per press of its down key, in its own column.
   */
  method Run(s: State, events: seq<Event>) returns (r: State)
    ensures r.ball == Advance(s.ball, |events|)
    ensures r.ball.xPos == s.ball.xPos + (|events| as real) * s.ball.xVelocity
    ensures r.player1.xPos == s.player1.xPos
    ensures r.player1.yPos == s.player1.yPos + 5.0 * ((PressCount(events, S) - PressCount(events, A)) as real)
    ensures r.player2.xPos == s.player2.xPos
    ensures r.player2.yPos == s.player2.yPos + 5.0 * ((PressCount(events, K) - PressCount(events, L)) as real)
  {
    r := s;
    var i := 0;
    while i < |events|
      invariant 0 <= i <= |events|
      invariant r.ball == Advance(s.ball, i)
      invariant r.player1.xPos == s.player1.xPos
      invariant r.player1.yPos == s.player1.yPos + 5.0 * ((PressCount(events[..i], S) - PressCount(events[..i], A)) as real)
      invariant r.player2.xPos == s.player2.xPos
      invariant r.player2.yPos == s.player2.yPos + 5.0 * ((PressCount(events[..i], K) - PressCount(events[..i], L)) as real)
    {
      r := Frame(r, events[i]);
      assert events[..i + 1][..i] == events[..i];
      i := i + 1;
    }
    assert events[..|events|] == events;
    AdvanceDisplacement(s.ball, |events|);
  }
}
