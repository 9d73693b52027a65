/**
 The earlier paddle wrapper over the registry. It has the same shape as the
 later one but the opposite sign convention: moving up increases y and moving
 down decreases it.
 */
module LegacyPlayer {
  import opened Registry
  import GamePlayer

  /** Pixels a paddle travels per move. */
  const PLAYER_SPEED: real := 5.0

  datatype PongPlayer = PongPlayer(body: Handle)

  /** A player wraps exactly the handle it is given. */
  function New(body: Handle): (p: PongPlayer)
    ensures p.body == body
  {
    PongPlayer(body)
  }

  /**
   Sets the player's body to (x, y + 5): the x coordinate, the body's other
   attributes, every other body and the player's own handle stay as they were.
   */
  function MoveUp(p: PongPlayer, w: World): (r: (PongPlayer, World))
    ensures r.0 == p
    ensures r.1.bodies.Keys == w.bodies.Keys
    ensures p.body !in w.bodies ==> r.1 == w
    ensures p.body in w.bodies ==>
              var b := w.bodies[p.body];
              r.1.bodies[p.body] == b.(position := Vec2(b.position.x, b.position.y + 5.0))
    ensures forall h :: h in w.bodies && h != p.body ==> r.1.bodies[h] == w.bodies[h]
  {
    (p, ShiftY(w, p.body, PLAYER_SPEED))
  }

  /** Sets the player's body to (x, y - 5), with the same framing as MoveUp. */
  function MoveDown(p: PongPlayer, w: World): (r: (PongPlayer, World))
    ensures r.0 == p
    ensures r.1.bodies.Keys == w.bodies.Keys
    ensures p.body !in w.bodies ==> r.1 == w
    ensures p.body in w.bodies ==>
              var b := w.bodies[p.body];
              r.1.bodies[p.body] == b.(position := Vec2(b.position.x, b.position.y - 5.0))
    ensures forall h :: h in w.bodies && h != p.body ==> r.1.bodies[h] == w.bodies[h]
  {
    (p, ShiftY(w, p.body, -PLAYER_SPEED))
  }

  /** Over the reals, a move up followed by a move down restores the registry. */
  lemma UpThenDownRestores(p: PongPlayer, w: World)
    ensures var u := MoveUp(p, w); MoveDown(u.0, u.1) == (p, w)
  {
    ShiftYInverse(w, p.body, PLAYER_SPEED);
  }

  /** ... and so does a move down followed by a move up. */
  lemma DownThenUpRestores(p: PongPlayer, w: World)
    ensures var d := MoveDown(p, w); MoveUp(d.0, d.1) == (p, w)
  {
    ShiftYInverse(w, p.body, -PLAYER_SPEED);
  }

  /**
   The two generations of the paddle disagree on direction: this version's
   move up is the later version's move down, on every registry.
   */
  lemma OppositeToLaterVersion(p: PongPlayer, w: World)
    ensures MoveUp(p, w).1 == GamePlayer.MoveDown(GamePlayer.PongPlayer(p.body), w).1
    ensures MoveDown(p, w).1 == GamePlayer.MoveUp(GamePlayer.PongPlayer(p.body), w).1
  {
  }
}
