/**
 * The player ship of the space shooter minigame (Game 3): horizontal input
 * gated at the screen bounds, a fire cooldown, and enemy-bullet hits.
 *
 * Positions and times are reals.  The motion itself (`Translate`), sound,
 * pausing and the health bookkeeping of the game manager are not part of
 * this model; the pooled bullet is handed in by the caller.
 */
module Game03 {
  import opened Engine

  const MinBound: real := -7.0
  const MaxBound: real := 7.0
  /** The least time between two shots, in seconds. */
  const Cadency: real := 1.0

  const BulletEnemyTag := "Game3/BulletEnemy"

  /**
   * The horizontal input after the bound checks at position `x`: beyond a
   * bound the player cannot move further out, and every other input passes.
   */
  function GatedInput(x: real, h: real): (g: real)
    ensures g == 0.0 || g == h
    ensures MinBound <= x <= MaxBound ==> g == h
    ensures x < MinBound ==> g >= 0.0 && (h >= 0.0 ==> g == h)
    ensures x > MaxBound ==> g <= 0.0 && (h <= 0.0 ==> g == h)
  {
    if x < MinBound && h < 0.0 then 0.0
    else if x > MaxBound && h > 0.0 then 0.0
    else h
  }

  /** What the fire check reads in one frame: whether W is held, and the time. */
  datatype Tick = Tick(wHeld: bool, time: real)

  /** Whether a frame fires, given the earliest time of the next shot. */
  predicate Fires(tick: Tick, nextFire: real)
  {
    tick.wHeld && tick.time > nextFire
  }

  /** The earliest time of the next shot after the frames `ticks`, starting from `nextFire`. */
  function NextFire(nextFire: real, ticks: seq<Tick>): (r: real)
    ensures r >= nextFire
    decreases |ticks|
  {
    if ticks == [] then nextFire
    else
      var p := NextFire(nextFire, ticks[..|ticks| - 1]);
      var last := ticks[|ticks| - 1];
      if Fires(last, p) then last.time + Cadency else p
  }

  /** The times of the shots fired during `ticks`, starting from `nextFire`. */
  function ShotTimes(nextFire: real, ticks: seq<Tick>): (r: seq<real>)
    // every shot comes after the starting cooldown
    ensures forall i :: 0 <= i < |r| ==> r[i] > nextFire
    // successive shots are more than the cadency apart
    ensures forall i :: 0 <= i < |r| - 1 ==> r[i + 1] - r[i] > Cadency
    // the cooldown is set by the last shot
    ensures |r| > 0 ==> NextFire(nextFire, ticks) == r[|r| - 1] + Cadency
    ensures |r| == 0 ==> NextFire(nextFire, ticks) == nextFire
    decreases |ticks|
  {
    if ticks == [] then []
    else
      var prev := ticks[..|ticks| - 1];
      var last := ticks[|ticks| - 1];
      ShotTimes(nextFire, prev) + (if Fires(last, NextFire(nextFire, prev)) then [last.time] else [])
  }

  /** The ship component. */
  class PlayerController {
    /** The earliest time at which the next shot may fire. */
    var nextFire: real
    /** The frames seen so far. */
    ghost var ticks: seq<Tick>

    ghost predicate Valid()
      reads this
    {
      nextFire == NextFire(0.0, ticks)
    }

    /** The ship as the scene starts: it may fire at once. */
    constructor ()
      ensures Valid() && nextFire == 0.0 && ticks == []
    {
      nextFire := 0.0;
      ticks := [];
    }

    /**
     * One frame at position `x` with horizontal input `h`: `move` is the
     * input the ship moves by, `shot` whether it fired.  `bullet` is the
     * pooled bullet, if any, that a shot activates.
     */
    method Update(x: real, h: real, wHeld: bool, time: real, bullet: GameObject?) returns (move: real, shot: bool)
      requires Valid()
      modifies this`nextFire, this`ticks, bullet
      ensures Valid()
      ensures ticks == old(ticks) + [Tick(wHeld, time)]
      ensures move == GatedInput(x, h)
      ensures shot <==> wHeld && time > old(nextFire)
      ensures shot ==> nextFire == time + Cadency
      ensures !shot ==> nextFire == old(nextFire)
      ensures nextFire >= old(nextFire)
      ensures ShotTimes(0.0, ticks) == ShotTimes(0.0, old(ticks)) + (if shot then [time] else [])
      ensures bullet != null && shot ==> bullet.active
      ensures bullet != null && !shot ==> bullet.active == old(bullet.active)
    {
      move := h;
      if x < MinBound && move < 0.0 {
        move := 0.0;
      } else if x > MaxBound && move > 0.0 {
        move := 0.0;
      }

      shot := false;
      if wHeld && time > nextFire {
        nextFire := time + Cadency;
        if bullet != null {
          bullet.SetActive(true);
        }
        shot := true;
      }
      ticks := ticks + [Tick(wHeld, time)];
      assert ticks[..|ticks| - 1] == old(ticks);
    }

    /** An enemy bullet hits the ship: the bullet is put away and one health is lost. */
    method OnTriggerEnter2D(other: GameObject) returns (healthLost: int)
      modifies other
      ensures other.tag == BulletEnemyTag ==> !other.active && healthLost == 1
      ensures other.tag != BulletEnemyTag ==> other.active == old(other.active) && healthLost == 0
    {
      healthLost := 0;
      if other.tag == BulletEnemyTag {
        other.SetActive(false);
        healthLost := 1;
      }
    }
  }
}
