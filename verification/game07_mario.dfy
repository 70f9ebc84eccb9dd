/**
 * The player of the barrel-jumping minigame (Game 7): a machine over four
 * flags (dead, touching a ladder, climbing, holding the mallet).
 *
 * The raycasts of a frame (on the ground, at the top of a ladder, above a
 * ladder that can be descended) and the key presses are inputs; one
 * "grounded" value serves the whole frame.  The mallet timer and the
 * stages of the death sequence are separate events.  Motion, sound and
 * the game manager's own state are not part of this model.
 */
module Game07 {
  import opened Engine

  /** What the player reads in one frame. */
  datatype Input = Input(
    running: bool,     // the game is not paused (time scale 1)
    h: int,            // horizontal axis: -1, 0 or 1
    v: int,            // vertical axis: -1, 0 or 1
    wDown: bool,       // W pressed this frame
    sDown: bool,       // S pressed this frame
    grounded: bool,    // the ground raycast hits
    atLadderTop: bool, // the ladder-border raycast hits
    canDescend: bool)  // the descend raycast hits

  /** The four flags of the player. */
  datatype Flags = Flags(isDead: bool, inLadders: bool, climbingLadders: bool, malletMode: bool)

  /** The animator's movement flags. */
  datatype AnimFlags = AnimFlags(walking: bool, jumping: bool, climbingIdle: bool, climbingMovement: bool)

  const NoAnimation := AnimFlags(false, false, false, false)

  /** The movement flags the animator is given. */
  function AnimationFlags(h: int, v: int, grounded: bool, climbing: bool): (a: AnimFlags)
    ensures !(a.walking && a.jumping)
    ensures !(a.climbingIdle && a.climbingMovement)
    ensures climbing ==> !a.walking && !a.jumping && (a.climbingIdle || a.climbingMovement)
    ensures !climbing ==> !a.climbingIdle && !a.climbingMovement
    ensures a.walking ==> h != 0
    ensures a.climbingMovement ==> v != 0
  {
    AnimFlags(h != 0 && grounded && !climbing, !grounded && !climbing, v == 0 && climbing, v != 0 && climbing)
  }

  /** Whether the jump guard lets a jump through this frame. */
  function CanJump(f: Flags, inp: Input): (r: bool)
    ensures r ==> inp.wDown && inp.grounded
    ensures r && f.inLadders ==> f.malletMode
  {
    inp.wDown && inp.grounded && (!f.inLadders || f.malletMode)
  }

  /** What one frame decides: the climbing flag, whether a jump fires, the facing. */
  datatype Step = Step(climbing: bool, jumped: bool, facingRight: bool)

  /** One frame of `Update`, on values. */
  function UpdateStep(f: Flags, facingRight: bool, inp: Input): (r: Step)
    // a paused game or a dead player: nothing changes
    ensures !inp.running || f.isDead ==> r == Step(f.climbingLadders, false, facingRight)
    // a jump fires exactly when a live, non-climbing player passes the jump guard
    ensures r.jumped <==> inp.running && !f.isDead && !f.climbingLadders && CanJump(f, inp)
    // climbing starts exactly when a live player without the mallet presses W at a ladder
    // or S above one
    ensures !f.climbingLadders ==>
      (r.climbing <==>
        (inp.running && !f.isDead && !f.malletMode && ((inp.wDown && f.inLadders) || (inp.sDown && inp.canDescend))))
    // a climbing player stops climbing exactly at the top of the ladder
    ensures f.climbingLadders && inp.running && !f.isDead ==> r.climbing == !inp.atLadderTop
    // jumping and starting to climb in the same frame only happens when going down
    ensures r.jumped && r.climbing ==> !f.inLadders && inp.sDown && inp.canDescend
    // the player turns only while walking, towards the input
    ensures r.facingRight != facingRight ==>
      inp.running && !f.isDead && !f.climbingLadders && inp.h != 0 && r.facingRight == (inp.h > 0)
  {
    if !inp.running || f.isDead then Step(f.climbingLadders, false, facingRight)
    else if !f.climbingLadders then
      var facing := if inp.h > 0 then true else if inp.h < 0 then false else facingRight;
      var climb := !f.malletMode && ((inp.wDown && f.inLadders) || (inp.sDown && inp.canDescend));
      Step(climb, CanJump(f, inp), facing)
    else
      Step(!inp.atLadderTop, false, facingRight)
  }

  /** The tags and names the player reacts to. */
  const BarrelTag := "Game7/Barrel"
  const FlameTag := "Game7/Flame"
  const LaddersTag := "Game7/Ladders"
  const MalletTag := "Game7/Mallet"
  const JumpAreaTag := "Game7/JumpArea"
  const WinName := "WinCollider"

  /** Whether the object kills the player on contact. */
  predicate Hazard(tag: string)
  {
    tag == BarrelTag || tag == FlameTag
  }

  /** The player component. */
  class MarioMovement {
    var isDead: bool
    var inLadders: bool
    var climbingLadders: bool
    var malletMode: bool

    /** The facing: the transform's horizontal scale is 1 (right) or -1 (left). */
    var facingRight: bool
    /** The player's box collider is enabled. */
    var colliderEnabled: bool
    /** The rigidbody is kinematic (climbing, dying) rather than dynamic. */
    var kinematic: bool
    var anim: AnimFlags
    /** The animator's mallet, dying and dead flags. */
    var activateMallet: bool
    var isDying: bool
    var isDie: bool

    /** The mallet's two hit colliders, raised and lowered. */
    const topCollider: GameObject
    const rightCollider: GameObject

    ghost predicate Valid()
      reads this
    {
      topCollider != rightCollider
    }

    function State(): Flags
      reads this
    {
      Flags(isDead, inLadders, climbingLadders, malletMode)
    }

    /** The player as the scene starts: alive, off the ladders, without the mallet. */
    constructor (topCollider: GameObject, rightCollider: GameObject)
      requires topCollider != rightCollider
      ensures Valid()
      ensures State() == Flags(false, false, false, false)
      ensures this.topCollider == topCollider && this.rightCollider == rightCollider
      ensures facingRight && colliderEnabled && !kinematic && anim == NoAnimation
    {
      isDead, inLadders, climbingLadders, malletMode := false, false, false, false;
      facingRight, colliderEnabled, kinematic := true, true, false;
      anim := NoAnimation;
      activateMallet, isDying, isDie := false, false, false;
      this.topCollider, this.rightCollider := topCollider, rightCollider;
    }

    /** One frame; `jumped` tells whether the jump impulse was applied. */
    method Update(inp: Input) returns (jumped: bool)
      modifies this`climbingLadders, this`kinematic, this`facingRight, this`anim
      ensures Step(climbingLadders, jumped, facingRight) == UpdateStep(old(State()), old(facingRight), inp)
      ensures inp.running && !isDead ==> anim == AnimationFlags(inp.h, inp.v, inp.grounded, climbingLadders)
      ensures !inp.running || isDead ==> anim == old(anim)
      ensures climbingLadders != old(climbingLadders) ==> kinematic == climbingLadders
      ensures climbingLadders == old(climbingLadders) ==> kinematic == old(kinematic)
    {
      jumped := false;
      if inp.running && !isDead {
        if !climbingLadders {
          Movement(inp.h);
          jumped := Jump(inp);
          if !malletMode {
            UseLadders(inp);
          }
        } else {
          if inp.atLadderTop {
            LeaveLadders();
          }
        }
        Animation(inp.h, inp.v, inp.grounded);
      }
    }

    /** Walking turns the player towards the input. */
    method Movement(h: int)
      modifies this`facingRight
      ensures h > 0 ==> facingRight
      ensures h < 0 ==> !facingRight
      ensures h == 0 ==> facingRight == old(facingRight)
    {
      if h > 0 {
        facingRight := true;
      } else if h < 0 {
        facingRight := false;
      }
    }

    /** The jump guard: W, on the ground, and off the ladders unless the mallet is held. */
    method Jump(inp: Input) returns (jumped: bool)
      ensures jumped == CanJump(State(), inp)
    {
      jumped := false;
      if inp.wDown && inp.grounded && (!inLadders || malletMode) {
        jumped := true;
      }
    }

    /** Gets on a ladder: W at a ladder, otherwise S above one. */
    method UseLadders(inp: Input)
      modifies this`climbingLadders, this`kinematic
      ensures inp.wDown && inLadders ==> climbingLadders && kinematic
      ensures !(inp.wDown && inLadders) && inp.sDown && !old(climbingLadders) && inp.canDescend ==>
        climbingLadders && kinematic
      ensures !(inp.wDown && inLadders) && !(inp.sDown && !old(climbingLadders) && inp.canDescend) ==>
        climbingLadders == old(climbingLadders) && kinematic == old(kinematic)
    {
      if inp.wDown && inLadders {
        kinematic := true;
        climbingLadders := true;
      } else if inp.sDown && !climbingLadders && inp.canDescend {
        kinematic := true;
        climbingLadders := true;
      }
    }

    /** Gets off the ladder at its top. */
    method LeaveLadders()
      modifies this`climbingLadders, this`kinematic
      ensures !climbingLadders && !kinematic
    {
      kinematic := false;
      climbingLadders := false;
    }

    /** Sets the movement animation flags. */
    method Animation(h: int, v: int, grounded: bool)
      modifies this`anim
      ensures anim == AnimationFlags(h, v, grounded, climbingLadders)
    {
      anim := AnimationFlags(h, v, grounded, climbingLadders);
    }

    /** Raises (1) or lowers (anything else) the mallet: exactly one of its colliders is active. */
    method MalletCollider(isTopCollider: int)
      requires Valid()
      modifies topCollider, rightCollider
      ensures topCollider.active == (isTopCollider == 1)
      ensures rightCollider.active == (isTopCollider != 1)
    {
      if isTopCollider == 1 {
        topCollider.SetActive(true);
        rightCollider.SetActive(false);
      } else {
        topCollider.SetActive(false);
        rightCollider.SetActive(true);
      }
    }

    /** Puts the player back at the start, alive; the mallet flag is kept. */
    method ResetScene()
      modifies this`colliderEnabled, this`kinematic, this`inLadders, this`climbingLadders
      modifies this`isDying, this`isDie, this`facingRight, this`isDead
      ensures State() == Flags(false, false, false, old(malletMode))
      ensures colliderEnabled && !kinematic && facingRight && !isDying && !isDie
    {
      colliderEnabled := true;
      kinematic := false;
      inLadders := false;
      climbingLadders := false;
      isDying := false;
      isDie := false;
      facingRight := true;
      isDead := false;
    }

    /** Clears the movement animation flags. */
    method StopAnimation()
      modifies this`anim
      ensures anim == NoAnimation
    {
      anim := NoAnimation;
    }

    /**
     * A collision: a barrel or a flame kills the player unless the mallet
     * is held.  `died` tells whether the death sequence started (and the
     * game manager was asked to clean and stop the scene).
     */
    method OnCollisionEnter2D(other: GameObject) returns (died: bool)
      modifies this`isDead, this`colliderEnabled, this`kinematic, this`anim
      ensures died <==> Hazard(other.tag) && !malletMode
      ensures died ==> isDead && !colliderEnabled && kinematic && anim == NoAnimation
      ensures !died ==> isDead == old(isDead) && colliderEnabled == old(colliderEnabled)
      ensures !died ==> kinematic == old(kinematic) && anim == old(anim)
    {
      died := false;
      if other.tag == BarrelTag || other.tag == FlameTag {
        if malletMode {
          return;
        }
        Dying();
        died := true;
      }
    }

    /**
     * A trigger contact.  Tags are tested first, in the order ladders,
     * mallet, jump area; then the win collider's name.  `scored` and `won`
     * tell whether the game manager was told of a jumped barrel or a win.
     */
    method OnTriggerEnter2D(other: GameObject) returns (scored: bool, won: bool)
      modifies other, this`malletMode, this`activateMallet
      ensures other.tag == MalletTag ==> !other.active && malletMode && activateMallet
      ensures other.tag != MalletTag ==> other.active == old(other.active)
      ensures other.tag != MalletTag ==> malletMode == old(malletMode) && activateMallet == old(activateMallet)
      ensures scored <==> other.tag == JumpAreaTag && !climbingLadders
      ensures won <==> other.tag !in {LaddersTag, MalletTag, JumpAreaTag} && other.name == WinName && !climbingLadders
    {
      scored, won := false, false;
      if other.tag == LaddersTag {
        // only the ladder's position is recorded
      } else if other.tag == MalletTag {
        other.SetActive(false);
        MalletStart();
      } else if other.tag == JumpAreaTag {
        if !climbingLadders {
          scored := true;
        }
      } else if other.name == WinName {
        if !climbingLadders {
          won := true;
        }
      }
    }

    /** Staying at a ladder marks the player as touching it. */
    method OnTriggerStay2D(other: GameObject)
      modifies this`inLadders
      ensures other.tag == LaddersTag ==> inLadders
      ensures other.tag != LaddersTag ==> inLadders == old(inLadders)
    {
      if other.tag == LaddersTag {
        if !inLadders {
          inLadders := true;
        }
      }
    }

    /** Leaving a ladder clears the flag. */
    method OnTriggerExit2D(other: GameObject)
      modifies this`inLadders
      ensures other.tag == LaddersTag ==> !inLadders
      ensures other.tag != LaddersTag ==> inLadders == old(inLadders)
    {
      if other.tag == LaddersTag {
        inLadders := false;
      }
    }

    /** The mallet is picked up. */
    method MalletStart()
      modifies this`malletMode, this`activateMallet
      ensures malletMode && activateMallet
    {
      malletMode := true;
      activateMallet := true;
    }

    /** The mallet wears off (seven seconds after pickup): both its colliders go inactive. */
    method MalletExpire()
      requires Valid()
      modifies this`malletMode, this`activateMallet, topCollider, rightCollider
      ensures !malletMode && !activateMallet
      ensures !topCollider.active && !rightCollider.active
    {
      malletMode := false;
      activateMallet := false;
      topCollider.SetActive(false);
      rightCollider.SetActive(false);
    }

    /** The start of the death sequence: dead, no collider, no movement, no animation. */
    method Dying()
      modifies this`isDead, this`colliderEnabled, this`kinematic, this`anim
      ensures isDead && !colliderEnabled && kinematic && anim == NoAnimation
    {
      isDead := true;
      colliderEnabled := false;
      kinematic := true;
      StopAnimation();
    }

    /** One second later: the dying animation starts. */
    method DyingAnimation()
      modifies this`isDying
      ensures isDying
    {
      isDying := true;
    }

    /** Another second and a half later: the dead animation replaces it. */
    method DeadAnimation()
      modifies this`isDying, this`isDie
      ensures !isDying && isDie
    {
      isDying := false;
      isDie := true;
    }
  }

  /** A dead player's frame changes none of the flags, the facing or the animation. */
  method DeadFrameFrozen(m: MarioMovement, inp: Input) returns (jumped: bool)
    requires m.isDead
    modifies m
    ensures !jumped
    ensures m.State() == old(m.State()) && m.facingRight == old(m.facingRight)
    ensures m.anim == old(m.anim) && m.kinematic == old(m.kinematic)
  {
    jumped := m.Update(inp);
  }

  /** A barrel or a flame while the mallet is held changes nothing. */
  method MalletProtects(m: MarioMovement, other: GameObject) returns (died: bool)
    requires m.malletMode && Hazard(other.tag)
    modifies m
    ensures !died
    ensures m.State() == old(m.State()) && m.colliderEnabled == old(m.colliderEnabled)
  {
    died := m.OnCollisionEnter2D(other);
  }
}
