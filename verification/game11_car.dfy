/**
 * The lap checkpoint machine of the racing minigame (Game 11).
 *
 * The car must pass the trigger colliders "Point1" … "Point6" in this
 * order; `nextPoint` names the one it must touch next.  Touching "Point6"
 * when it is due completes a lap: the counter wraps to 1 and the lap timer
 * is reset.  Physics, steering and sound are not part of this model.
 */
module Game11 {

  /** The names of the six checkpoint colliders, in lap order. */
  const Points: seq<string> := ["Point1", "Point2", "Point3", "Point4", "Point5", "Point6"]

  /** Which checkpoint the collider called `name` is (1 … 6), or 0 for any other object. */
  function Checkpoint(name: string): (k: int)
    ensures 0 <= k <= 6
    ensures k != 0 <==> name in Points
    ensures k != 0 ==> Points[k - 1] == name
  {
    if name == "Point1" then 1
    else if name == "Point2" then 2
    else if name == "Point3" then 3
    else if name == "Point4" then 4
    else if name == "Point5" then 5
    else if name == "Point6" then 6
    else 0
  }

  /** What one trigger contact does: the new `nextPoint` and whether the timer is reset. */
  datatype Touch = Touch(nextPoint: int, resetTimer: bool)

  /**
   * The if / else-if chain of the trigger handler, on values: the branch
   * taken is the one whose checkpoint is both touched and due.
   */
  function OnTrigger(nextPoint: int, name: string): (r: Touch)
    // the counter stays within the six checkpoints
    ensures 1 <= nextPoint <= 6 ==> 1 <= r.nextPoint <= 6
    // the due checkpoint (other than the last) advances the counter by one
    ensures 1 <= nextPoint < 6 && name == Points[nextPoint - 1] ==> r == Touch(nextPoint + 1, false)
    // the last checkpoint, when due, wraps to the first and resets the timer
    ensures nextPoint == 6 && name == "Point6" ==> r == Touch(1, true)
    // any other contact changes nothing
    ensures !(1 <= nextPoint <= 6 && name == Points[nextPoint - 1]) ==> r == Touch(nextPoint, false)
    // only the completed lap resets the timer
    ensures r.resetTimer <==> nextPoint == 6 && name == "Point6"
  {
    var k := Checkpoint(name);
    if k == nextPoint && k == 6 then Touch(1, true)
    else if k == nextPoint && k != 0 then Touch(k + 1, false)
    else Touch(nextPoint, false)
  }

  /** The counter after a sequence of trigger contacts, starting from `p`. */
  function Replay(p: int, t: seq<string>): (r: int)
    ensures 1 <= p <= 6 ==> 1 <= r <= 6
    decreases |t|
  {
    if t == [] then p else OnTrigger(Replay(p, t[..|t| - 1]), t[|t| - 1]).nextPoint
  }

  /** No contact of `t`, replayed from `p`, resets the timer. */
  ghost predicate NoReset(p: int, t: seq<string>)
    decreases |t|
  {
    t == [] || (NoReset(p, t[..|t| - 1]) && !OnTrigger(Replay(p, t[..|t| - 1]), t[|t| - 1]).resetTimer)
  }

  /**
   * `idx` picks positions of `t`, strictly increasing, at which the
   * checkpoints Point1, Point2, … were touched in this order.
   */
  ghost predicate InOrder(t: seq<string>, idx: seq<int>)
  {
    && |idx| <= 6
    && (forall j :: 0 <= j < |idx| ==> 0 <= idx[j] < |t| && Checkpoint(t[idx[j]]) == j + 1)
    && (forall j, k :: 0 <= j < k < |idx| ==> idx[j] < idx[k])
  }

  /** Point1 … Point6 all appear in `t`, in this order. */
  ghost predicate FullLap(t: seq<string>)
  {
    exists idx :: |idx| == 6 && InOrder(t, idx)
  }

  /** Appending a contact keeps an in-order selection valid. */
  lemma InOrderWiden(u: seq<string>, x: string, idx: seq<int>)
    requires InOrder(u, idx)
    ensures InOrder(u + [x], idx)
  {
    forall j | 0 <= j < |idx|
      ensures (u + [x])[idx[j]] == u[idx[j]]
    {
    }
  }

  /** Appending the next due checkpoint extends an in-order selection by one. */
  lemma InOrderExtend(u: seq<string>, x: string, idx: seq<int>)
    requires InOrder(u, idx) && |idx| < 6 && Checkpoint(x) == |idx| + 1
    ensures InOrder(u + [x], idx + [|u|])
  {
    InOrderWiden(u, x, idx);
  }

  /** One contact that does not reset the timer extends the witness of progress, if it is due. */
  lemma ProgressStep(u: seq<string>, x: string, prev: seq<int>) returns (idx: seq<int>)
    requires 1 <= Replay(1, u) <= 6 && !OnTrigger(Replay(1, u), x).resetTimer
    requires |prev| == Replay(1, u) - 1 && InOrder(u, prev)
    ensures |idx| == OnTrigger(Replay(1, u), x).nextPoint - 1 && InOrder(u + [x], idx)
  {
    if Replay(1, u) < 6 && Checkpoint(x) == Replay(1, u) {
      InOrderExtend(u, x, prev);
      idx := prev + [|u|];
    } else {
      InOrderWiden(u, x, prev);
      idx := prev;
    }
  }

  /**
   * Without a reset, the counter minus one checkpoints have been touched
   * in order: a witness of the progress made so far.
   */
  lemma {:induction false} ProgressWitness(t: seq<string>) returns (idx: seq<int>)
    requires NoReset(1, t)
    ensures |idx| == Replay(1, t) - 1 && InOrder(t, idx)
    decreases |t|
  {
    if t == [] {
      idx := [];
    } else {
      var u, x := t[..|t| - 1], t[|t| - 1];
      assert t == u + [x];
      var prev := ProgressWitness(u);
      idx := ProgressStep(u, x, prev);
    }
  }

  /**
   * Dropping the last contact from an in-order selection: either the
   * selection did not use it, or it was the selection's last checkpoint.
   */
  lemma InOrderShrink(u: seq<string>, x: string, idx: seq<int>) returns (prev: seq<int>)
    requires InOrder(u + [x], idx)
    ensures InOrder(u, prev)
    ensures |prev| == |idx| || (|prev| == |idx| - 1 && Checkpoint(x) == |idx|)
  {
    if |idx| > 0 && idx[|idx| - 1] == |u| {
      prev := idx[..|idx| - 1];
      forall j | 0 <= j < |prev|
        ensures 0 <= prev[j] < |u| && Checkpoint(u[prev[j]]) == j + 1
      {
        assert idx[j] < idx[|idx| - 1];
        assert (u + [x])[idx[j]] == u[idx[j]];
      }
      assert (u + [x])[|u|] == x;
    } else {
      prev := idx;
      forall j | 0 <= j < |idx|
        ensures 0 <= idx[j] < |u| && Checkpoint(u[idx[j]]) == j + 1
      {
        assert idx[j] <= idx[|idx| - 1];
        assert (u + [x])[idx[j]] == u[idx[j]];
      }
    }
  }

  /**
   * Without a reset, no in-order run of checkpoints is longer than the
   * counter records: the counter is exactly the progress made.
   */
  lemma {:induction false} ProgressMaximal(t: seq<string>, idx: seq<int>)
    requires NoReset(1, t) && InOrder(t, idx)
    ensures |idx| <= Replay(1, t) - 1
    decreases |t|
  {
    assert |idx| == 0 || idx[0] < |t|;
    if t != [] {
      var u, x := t[..|t| - 1], t[|t| - 1];
      assert t == u + [x];
      var prev := InOrderShrink(u, x, idx);
      ProgressMaximal(u, prev);
      var p := Replay(1, u);
      assert !OnTrigger(p, x).resetTimer;
      if |idx| == |prev| + 1 && |prev| == p - 1 {
        assert Checkpoint(x) == p;
      }
    }
  }

  /** A timer reset happens only once Point1 … Point6 have been touched in order. */
  lemma ResetAfterFullLap(t: seq<string>, x: string)
    requires NoReset(1, t) && OnTrigger(Replay(1, t), x).resetTimer
    ensures FullLap(t + [x])
  {
    var idx := ProgressWitness(t);
    var full := idx + [|t|];
    assert InOrder(t + [x], full);
  }

  /** The car component: the checkpoint counter and the lap timer it drives. */
  class CarMovement {
    /** The checkpoint that must be touched next (1 … 6). */
    var nextPoint: int
    /** How many times the lap timer has been reset. */
    var timerResets: nat
    /** The contacts since the last reset of the timer or the last enable. */
    ghost var lapSoFar: seq<string>

    ghost predicate Valid()
      reads this
    {
      && 1 <= nextPoint <= 6
      && NoReset(1, lapSoFar)
      && nextPoint == Replay(1, lapSoFar)
    }

    constructor ()
      ensures Valid() && nextPoint == 1 && timerResets == 0 && lapSoFar == []
    {
      nextPoint := 1;
      timerResets := 0;
      lapSoFar := [];
    }

    /** Enabling the car restarts the sequence at checkpoint 1. */
    method OnEnable()
      modifies this
      ensures Valid() && nextPoint == 1 && lapSoFar == []
      ensures timerResets == old(timerResets)
    {
      nextPoint := 1;
      lapSoFar := [];
    }

    /** The car enters the trigger collider of the object called `name`. */
    method OnTriggerEnter2D(name: string)
      requires Valid()
      modifies this
      ensures Valid()
      ensures nextPoint == OnTrigger(old(nextPoint), name).nextPoint
      ensures timerResets == old(timerResets) + (if OnTrigger(old(nextPoint), name).resetTimer then 1 else 0)
      ensures timerResets != old(timerResets) ==> FullLap(old(lapSoFar) + [name]) && lapSoFar == []
      ensures timerResets == old(timerResets) ==> lapSoFar == old(lapSoFar) + [name]
    {
      ghost var t := lapSoFar + [name];
      assert t[..|t| - 1] == lapSoFar;
      if name == "Point1" && nextPoint == 1 {
        nextPoint := 2;
      } else if name == "Point2" && nextPoint == 2 {
        nextPoint := 3;
      } else if name == "Point3" && nextPoint == 3 {
        nextPoint := 4;
      } else if name == "Point4" && nextPoint == 4 {
        nextPoint := 5;
      } else if name == "Point5" && nextPoint == 5 {
        nextPoint := 6;
      } else if name == "Point6" && nextPoint == 6 {
        nextPoint := 1;
        ResetAfterFullLap(lapSoFar, name);
        timerResets := timerResets + 1;
      }
      if timerResets != old(timerResets) {
        lapSoFar := [];
      } else {
        lapSoFar := t;
      }
    }
  }
}
