/**
 * How the controller's output vector becomes one of the car's four
 * discrete actions: `output.index(max(output))`, then a choice by index.
 */
module Controls {

  /** The four actions a car can take in one tick. */
  datatype Action = TurnLeft | TurnRight | SlowDown | SpeedUp

  /**
   * The largest value of a non-empty vector, found by scanning it from the
   * left and keeping a value only when a strictly larger one appears.
   */
  function MaxOf(xs: seq<real>): (m: real)
    requires |xs| > 0
    ensures m in xs
    ensures forall j :: 0 <= j < |xs| ==> xs[j] <= m
  {
    if |xs| == 1 then xs[0]
    else
      var m := MaxOf(xs[..|xs| - 1]);
      if xs[|xs| - 1] > m then xs[|xs| - 1] else m
  }

  /** The first index at which `v` occurs in `xs`. */
  function IndexOf(xs: seq<real>, v: real): (k: nat)
    requires v in xs
    ensures k < |xs| && xs[k] == v
    ensures forall j :: 0 <= j < k ==> xs[j] != v
  {
    if xs[0] == v then 0 else 1 + IndexOf(xs[1..], v)
  }

  /** The index the car acts on: the first position of the maximum output. */
  function Choice(output: seq<real>): (k: nat)
    requires |output| > 0
    ensures k < |output|
  {
    IndexOf(output, MaxOf(output))
  }

  /** Index 0 turns left, 1 turns right, 2 slows down, any other speeds up. */
  function ActionOf(choice: nat): (a: Action)
    ensures a == TurnLeft <==> choice == 0
    ensures a == TurnRight <==> choice == 1
    ensures a == SlowDown <==> choice == 2
    ensures a == SpeedUp <==> choice >= 3
  {
    if choice == 0 then TurnLeft
    else if choice == 1 then TurnRight
    else if choice == 2 then SlowDown
    else SpeedUp
  }

  /**
   * The choice is the lowest index holding the maximum output, and no other
   * index is: ties go to the first of the equal maxima.
   */
  lemma ChoiceIsFirstMaximum(output: seq<real>, k: nat)
    requires |output| > 0
    ensures k == Choice(output) <==>
      && k < |output|
      && (forall j :: 0 <= j < |output| ==> output[j] <= output[k])
      && (forall j :: 0 <= j < k ==> output[j] < output[k])
  {
    var m := MaxOf(output);
    var c := Choice(output);
    assert output[c] == m;
    if k < |output| && (forall j :: 0 <= j < |output| ==> output[j] <= output[k]) {
      assert output[k] == m by {
        var i :| 0 <= i < |output| && output[i] == m;
        assert output[i] <= output[k];
      }
    }
  }
}
