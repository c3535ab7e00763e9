/** The actuation delay line: an array created as `delaySteps` zeros that
    each tick drops its first element, appends the new control output, and
    hands its (new) first element to the plant.
 */
module DelayLine {

  /** `n` zeros: the line as a run creates it. */
  function Zeros(n: nat): (z: seq<real>)
    ensures |z| == n
    ensures forall j :: 0 <= j < n ==> z[j] == 0.0
  {
    seq(n, _ => 0.0)
  }

  /** Removing the first element of an array; an empty array stays empty. */
  function Shift(b: seq<real>): (r: seq<real>)
    ensures |b| == 0 ==> r == []
    ensures |b| > 0 ==> |r| == |b| - 1
    ensures forall j :: 0 <= j < |r| ==> r[j] == b[j + 1]
  {
    if |b| == 0 then b else b[1..]
  }

  /** One tick: drop the first element and append `u`. The plant is handed
      the first element of the result, which is the line's old second
      element, or `u` itself when the line held at most one element; a line
      of any positive length keeps its length, and an empty one grows to
      length one. */
  function Push(b: seq<real>, u: real): (r: seq<real>)
    ensures |b| == 0 ==> |r| == 1
    ensures |b| > 0 ==> |r| == |b|
    ensures r[|r| - 1] == u
    ensures |b| <= 1 ==> r[0] == u
    ensures |b| > 1 ==> r[0] == b[1]
  {
    Shift(b) + [u]
  }

  /** The line after feeding it `us`, one tick per value. */
  function Line(b: seq<real>, us: seq<real>): (r: seq<real>)
    ensures |b| > 0 ==> |r| == |b|
    ensures |b| == 0 && |us| == 0 ==> |r| == 0
    ensures |b| == 0 && |us| > 0 ==> |r| == 1
    decreases |us|
  {
    if |us| == 0 then b
    else Push(Line(b, us[..|us| - 1]), us[|us| - 1])
  }

  /** Number of ticks a line created with `n` zeros holds a value back. */
  function Lag(n: nat): nat {
    if n == 0 then 0 else n - 1
  }

  /** The reference delay: `us` shifted `lag` places later, zeros first. */
  function Delayed(us: seq<real>, lag: nat): (d: seq<real>)
    ensures |d| == |us|
    ensures forall i :: 0 <= i < |us| && i < lag ==> d[i] == 0.0
    ensures forall i :: lag <= i < |us| ==> d[i] == us[i - lag]
  {
    seq(|us|, i requires 0 <= i < |us| => if i < lag then 0.0 else us[i - lag])
  }

  /** Element `j` of the input `us` preceded by `n` zeros. */
  function Padded(n: nat, us: seq<real>, j: nat): real
    requires j < n + |us|
  {
    if j < n then 0.0 else us[j - n]
  }

  /** A line created with `n >= 1` zeros always holds the last `n` values
      of the zero-prefixed input: a sliding window. */
  lemma {:induction false} Window(n: nat, us: seq<real>)
    requires n >= 1
    ensures forall j :: 0 <= j < n ==> Line(Zeros(n), us)[j] == Padded(n, us, |us| + j)
    decreases |us|
  {
    if |us| > 0 {
      var k := |us| - 1;
      var front := us[..k];
      var b := Line(Zeros(n), front);
      var after := Line(Zeros(n), us);
      assert after == Shift(b) + [us[k]];
      forall j | 0 <= j < n
        ensures after[j] == Padded(n, us, k + 1 + j)
      {
        if j < n - 1 {
          assert after[j] == b[j + 1];
          assert b[j + 1] == Padded(n, front, k + j + 1) by {
            Window(n, front);
          }
          assert Padded(n, front, k + j + 1) == Padded(n, us, k + 1 + j);
        }
      }
    }
  }

  /** A line created empty holds just the newest input once fed. */
  lemma {:induction false} EmptyLine(us: seq<real>)
    requires |us| > 0
    ensures Line([], us) == [us[|us| - 1]]
  {
    var k := |us| - 1;
    assert Line([], us) == Push(Line([], us[..k]), us[k]);
  }

  /** With a line created as `n` zeros, the value handed over at tick `i`
      (the head of the line once input `i` is pushed) is the input from
      `Lag(n)` ticks earlier, and zero before that. */
  lemma ExactLag(n: nat, us: seq<real>, i: nat)
    requires i < |us|
    ensures Line(Zeros(n), us[..i + 1])[0] == Delayed(us, Lag(n))[i]
  {
    var head := us[..i + 1];
    if n >= 1 {
      Window(n, head);
      assert Padded(n, head, i + 1) == Delayed(us, Lag(n))[i];
    } else {
      assert Zeros(n) == [];
      EmptyLine(head);
    }
  }

  /** A line created with zero or one element hands each input over at
      the tick it is computed. */
  lemma Immediate(n: nat, us: seq<real>, i: nat)
    requires n <= 1
    requires i < |us|
    ensures Line(Zeros(n), us[..i + 1])[0] == us[i]
  {
    ExactLag(n, us, i);
  }

  /** The lag spelled out for a line created with `n >= 1` zeros: tick `i`
      reads zero while `i + 1 < n` and input `i - (n - 1)` from then on. */
  lemma TapAt(n: nat, us: seq<real>, i: nat)
    requires n >= 1
    requires i < |us|
    ensures i + 1 < n ==> Line(Zeros(n), us[..i + 1])[0] == 0.0
    ensures i + 1 >= n ==> Line(Zeros(n), us[..i + 1])[0] == us[i + 1 - n]
  {
    ExactLag(n, us, i);
  }
}
