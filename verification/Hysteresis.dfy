/** The guard's temperature: a two-field machine, and what it means over the whole history of samples. */
module Hysteresis {
  datatype Decider = Decider(hot: bool, streak: nat)

  const COLD := Decider(false, 0)

  /** One sample. */
  function Observe(d: Decider, util: real, high: real, low: real): Decider {
    var crossed := (!d.hot && util > high) || (d.hot && util < low);
    var streak := if crossed then d.streak + 1 else 0;
    if streak >= 2 then Decider(!d.hot, 0) else Decider(d.hot, streak)
  }

  /** The machine after a whole history, from cold. */
  function Observed(s: seq<real>, high: real, low: real): Decider {
    if s == [] then COLD else Observe(Observed(s[..|s| - 1], high, low), s[|s| - 1], high, low)
  }

  predicate HighPair(s: seq<real>, i: nat, high: real)
    requires 1 <= i < |s|
  {
    s[i - 1] > high && s[i] > high
  }

  predicate LowPair(s: seq<real>, i: nat, low: real)
    requires 1 <= i < |s|
  {
    s[i - 1] < low && s[i] < low
  }

  /** The latest adjacent pair wholly beyond a threshold was beyond the high one. */
  predicate Hot(s: seq<real>, high: real, low: real) {
    exists i :: 1 <= i < |s| && HighPair(s, i, high) && forall j :: i < j < |s| ==> !LowPair(s, j, low)
  }

  lemma HotStep(s: seq<real>, high: real, low: real)
    requires |s| >= 2 && low < high
    ensures Hot(s, high, low) <==>
            HighPair(s, |s| - 1, high) || (Hot(s[..|s| - 1], high, low) && !LowPair(s, |s| - 1, low))
  {
    var n := |s| - 1;
    var t := s[..n];
    assert forall i :: 1 <= i < n ==>
      HighPair(t, i, high) == HighPair(s, i, high) && LowPair(t, i, low) == LowPair(s, i, low);
    if Hot(s, high, low) && !HighPair(s, n, high) {
      var i :| 1 <= i < |s| && HighPair(s, i, high) && forall j :: i < j < |s| ==> !LowPair(s, j, low);
      assert HighPair(t, i, high);
      assert forall j :: i < j < n ==> !LowPair(s, j, low);
    }
    if Hot(t, high, low) && !LowPair(s, n, low) {
      var i :| 1 <= i < |t| && HighPair(t, i, high) && forall j :: i < j < |t| ==> !LowPair(t, j, low);
      assert HighPair(s, i, high);
      assert forall j :: i < j < n ==> !LowPair(t, j, low);
    }
  }

  /** The machine refines the history: for every sample sequence it is hot exactly when the latest pair
      beyond a threshold was beyond the high one, and its streak only remembers the last sample. */
  lemma {:induction false} DeciderMeansHistory(s: seq<real>, high: real, low: real)
    requires low < high
    ensures var d := Observed(s, high, low);
            && d.hot == Hot(s, high, low)
            && d.streak == if s != [] && (if d.hot then s[|s| - 1] < low else s[|s| - 1] > high) then 1 else 0
  {
    if s != [] {
      var t := s[..|s| - 1];
      DeciderMeansHistory(t, high, low);
      if t != [] {
        HotStep(s, high, low);
        assert t[|t| - 1] == s[|s| - 2];
      }
    }
  }

  predicate Flips(s: seq<real>, i: nat, high: real, low: real)
    requires i < |s|
  {
    Observed(s[..i], high, low).hot != Observed(s[..i + 1], high, low).hot
  }

  /** The temperature never flips on two samples in a row, nor on the first one. */
  lemma FlipsAreApart(s: seq<real>, i: nat, j: nat, high: real, low: real)
    requires low < high && i < j < |s| && Flips(s, i, high, low) && Flips(s, j, high, low)
    ensures i >= 1 && j - i >= 2
  {
    FlipReadsTwoSamples(s, i, high, low);
    FlipReadsTwoSamples(s, j, high, low);
    assert s[..i + 1][..i] == s[..i];
  }

  lemma FlipReadsTwoSamples(s: seq<real>, i: nat, high: real, low: real)
    requires low < high && i < |s| && Flips(s, i, high, low)
    ensures i >= 1
    ensures if Observed(s[..i], high, low).hot then LowPair(s, i, low) else HighPair(s, i, high)
  {
    DeciderMeansHistory(s[..i], high, low);
    assert s[..i + 1][..i] == s[..i];
    assert Observed(s[..i + 1], high, low) == Observe(Observed(s[..i], high, low), s[i], high, low);
  }
}
