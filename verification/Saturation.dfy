/** Running totals that stop at zero: how far a list of changes would have sunk
    below zero is what is left over in the end. */
module Saturation {
  import opened Chain

  function Sum(s: seq<int>): int {
    if s == [] then 0 else Sum(s[..|s| - 1]) + s[|s| - 1]
  }

  // How far below zero the total would be at its lowest, from `t` on.
  function Depth(s: seq<int>, t: int): nat {
    if s == [] then 0 else
      var front, end := Depth(s[..|s| - 1], t), t + Sum(s);
      if end < 0 && 0 - end > front then 0 - end else front
  }

  // The total that stops at zero whenever it would sink below.
  function Level(s: seq<int>, t: int): int {
    t + Sum(s) + Depth(s, t)
  }

  predicate Sinks(s: seq<int>, t: int) {
    s != [] && (Sinks(s[..|s| - 1], t) || t + Sum(s) < 0)
  }

  // The total exceeds 128 bits at some point.
  predicate Exceeds(s: seq<int>, t: int) {
    s != [] && (Exceeds(s[..|s| - 1], t) || Level(s, t) > U128_MAX)
  }

  /** One change more: the total follows it and stops at zero. */
  lemma LevelStep(s: seq<int>, t: nat)
    requires s != []
    ensures var next := Level(s[..|s| - 1], t) + s[|s| - 1];
      Level(s, t) == if next < 0 then 0 else next
  {
    LevelPositive(s[..|s| - 1], t);
  }

  lemma {:induction false} LevelPositive(s: seq<int>, t: nat)
    ensures Level(s, t) >= 0
  {
    if s != [] {
      LevelPositive(s[..|s| - 1], t);
    }
  }

  /** Nothing is left over exactly when the total never sinks below zero. */
  lemma {:induction false} DepthIsSinking(s: seq<int>, t: int)
    ensures Depth(s, t) == 0 <==> !Sinks(s, t)
  {
    if s != [] {
      DepthIsSinking(s[..|s| - 1], t);
    }
  }
}
