/**
 * Measures and their pulse patterns, and the pure parts of the editing
 * handlers of the step sequencer (script.js).
 */
module Pattern {

  /** Largest subdivision count the subdivisions input accepts. */
  const MaxSubdivisions := 16

  /** Pulse states as a pattern stores them. */
  const Silent := 0
  const Accent := 1
  const Strong := 2

  /** One measure: how many pulses it has and the state of each pulse. */
  datatype Measure = Measure(subdivisions: int, pattern: seq<int>)

  predicate IsPulseState(s: int) {
    Silent <= s <= Strong
  }

  /** The shape every measure the application creates or edits has. */
  predicate WellFormed(m: Measure) {
    1 <= m.subdivisions <= MaxSubdivisions &&
    |m.pattern| == m.subdivisions &&
    forall i :: 0 <= i < |m.pattern| ==> IsPulseState(m.pattern[i])
  }

  /** The measure the "add measure" button appends and a fresh session starts with. */
  function DefaultMeasure(): (m: Measure)
    ensures WellFormed(m)
  {
    Measure(4, [Strong, Accent, Accent, Accent])
  }

  /**
   * The pattern after the subdivision count is set to `n`: grown with
   * accented pulses, or cut from the tail.
   */
  function Resized(pattern: seq<int>, n: nat): (r: seq<int>)
    ensures |r| == n
    ensures forall i :: 0 <= i < n && i < |pattern| ==> r[i] == pattern[i]
    ensures forall i :: |pattern| <= i < n ==> r[i] == Accent
  {
    if n > |pattern| then pattern + seq(n - |pattern|, _ => Accent)
    else pattern[..n]
  }

  /** Cutting a pattern back to its old length after growing it loses nothing. */
  lemma GrowThenShrink(pattern: seq<int>, n: nat)
    requires |pattern| <= n
    ensures Resized(Resized(pattern, n), |pattern|) == pattern
  {
    var grown := Resized(pattern, n);
    assert Resized(grown, |pattern|) == grown[..|pattern|];
  }

  /** Resizing a well-formed measure to an accepted count gives a well-formed measure. */
  lemma ResizeKeepsWellFormed(m: Measure, n: int)
    requires WellFormed(m) && 1 <= n <= MaxSubdivisions
    ensures WellFormed(Measure(n, Resized(m.pattern, n)))
  {
  }

  /** The next state of a clicked pulse: silent, accent, strong, silent again. */
  function Rotated(s: int): (r: int)
    requires IsPulseState(s)
    ensures IsPulseState(r) && r != s
  {
    (s + 1) % 3
  }

  /** Three clicks bring a pulse back to where it was, through both other states. */
  lemma RotationCycle(s: int)
    requires IsPulseState(s)
    ensures Rotated(Rotated(Rotated(s))) == s
    ensures Rotated(s) != Rotated(Rotated(s))
    ensures s == Silent ==> Rotated(s) == Accent
    ensures s == Accent ==> Rotated(s) == Strong
    ensures s == Strong ==> Rotated(s) == Silent
  {
  }

  /** The measures after the one at index `i` is spliced out. */
  function Removed(ms: seq<Measure>, i: int): (r: seq<Measure>)
    requires 0 <= i < |ms|
    ensures |r| == |ms| - 1
    ensures forall k :: 0 <= k < i ==> r[k] == ms[k]
    ensures forall k :: i <= k < |r| ==> r[k] == ms[k + 1]
  {
    ms[..i] + ms[i + 1..]
  }

  /** The index of the measure open in the editor once measure `removed` is gone. */
  function EditingAfterRemoval(editing: int, removed: int): (e: int)
    ensures 0 <= removed && -1 <= editing ==>
      -1 <= e && (e == -1 <==> editing == -1 || editing == removed)
    ensures e != -1 && e != editing ==> removed < editing && e == editing - 1
    ensures 0 <= removed < editing ==> e == editing - 1
    ensures editing < removed ==> e == editing
  {
    if editing == removed then -1
    else if editing > removed then editing - 1
    else editing
  }

  /**
   * After a removal the editor is closed exactly when it showed the removed
   * measure (or nothing), and otherwise still shows the same measure: an
   * index above the removed one moves down by one, and a lower one is kept.
   */
  lemma EditorFollowsRemoval(ms: seq<Measure>, removed: int, editing: int)
    requires 0 <= removed < |ms|
    requires -1 <= editing < |ms|
    ensures var e := EditingAfterRemoval(editing, removed);
      -1 <= e < |ms| - 1 &&
      (e == -1 <==> editing == -1 || editing == removed) &&
      (e != -1 ==> e == (if editing > removed then editing - 1 else editing)) &&
      (e != -1 ==> Removed(ms, removed)[e] == ms[editing])
  {
  }
}
