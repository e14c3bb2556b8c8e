/**
 * `setStatus` of public/app.js: the orb's class list keeps every class that
 * does not start with `state-` and ends with exactly one `state-<s>` class.
 */
module Status {

  /** The states the page passes to `setStatus`. */
  datatype OrbState = Idle | Connecting | Analyzing | Speaking | Listening | Error {
    function Name(): string {
      match this
      case Idle => "idle"
      case Connecting => "connecting"
      case Analyzing => "analyzing"
      case Speaking => "speaking"
      case Listening => "listening"
      case Error => "error"
    }
  }

  const StatePrefix: string := "state-"

  /** `cls.startsWith("state-")`. */
  predicate IsStateClass(cls: string) {
    |StatePrefix| <= |cls| && cls[..|StatePrefix|] == StatePrefix
  }

  function StateClass(s: OrbState): (cls: string)
    ensures IsStateClass(cls)
  {
    StatePrefix + s.Name()
  }

  /** The `keepClasses` loop: the non-state classes, in their order. */
  function KeepClasses(classes: seq<string>): seq<string> {
    if classes == [] then []
    else if IsStateClass(classes[|classes| - 1]) then KeepClasses(classes[..|classes| - 1])
    else KeepClasses(classes[..|classes| - 1]) + [classes[|classes| - 1]]
  }

  /** The class list after `setStatus(s, …)`. */
  function SetStatusClasses(classes: seq<string>, s: OrbState): seq<string> {
    KeepClasses(classes) + [StateClass(s)]
  }

  /** The filter keeps exactly the classes that are not state classes. */
  lemma {:induction false} KeepClassesFilters(classes: seq<string>)
    ensures var kept := KeepClasses(classes);
      && |kept| <= |classes|
      && (forall i :: 0 <= i < |kept| ==> !IsStateClass(kept[i]))
      && forall c :: c in kept <==> c in classes && !IsStateClass(c)
    decreases |classes|
  {
    if classes != [] {
      var init, c := classes[..|classes| - 1], classes[|classes| - 1];
      KeepClassesFilters(init);
      assert classes == init + [c];
    }
  }

  /** After `setStatus(s, …)` exactly one state class shows, `state-<s>`, and
      it is the last class. */
  lemma SetStatusShowsOne(classes: seq<string>, s: OrbState)
    ensures var r := SetStatusClasses(classes, s);
      && |r| >= 1 && r[|r| - 1] == StateClass(s)
      && forall i :: 0 <= i < |r| - 1 ==> !IsStateClass(r[i])
  {
    KeepClassesFilters(classes);
  }

  /** One more class: it is kept exactly when it is not a state class. */
  lemma KeepClassesSnoc(s: seq<string>, c: string)
    ensures KeepClasses(s + [c]) == KeepClasses(s) + (if IsStateClass(c) then [] else [c])
  {
    assert (s + [c])[..|s + [c]| - 1] == s;
  }

  lemma {:induction false} KeepClassesAppend(a: seq<string>, b: seq<string>)
    ensures KeepClasses(a + b) == KeepClasses(a) + KeepClasses(b)
    decreases |b|
  {
    if b == [] {
      assert a + b == a;
    } else {
      var init, c := b[..|b| - 1], b[|b| - 1];
      var tail := if IsStateClass(c) then [] else [c];
      assert b == init + [c];
      assert a + b == (a + init) + [c];
      KeepClassesAppend(a, init);
      KeepClassesSnoc(a + init, c);
      KeepClassesSnoc(init, c);
      assert KeepClasses(a) + KeepClasses(init) + tail == KeepClasses(a) + (KeepClasses(init) + tail);
    }
  }

  lemma {:induction false} KeepClassesIdempotent(classes: seq<string>)
    ensures KeepClasses(KeepClasses(classes)) == KeepClasses(classes)
    decreases |classes|
  {
    if classes != [] {
      var init := classes[..|classes| - 1];
      KeepClassesIdempotent(init);
      if !IsStateClass(classes[|classes| - 1]) {
        KeepClassesAppend(KeepClasses(init), [classes[|classes| - 1]]);
        assert KeepClasses([classes[|classes| - 1]]) == [classes[|classes| - 1]] by {
          assert [classes[|classes| - 1]][..0] == [];
        }
      }
    }
  }

  /** Only the latest status shows: a second `setStatus` replaces the first. */
  lemma SetStatusOverwrites(classes: seq<string>, s1: OrbState, s2: OrbState)
    ensures SetStatusClasses(SetStatusClasses(classes, s1), s2) == SetStatusClasses(classes, s2)
  {
    KeepClassesAppend(KeepClasses(classes), [StateClass(s1)]);
    KeepClassesIdempotent(classes);
    assert KeepClasses([StateClass(s1)]) == [] by {
      assert [StateClass(s1)][..0] == [];
    }
  }

  /** A class list with no state class passes the filter unchanged, so
      `setStatus` on it only appends the state class. */
  lemma {:induction false} KeepsPlainClasses(classes: seq<string>)
    requires forall i :: 0 <= i < |classes| ==> !IsStateClass(classes[i])
    ensures KeepClasses(classes) == classes
    decreases |classes|
  {
    if classes != [] {
      var init := classes[..|classes| - 1];
      KeepsPlainClasses(init);
      assert init + [classes[|classes| - 1]] == classes;
    }
  }
}
