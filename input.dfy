/**
 * The held-key table (inputManager): key listeners record each key, folded
 * to lower case, as held or released; isKeyPressed folds its query the same
 * way, so lookups do not depend on letter case.
 */
module Input {

  /** Lower-case folding of one character (ASCII letters; other characters are kept). */
  function LowerChar(c: char): char {
    if 'A' <= c <= 'Z' then (c as int + 32) as char else c
  }

  /** The string's toLowerCase, character by character. */
  function Lower(s: string): (r: string)
    ensures |r| == |s|
    ensures forall i :: 0 <= i < |s| ==> r[i] == LowerChar(s[i])
  {
    seq(|s|, i requires 0 <= i < |s| => LowerChar(s[i]))
  }

  /** Two key names that differ at most in letter case. */
  predicate SameIgnoringCase(a: string, b: string) {
    |a| == |b| && forall i :: 0 <= i < |a| ==> LowerChar(a[i]) == LowerChar(b[i])
  }

  /**
   * isKeyPressed over the table `keys`: an empty query is never held;
   * otherwise the folded name must be recorded as held.
   */
  function IsKeyPressed(keys: map<string, bool>, key: string): (r: bool)
    ensures r ==> key != [] && Lower(key) in keys
  {
    key != [] && Lower(key) in keys && keys[Lower(key)] == true
  }

  /** The table of held keys, written by the key-down and key-up listeners. */
  class InputManager {
    var keys: map<string, bool>

    constructor ()
      ensures keys == map[]
    {
      keys := map[];
    }

    /** The keydown listener. */
    method KeyDown(key: string)
      modifies this
      ensures keys == old(keys)[Lower(key) := true]
    {
      keys := keys[Lower(key) := true];
    }

    /** The keyup listener. */
    method KeyUp(key: string)
      modifies this
      ensures keys == old(keys)[Lower(key) := false]
    {
      keys := keys[Lower(key) := false];
    }
  }

  /** Folding twice is folding once. */
  lemma LowerIdempotent(s: string)
    ensures Lower(Lower(s)) == Lower(s)
  {
    var l := Lower(s);
    assert forall i :: 0 <= i < |s| ==> Lower(l)[i] == l[i];
  }

  /** Names equal up to letter case fold to the same table entry. */
  lemma SameIgnoringCaseFoldsEqual(a: string, b: string)
    requires SameIgnoringCase(a, b)
    ensures Lower(a) == Lower(b)
  {
    assert forall i :: 0 <= i < |a| ==> Lower(a)[i] == Lower(b)[i];
  }

  /** A query gets the same answer in any casing. */
  lemma QueryIgnoresCase(keys: map<string, bool>, a: string, b: string)
    requires SameIgnoringCase(a, b)
    ensures IsKeyPressed(keys, a) == IsKeyPressed(keys, b)
  {
    SameIgnoringCaseFoldsEqual(a, b);
  }

  /** After a key-down of `down`, every non-empty casing of it reads as held. */
  lemma HeldAfterKeyDown(keys: map<string, bool>, down: string, query: string)
    requires SameIgnoringCase(down, query) && query != []
    ensures IsKeyPressed(keys[Lower(down) := true], query)
  {
    SameIgnoringCaseFoldsEqual(down, query);
  }

  /** After a key-up of `up`, no casing of it reads as held. */
  lemma ReleasedAfterKeyUp(keys: map<string, bool>, up: string, query: string)
    requires SameIgnoringCase(up, query)
    ensures !IsKeyPressed(keys[Lower(up) := false], query)
  {
    SameIgnoringCaseFoldsEqual(up, query);
  }

  /** A listener touches only its own key: a query that folds differently is unaffected. */
  lemma OtherKeysUnaffected(keys: map<string, bool>, event: string, held: bool, query: string)
    requires Lower(event) != Lower(query)
    ensures IsKeyPressed(keys[Lower(event) := held], query) == IsKeyPressed(keys, query)
  {
  }

  /** The empty query is false whatever the table holds. */
  lemma EmptyQueryNeverHeld(keys: map<string, bool>)
    ensures !IsKeyPressed(keys, [])
  {
  }
}
