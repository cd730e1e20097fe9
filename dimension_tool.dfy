/**
 * The axis-lock keys (src/components/DimensionTool.tsx): with a wall
 * selected, `x` toggles a horizontal lock, `y` toggles a vertical lock, and
 * any other key pressed with Ctrl clears the lock.
 */
module DimensionKeys {
  import opened DimensionState
  import opened WallState
  import opened Store

  /** ASCII lower-casing of one character. */
  function LowerChar(c: char): char {
    if 'A' <= c <= 'Z' then (c as int + 32) as char else c
  }

  /**
   * `String.prototype.toLowerCase` restricted to ASCII letters: the result
   * has no upper-case letter, each upper-case letter becomes the letter 32
   * code points above it, and every other character is kept.
   */
  function ToLower(s: string): (r: string)
    ensures |r| == |s|
    ensures forall i :: 0 <= i < |r| ==> !('A' <= r[i] <= 'Z')
    ensures forall i :: 0 <= i < |s| && 'A' <= s[i] <= 'Z' ==> r[i] as int == s[i] as int + 32
    ensures forall i :: 0 <= i < |s| && !('A' <= s[i] <= 'Z') ==> r[i] == s[i]
  {
    seq(|s|, i requires 0 <= i < |s| => LowerChar(s[i]))
  }

  /** Lower-casing twice is lower-casing once. */
  lemma ToLowerIdempotent(s: string)
    ensures ToLower(ToLower(s)) == ToLower(s)
  {
    var r := ToLower(s);
    assert forall i :: 0 <= i < |r| ==> ToLower(r)[i] == r[i];
  }

  /** A key lower-cases to a single lower-case letter exactly when it is that letter in either case. */
  lemma LowerKeyIsLetter(key: string, lower: char)
    requires 'a' <= lower <= 'z'
    ensures ToLower(key) == [lower] <==> key == [lower] || key == [(lower as int - 32) as char]
  {
    if ToLower(key) == [lower] {
      assert LowerChar(key[0]) == lower;
      assert key == [key[0]];
    }
  }

  /**
   * The lock after a key press: `x` and `y` switch their own lock on, or off
   * if it was already on; another key clears the lock when Ctrl is held and
   * otherwise leaves it.
   */
  function NextLockedAxis(current: LockedAxis, key: string, ctrl: bool): (r: LockedAxis)
    ensures ToLower(key) == "x" ==> (r == X <==> current != X) && (r != X ==> r == None)
    ensures ToLower(key) == "y" ==> (r == Y <==> current != Y) && (r != Y ==> r == None)
    ensures ToLower(key) != "x" && ToLower(key) != "y" ==> r == if ctrl then None else current
  {
    var k := ToLower(key);
    if k == "x" then (if current == X then None else X)
    else if k == "y" then (if current == Y then None else Y)
    else if ctrl then None
    else current
  }

  /**
   * Pressing the same letter twice returns to the starting lock when that
   * lock was off or was this letter's lock; from the other letter's lock it
   * ends with no lock.
   */
  lemma ToggleTwice(current: LockedAxis, key: string, ctrl1: bool, ctrl2: bool)
    requires ToLower(key) == "x" || ToLower(key) == "y"
    ensures var twice := NextLockedAxis(NextLockedAxis(current, key, ctrl1), key, ctrl2);
            ((ToLower(key) == "x" && current != Y) || (ToLower(key) == "y" && current != X)) ==> twice == current
    ensures var twice := NextLockedAxis(NextLockedAxis(current, key, ctrl1), key, ctrl2);
            ((ToLower(key) == "x" && current == Y) || (ToLower(key) == "y" && current == X)) ==> twice == None
  {
  }

  /**
   * The key handler. It does nothing while the wall tool is active or when
   * the selected wall has no dimension, and otherwise changes only the
   * selected dimension's lock.
   */
  method HandleKeyDown(store: AppStore, key: string, ctrl: bool)
    modifies store.SelectedDimension()
    ensures var d := store.SelectedDimension();
      d != null ==>
        && d.offset == old(d.offset)
        && d.lockedAxis == if old(store.activeTool) == WallTool then old(d.lockedAxis)
                           else NextLockedAxis(old(d.lockedAxis), key, ctrl)
  {
    if store.activeTool == WallTool {
      return;
    }
    var k := ToLower(key);
    var dimension := store.SelectedDimension();
    if dimension == null {
      return;
    }
    if k == "x" {
      dimension.SetLockedAxis(if dimension.lockedAxis == X then None else X);
    } else if k == "y" {
      dimension.SetLockedAxis(if dimension.lockedAxis == Y then None else Y);
    } else if ctrl {
      dimension.SetLockedAxis(None);
    }
  }
}
