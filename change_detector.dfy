/**
 * `ChangeDetector`: a value with a dirty flag.  Reading through it leaves
 * the flag alone, writing through it sets the flag, and the owner takes the
 * flag to learn whether anything changed since it last looked.  The atomic
 * flag is a plain field.
 */
module ChangeDetection {
  import opened Wrappers

  class ChangeDetector<T> {
    var target: T
    var changed: bool

    /** `new`: the target as given, flagged as changed so that it is seen once. */
    constructor(target: T)
      ensures this.target == target && changed
    {
      this.target := target;
      changed := true;
    }

    /** `changed()`: the flag, read without clearing it. */
    function Changed(): (b: bool)
      reads this
      ensures b <==> changed
    {
      changed
    }

    /** `take_change`: the flag as it was, leaving it clear; the target is untouched. */
    method TakeChange() returns (b: bool)
      modifies this
      ensures b == old(changed) && !changed && target == old(target)
    {
      if Changed() {
        changed := false;
        b := true;
      } else {
        b := false;
      }
    }

    /** `get_if_changed`: the target exactly when the flag was set, which is then clear. */
    method GetIfChanged() returns (r: Option<T>)
      modifies this
      ensures r.Some? <==> old(changed)
      ensures r.Some? ==> r.value == target
      ensures !changed && target == old(target)
    {
      var b := TakeChange();
      r := if b then Some(target) else None;
    }

    /** A second `take_change` straight after the first finds nothing. */
    method TakeChangeTwice() returns (first: bool, second: bool)
      modifies this
      ensures first == old(changed) && !second && !changed && target == old(target)
    {
      first := TakeChange();
      second := TakeChange();
    }

    /** `Deref`: the target, flag untouched. */
    function Deref(): (t: T)
      reads this
      ensures t == target
    {
      target
    }

    /** A write through `DerefMut`: the flag is set before the target is handed out. */
    method DerefMut(update: T -> T)
      modifies this
      ensures changed && target == update(old(target))
    {
      changed := true;
      target := update(target);
    }
  }

  /**
   * A detector's life: seen once when new, not again until written, and a
   * read in between does not count as a change.
   */
  method Lifecycle<T>(initial: T, update: T -> T) returns (first: Option<T>, second: Option<T>, peeked: T, afterWrite: Option<T>)
    ensures first == Some(initial) && second == None && peeked == initial
    ensures afterWrite == Some(update(initial))
  {
    var d := new ChangeDetector(initial);
    first := d.GetIfChanged();
    peeked := d.Deref();
    second := d.GetIfChanged();
    d.DerefMut(update);
    afterWrite := d.GetIfChanged();
  }
}
