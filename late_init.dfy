/**
 * A write-once cell seen through two handles: the initialiser writes it
 * once, the initialisee reads it and drops the value.  Both handles share
 * one `LateCell`; the atomic flag and the uninitialised storage are plain
 * fields.  A handle consumed by value in the source carries a `live` flag
 * that its consuming operation clears.
 */
module LateInit {
  import opened Wrappers

  /** The shared storage: the flag, and the slot (`None` while uninitialised or after the drop). */
  class LateCell<T> {
    var initialised: bool
    var value: Option<T>

    /** Whenever the flag is up, the slot holds a value. */
    predicate Valid()
      reads this
    {
      initialised ==> value.Some?
    }

    constructor()
      ensures Valid() && !initialised && value.None?
    {
      initialised := false;
      value := None;
    }
  }

  /**
   * The writing handle.  Its constructor is open here, while the source's
   * fields are private to the module, so nothing stops a second writer on
   * one cell: only `LateInitialise` pairs a fresh cell with exactly one.
   */
  class LateInitialiser<T> {
    const cell: LateCell<T>
    var live: bool

    constructor(cell: LateCell<T>)
      ensures this.cell == cell && live
    {
      this.cell := cell;
      live := true;
    }

    /**
     * `initialise`: writes the value, then raises the flag.  It consumes the
     * handle, so each handle writes at most once.
     */
    method Initialise(value: T)
      requires live
      modifies this, cell
      ensures !live && cell.Valid() && cell.initialised && cell.value == Some(value)
    {
      cell.value := Some(value);
      cell.initialised := true;
      live := false;
    }
  }

  /** The reading handle, which owns the value. */
  class LateInitialisee<T> {
    const cell: LateCell<T>
    var live: bool

    constructor(cell: LateCell<T>)
      ensures this.cell == cell && live
    {
      this.cell := cell;
      live := true;
    }

    /** `get`: the written value once the flag is up, else nothing. */
    function Get(): (r: Option<T>)
      requires live && cell.Valid()
      reads this, cell
      ensures r.Some? <==> cell.initialised
      ensures r.Some? ==> cell.value == r
    {
      if !cell.initialised then None else cell.value
    }

    /**
     * `get_mut`, with the write made through the reference: once the flag
     * is up, `update` rewrites the value and the old one is returned;
     * before, nothing is touched.
     */
    method GetMut(update: T -> T) returns (r: Option<T>)
      requires live && cell.Valid()
      modifies cell
      ensures r.Some? <==> old(cell.initialised)
      ensures r.Some? ==> Some(r.value) == old(cell.value) && cell.value == Some(update(r.value))
      ensures r.None? ==> cell.value == old(cell.value)
      ensures cell.initialised == old(cell.initialised) && cell.Valid()
    {
      if !cell.initialised {
        return None;
      }
      r := cell.value;
      cell.value := Some(update(r.value));
    }

    /** `Drop`: the value is dropped only if it was ever written; the handle is gone. */
    method Drop() returns (dropped: Option<T>)
      requires live && cell.Valid()
      modifies this, cell
      ensures dropped.Some? <==> old(cell.initialised)
      ensures dropped.Some? ==> Some(dropped.value) == old(cell.value)
      ensures old(cell.initialised) ==> cell.value.None?
      ensures !old(cell.initialised) ==> cell.value == old(cell.value)
      ensures !live && cell.initialised == old(cell.initialised)
    {
      dropped := None;
      if cell.initialised {
        dropped := cell.value;
        cell.value := None;
      }
      live := false;
    }
  }

  /** `late_initialise`: a fresh uninitialised cell behind both handles. */
  method LateInitialise<T>() returns (initialiser: LateInitialiser<T>, initialisee: LateInitialisee<T>)
    ensures fresh(initialiser) && fresh(initialisee) && fresh(initialiser.cell)
    ensures initialiser.cell == initialisee.cell && initialiser.live && initialisee.live
    ensures initialisee.cell.Valid() && initialisee.Get() == None
  {
    var cell := new LateCell<T>();
    initialiser := new LateInitialiser(cell);
    initialisee := new LateInitialisee(cell);
  }

  /** The whole life of a cell: unset, written once, read back, then dropped with the value written. */
  method Lifecycle<T>(value: T) returns (before: Option<T>, after: Option<T>, dropped: Option<T>)
    ensures before == None && after == Some(value) && dropped == Some(value)
  {
    var initialiser, initialisee := LateInitialise<T>();
    before := initialisee.Get();
    initialiser.Initialise(value);
    after := initialisee.Get();
    dropped := initialisee.Drop();
  }
}
