// A state journal as its callers see it: whether a transaction is open, whether it
// has been given up, whether something in it failed, and whether a pass is open.
module JournalFlags {

  /** The flags of an effect's state journal. */
  datatype Flags = Flags(active: bool, disabled: bool, failed: bool, passActive: bool) {
    function Began(): Flags {
      Flags(true, disabled, false, false)
    }

    function Restored(ok: bool): Flags {
      if !active then this else Flags(false, disabled || !ok, failed || !ok, false)
    }

    function Retired(ok: bool): Flags {
      Restored(ok).(disabled := true)
    }

    function After(fails: bool): Flags {
      this.(failed := failed || (active && fails))
    }
  }
}
