/** runtime/core.py: what becomes of an attempt to save the runtime's state. */
module Saves {
  /** A save succeeds, reports that it failed, or raises something that nobody catches. It
      writes several documents: one of a failed save may be `written` all the same. */
  datatype Saving = Saved | NotSaved(written: bool) | SaveRaised(written: bool)

  predicate Written(s: Saving) {
    s.Saved? || s.written
  }
}
