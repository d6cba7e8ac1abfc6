/** What may become of a call to the store. */
module Fates {

  /** Carried out, lost on the way, or carried out with the reply lost. */
  datatype Fate = Done | Lost | DoneUnheard {
    predicate Landed() {
      !Lost?
    }
  }
}
