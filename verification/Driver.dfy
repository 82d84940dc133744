/** The packet hardware's driver, seen as a script of replies: the n-th rule call gets the n-th
    reply, so a statement about every script is a statement about every hardware behaviour. */
module Driver {
  type Handle = nat

  datatype Option<+T> = None | Some(value: T)

  /** One rule call's outcome.  RefusedLate is a header add that fails after its slot was
      marked valid; for the other calls it is an ordinary failure. */
  datatype Reply = Done(hint: Handle) | Refused | RefusedLate

  /** A handle that is not installed: the hardware's own choice whenever that is possible. */
  function Pick(used: set<Handle>, hint: Handle): (h: Handle)
    ensures h !in used && h >= hint
    ensures hint !in used ==> h == hint
    decreases |used|
  {
    if hint !in used then hint else Pick(used - {hint}, hint + 1)
  }
}
