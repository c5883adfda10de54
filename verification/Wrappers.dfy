/** The generic datatypes the protocol models share. */
module Wrappers {
  datatype Option<+T> = None | Some(value: T)

  // A finite run of a protocol: its steps, the last one outermost.
  datatype Run<+L> = Start | Then(before: Run<L>, last: L)

  predicate Prefix<L(==)>(run: Run<L>, longer: Run<L>) {
    run == longer || (longer.Then? && Prefix(run, longer.before))
  }

  lemma Unused(ids: set<nat>) returns (id: nat)
    ensures id !in ids
  {
    id := 0;
    var rest := ids;
    while rest != {}
      invariant forall i :: i in ids && i !in rest ==> i < id
      decreases rest
    {
      var i :| i in rest;
      rest := rest - {i};
      id := if id <= i then i + 1 else id;
    }
  }
}
