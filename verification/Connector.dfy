/** A connection of the run or of the planner (pgdb/connector.go). */
module Connector {

  /** A connection whose Close reaches the server at most once. */
  class PgxConn {
    var closed: bool
    ghost var nativeCloses: nat

    ghost predicate Valid()
      reads this
    {
      nativeCloses == if closed then 1 else 0
    }

    constructor ()
      ensures Valid() && !closed
    {
      closed, nativeCloses := false, 0;
    }

    /** Closing again does nothing and succeeds, whatever the server would say. */
    method Close(refused: bool) returns (failed: bool)
      requires Valid()
      modifies this
      ensures Valid() && closed && nativeCloses == 1
      ensures failed <==> refused && !old(closed)
    {
      if closed {
        return false;
      }
      closed := true;
      nativeCloses := nativeCloses + 1;
      failed := refused;
    }
  }
}
