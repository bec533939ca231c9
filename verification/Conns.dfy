/** A network connection or socket: open until somebody closes it. */
module Conns {
  class Conn {
    var closed: bool

    constructor ()
      ensures !closed
    {
      closed := false;
    }

    method Close()
      modifies this
      ensures closed
    {
      closed := true;
    }
  }
}
