/**
 * The server's run flag (`RELABSD_RUN` in src/server/interruption.c). Only
 * its value is modelled: `relabsd_server_interrupt` clears it, and the
 * conversion loop runs while it is set.
 */
module Interruption {
  class RunFlag {
    var running: bool

    constructor ()
      ensures running
    {
      running := true;
    }

    /** `relabsd_server_interrupt`. */
    method Interrupt()
      modifies this
      ensures !running
    {
      running := false;
    }
  }
}
