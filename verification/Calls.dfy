/** Calls to a store or the queue, as their caller sees them. */
module Calls {

  /** Someone making calls: a request, a worker goroutine, the scheduler, the supervisor or the poller. */
  datatype Caller = Caller(number: nat)

  /**
   A call takes effect and says so, fails without effect, or takes effect while its caller sees an error or is
   gone.
   */
  datatype Fate = Done | NotDone | DoneUnseen
}
