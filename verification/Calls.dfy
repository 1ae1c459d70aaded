/** How a call to a service ends. */
module Calls {
  /** An error may come after the call took effect. */
  datatype Call = Done | Error(tookEffect: bool)

  predicate Took(call: Call) { call.Done? || call.tookEffect }
}
