/** Go's cancellable context, as far as cancellation goes. */
module Contexts {
  class Context {
    var cancelled: bool

    /** context.WithCancel(context.Background()): a context nobody has cancelled yet. */
    constructor ()
      ensures !cancelled
    {
      cancelled := false;
    }
  }
}
