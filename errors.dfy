/** The exceptions the manager raises. `WindowError` and `WindowLoadError` carry
    the manager's last window for diagnostics; the message text is not modelled. */
module Errors {
  import opened Wrappers
  import opened Windows

  datatype Error =
    | WindowError(lastWindow: Option<Window>)
    | WindowLoadError(lastWindow: Option<Window>)
    | TypeError
    | ValueError
}
