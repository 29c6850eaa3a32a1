/** Client-side navigation, as a value the components produce instead of a
    call into the router. */
module Router {
  import opened Js

  /** `navigate(path, { replace })`. */
  datatype Navigation = Navigation(path: Str, replace: bool)
}
