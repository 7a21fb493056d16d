/** Callbacks are modelled by opaque identities; an empty `std::function` is `None`. */
module Actions {

  /** The identity of a caller-supplied `std::function`; its body is not modelled. */
  type ActionId = nat

  datatype Option<T> = None | Some(value: T)
}
