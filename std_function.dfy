/** Stand-ins for the C++ library types the promise is built from. */
module StdFunction {

  datatype Option<+T> = None | Some(value: T)

  /** The identity of a callable whose body the model does not see. */
  type Token = nat

  /** A `std::function` object: empty (`nullptr`), or holding one callable. */
  type Slot = Option<Token>
}
