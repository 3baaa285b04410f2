/** A value or nothing: the model of a `std::shared_ptr` that may be `nullptr`. */
module Optional {

  datatype Option<+T> = None | Some(value: T)
}
