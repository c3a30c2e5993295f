/** Failure-carrying values shared by both solvers.  `Err` stands for the
    Rust code's `anyhow::Error` values, whose context strings carry no
    behaviour, and for the one panic the model turns into an error (a cube
    clause whose only word is a u32).  The other panics are preconditions or are
    not modelled. */
module Results {

  datatype Result<T> = Ok(value: T) | Err

  datatype Option<T> = None | Some(value: T)
}
