/** The conventional Some/None datatype, used for pandas' missing values (NaN, NaT). */
module Optional {
  datatype Option<+T> = None | Some(value: T)
}
