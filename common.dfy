/** Small shared vocabulary: an optional value, used for JavaScript's
    `null`/`undefined` and for a date whose time value is `NaN`. */
module Common {

  datatype Option<T> = None | Some(value: T)

}
