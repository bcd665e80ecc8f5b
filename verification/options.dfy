/** An optional value. In this model it stands for Python's None / an absent
    dictionary key, and for an operation that raises instead of returning. */
module Options {

  datatype Option<+T> = None | Some(value: T)
}
