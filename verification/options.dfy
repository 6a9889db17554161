/** An optional value: the model's stand-in for a C# `null` reference and for
    the `bool TryX(..., out T)` pattern. */
module Options {

  datatype Option<+T> = None | Some(value: T)
}
