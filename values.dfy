/** Python runtime values as the builder sees them: every `isinstance` test of
    the setters becomes a test of the value's tag. */
module Values {
  import opened Tensors

  datatype Value =
    | NoneValue
    | BoolValue(b: bool)
    | IntValue(i: int)
    | FloatValue(f: real)
    | StrValue(s: string)
    | ListValue(items: seq<Value>)
    | TupleValue(items: seq<Value>)
    | NdArrayValue(array: Tensor)       // a numpy ndarray
    | TensorValue(t: Tensor)            // a torch.Tensor
    | CallableValue(name: string)       // a function or other callable object
    | AlgorithmValue(member: string)    // a member of the Algorithms enum
    | DeviceValue(member: string)       // a member of the Device enum

  /** `isinstance(v, int)`: Python's bool is a subclass of int. */
  predicate IsInt(v: Value)
  {
    v.IntValue? || v.BoolValue?
  }

  /** `isinstance(v, (int, float))`. */
  predicate IsIntOrFloat(v: Value)
  {
    IsInt(v) || v.FloatValue?
  }

  /** `isinstance(v, Callable)`. */
  predicate IsCallable(v: Value)
  {
    v.CallableValue?
  }

  /** `isinstance(v, (list, tuple, ndarray, torch.Tensor))`. */
  predicate IsGenericTensor(v: Value)
  {
    v.ListValue? || v.TupleValue? || v.NdArrayValue? || v.TensorValue?
  }
}
