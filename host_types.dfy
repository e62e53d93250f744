/** Values that cross the boundary between the Lua interpreter and the .NET host. */
module HostTypes {

  /** The conventional optional value; `None` stands for a C# `null` reference. */
  datatype Option<+T> = None | Some(value: T)

  /** An OSC address as the host receives it: a C# string, which may be null. */
  type Key = Option<string>

  /**
   * An element of an `object[]` on the host side: a boxed `bool`, `double` or
   * `string`, the null reference, or an object of any other runtime type
   * (identified by its type name).
   */
  datatype HostObject =
    | Null
    | BoxedBool(b: bool)
    | BoxedDouble(d: real)
    | BoxedString(s: string)
    | BoxedOther(typeName: string)
}
