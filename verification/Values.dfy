/** Values shared by every part of the model. */
module Values {

  datatype Option<+T> = None | Some(value: T)

  /** A JavaScript value that a storage cell, an event or a decoded state can hold. */
  datatype Json =
    | JNull
    | JNumber(n: int)
    | JString(s: string)
    | JObject(fields: map<string, Json>)
}
