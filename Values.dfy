/** Values shared by the whole model: device status values, patches, the
    commands sent to the device client, and the Python exceptions the model
    reports as error results. */
module Values {

  datatype Option<T> = None | Some(value: T)

  /** A value held in the device status: a string, an integer, or a list of
      values (several mode tables use lists of accepted integers). */
  datatype Value = Str(s: string) | Int(i: int) | List(items: seq<Value>)

  /** The device status, a mapping from protocol key to value. */
  type Status = map<string, Value>

  /** A partial status: the keys and values a preset or a speed stands for. */
  type Patch = map<string, Value>

  /** A call into the device client: `set_control_value(key, value)` or
      `set_control_values(data=patch)`. */
  datatype Command =
    | SetControlValue(key: string, value: Value)
    | SetControlValues(data: Patch)

  /** The Python exceptions that the modelled code lets escape. */
  datatype Error =
    | ValueError        // list.remove of an absent element
    | AttributeError    // attribute looked up on None or on an object that lacks it
    | IndexError        // indexing an empty list
    | TypeError         // hashing an unhashable value (a list)
    | CallbackRunning   // Timer._cancel while the timer's callback runs

  /** The Python `status.get(key)`. */
  function Lookup(s: Status, key: string): Option<Value>
  {
    if key in s then Some(s[key]) else None
  }
}
