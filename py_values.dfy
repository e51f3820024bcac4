/**
 * The Python values the model passes around: keyword-argument values, message
 * dictionaries, and the two mutable containers (`dict` and `list`) whose
 * in-place updates the source relies on.
 */
module PyValues {

  /**
   * A tool class produced by the tool converters (`convert_base_model_to_base_tool`,
   * `convert_function_to_base_tool`). Their source is not part of this model, so a tool
   * type is identified by the kind and the name of what it was converted from.
   */
  datatype ToolType = FromModel(name: string) | FromFunction(name: string)

  /**
   * A Python value. `PySchema(t)` stands for the dictionary `t.tool_schema()` returns,
   * whose construction is not part of this model.
   */
  datatype Value =
    | PyNone
    | PyBool(b: bool)
    | PyInt(i: int)
    | PyStr(s: string)
    | PyList(items: seq<Value>)
    | PyDict(entries: map<string, Value>)
    | PySchema(tool: ToolType)

  /** Python truthiness: `None`, `False`, `0` and empty strings, lists and dicts are falsy. */
  predicate Truthy(v: Value) {
    match v
    case PyNone => false
    case PyBool(b) => b
    case PyInt(i) => i != 0
    case PyStr(s) => s != []
    case PyList(xs) => xs != []
    case PyDict(m) => m != map[]
    case PySchema(_) => true
  }

  /** `d.get(key, default)`. */
  function GetOr(d: map<string, Value>, key: string, default: Value): (v: Value)
    ensures key in d ==> v == d[key]
    ensures key !in d ==> v == default
  {
    if key in d then d[key] else default
  }

  /** A chat message parameter: a `TypedDict`, that is, a dictionary keyed by field name. */
  type MessageParam = map<string, Value>

  /** A Python `dict[str, Any]` object that the source updates in place. */
  class Dict {
    var items: map<string, Value>

    constructor (items: map<string, Value>)
      ensures this.items == items
    {
      this.items := items;
    }

    /** `d.copy()`: a new dictionary with the same entries. */
    method Copy() returns (d: Dict)
      ensures fresh(d) && d.items == items
    {
      d := new Dict(items);
    }

    /** `d |= other`: every key of `other` takes `other`'s value, every other key keeps its own. */
    method Update(other: map<string, Value>)
      modifies this
      ensures items == old(items) + other
    {
      items := items + other;
    }

    /** `d[key] = v`. */
    method SetItem(key: string, v: Value)
      modifies this
      ensures items == old(items)[key := v]
    {
      items := items[key := v];
    }
  }

  /** A Python `list` of message parameters that the source appends to in place. */
  class MessageList {
    var items: seq<MessageParam>

    constructor (items: seq<MessageParam>)
      ensures this.items == items
    {
      this.items := items;
    }

    /** `messages.append(m)`. */
    method Append(m: MessageParam)
      modifies this
      ensures items == old(items) + [m]
    {
      items := items + [m];
    }
  }
}
