/** The values `yaml.safe_load` produces for a pubspec.lock file, and the two
    ways the tool reads a key from them. */
module Yaml {
  import opened Runtime

  /** A loaded YAML value: null, a string, an int, float or bool scalar (kept
      as the text `str()` gives it), a list or a dict. Equality is structural,
      like Python's `==` on strings, lists and dicts. */
  datatype Node =
    | Null
    | Str(text: string)
    | Literal(text: string)
    | List(items: seq<Node>)
    | Mapping(entries: map<string, Node>)

  /** `len(node)` is defined: strings, lists and dicts have a length; None,
      ints, floats and bools raise TypeError. */
  predicate Sized(node: Node)
  {
    node.Str? || node.List? || node.Mapping?
  }

  /** `node.get(key)`: None for a missing key; only a dict has `.get`. */
  function Get(node: Node, key: string): Result<Option<Node>, Exception>
  {
    match node
    case Mapping(m) => Ok(if key in m then Some(m[key]) else None)
    case _ => Err(AttributeError)
  }

  /** `node[key]`: KeyError on a dict without `key`; None, scalars and lists
      cannot be subscripted with a string. */
  function Index(node: Node, key: string): Result<Node, Exception>
  {
    match node
    case Mapping(m) => if key in m then Ok(m[key]) else Err(KeyError(key))
    case _ => Err(TypeError)
  }

  /** The text an f-string splices in for `node`. */
  function Text(node: Node): string
  {
    match node
    case Str(t) => t
    case Literal(t) => t
    case Null => "None"
    case List(_) => "[...]"
    case Mapping(_) => "{...}"
  }
}
