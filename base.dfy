/** Shared vocabulary of the model: optional values, results that carry the
    errors the Python code raises, the runtime values the bookkeeping code
    inspects, Python truthiness and Python sequence indexing. */
module Base {

  datatype Option<+T> = None | Some(value: T)

  /** The outcome of an operation that may raise one of the errors below. */
  datatype Result<+T> = Ok(value: T) | Err(error: Error)

  /** A Python runtime value, reduced to what the core looks at: `None`,
      strings, callables (their `__name__` and an identity) and any other
      object, of which only its truthiness matters. */
  datatype Value =
    | NoneValue
    | Str(s: string)
    | Callable(fnName: string, id: nat)
    | Other(id: nat, truthy: bool)

  /** Python's `bool(v)`. */
  predicate Truthy(v: Value)
  {
    match v
    case NoneValue => false
    case Str(s) => s != ""
    case Callable(_, _) => true
    case Other(_, t) => t
  }

  /** What `str(type(v))` prints; for an arbitrary object the model does not
      know its class, and `object` stands for it. */
  function TypeName(v: Value): string
  {
    match v
    case NoneValue => "<class 'NoneType'>"
    case Str(_) => "<class 'str'>"
    case Callable(_, _) => "<class 'function'>"
    case Other(_, _) => "<class 'object'>"
  }

  /** The exceptions the core raises. */
  datatype Error =
    | ToolExists(tool: string)        // ValueError from ToolSet.add on a duplicate
    | InvalidTool(typeName: string)   // ValueError from ToolSet.add on another type
    | ToolNotFound(tool: string)      // ValueError from ToolDef._get_callable
    | NameNotFound(value: string)     // ValueError from search_frame
    | InvalidMember(typeName: string) // ValueError from ToolSet.__contains__
    | IndexOutOfRange                 // IndexError from list indexing
    | MissingAgent                    // AttributeError: an agent definition is None

  /** The message text each exception carries. */
  function Message(e: Error): string
  {
    match e
    case ToolExists(t) => "Tool " + t + " already exists in ToolSet"
    case InvalidTool(ty) => "Tool must be a callable or a string, not " + ty
    case ToolNotFound(t) => "Tool '" + t + "' not found "
    case NameNotFound(v) => "'" + v + "' not found"
    case InvalidMember(ty) => "value must be a type of string or callable, not " + ty
    case IndexOutOfRange => "list index out of range"
    case MissingAgent => "'NoneType' object has no attribute 'model'"
  }

  /** Python's `xs[i]` on a list of length `len`: negative indices count from
      the end; anything outside `-len .. len-1` raises IndexError. */
  function PyIndex(len: nat, i: int): (r: Option<nat>)
    ensures r.Some? <==> -(len as int) <= i < len
    ensures r.Some? ==> r.value < len && r.value as int == (if i < 0 then len + i else i)
  {
    if 0 <= i < len then Some(i) else if -(len as int) <= i < 0 then Some(len + i) else None
  }
}
