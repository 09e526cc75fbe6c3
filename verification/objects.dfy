/**
 * The slice of Python's object model that the checks of `punish` look at:
 * runtime types and `isinstance`, the values a class body binds, call
 * signatures as explicit data, instance dictionaries, and the `Typed`
 * descriptor family of punish/type.py (it lives here because a class body
 * can bind a `Typed` slot like any other value).
 */
module Objects {
  import opened Wrappers

  /** The runtime types the model distinguishes; `TypedType` is `Typed` and its subclasses. */
  datatype PyType =
    | NoneType | BoolType | IntType | FloatType | StrType | ListType
    | FunctionType | TypedType | ObjectType

  /** `issubclass(a, b)`: every class is a subclass of itself and of `object`, and `bool` is a subclass of `int`. */
  predicate IsSubclass(a: PyType, b: PyType) {
    a == b || b == ObjectType || (a == BoolType && b == IntType)
  }

  /** Parameter kinds of `inspect.Parameter`. */
  datatype ParamKind = PositionalOnly | PositionalOrKeyword | VarPositional | KeywordOnly | VarKeyword

  /**
   * One parameter of a signature. The default value and the annotation are
   * kept as their source text (`None` when absent).
   */
  datatype Param = Param(name: string, kind: ParamKind, default: Option<string>, annotation: Option<string>)

  /** A call signature: the ordered parameters and the return annotation. */
  datatype Signature = Signature(params: seq<Param>, returnAnnotation: Option<string>)

  /** A value bound in a class body, passed as an argument or stored on an instance. */
  datatype Value =
    | NoneVal
    | BoolVal(b: bool)
    | IntVal(i: int)
    | FloatVal(f: real)
    | StrVal(s: string)
    | ListVal(items: seq<Value>)
    | FuncVal(sig: Signature)   // a function; its signature is what `inspect.signature` reports
    | SlotVal(slot: Typed)      // an instance of `Typed` or one of its subclasses

  /** `type(v)`. */
  function TypeOf(v: Value): (t: PyType) {
    match v
    case NoneVal => NoneType
    case BoolVal(_) => BoolType
    case IntVal(_) => IntType
    case FloatVal(_) => FloatType
    case StrVal(_) => StrType
    case ListVal(_) => ListType
    case FuncVal(_) => FunctionType
    case SlotVal(_) => TypedType
  }

  /** `isinstance(v, t)`. */
  predicate IsInstance(v: Value, t: PyType)
    ensures t == ObjectType || t == TypeOf(v) ==> IsInstance(v, t)
    ensures IsInstance(v, t) && t != ObjectType && t != TypeOf(v) ==> v.BoolVal? && t == IntType
  {
    IsSubclass(TypeOf(v), t)
  }

  /** `callable(v)`: of the values modelled, only functions, and a function is always truthy. */
  predicate Callable(v: Value)
    ensures Callable(v) ==> Truthy(v)
  {
    v.FuncVal?
  }

  /** `bool(v)`: `None`, `False`, zero and empty containers are false; functions and slots are true. */
  predicate Truthy(v: Value)
    ensures v.FuncVal? || v.SlotVal? ==> Truthy(v)
    ensures v.NoneVal? || v == BoolVal(false) || v == IntVal(0) ==> !Truthy(v)
  {
    match v
    case NoneVal => false
    case BoolVal(b) => b
    case IntVal(i) => i != 0
    case FloatVal(f) => f != 0.0
    case StrVal(s) => s != []
    case ListVal(items) => items != []
    case FuncVal(_) => true
    case SlotVal(_) => true
  }

  /** An object with an instance dictionary `__dict__`. */
  class PyObject {
    var dict: map<Value, Value>

    constructor (dict: map<Value, Value>)
      ensures this.dict == dict
    {
      this.dict := dict;
    }
  }

  /** Why a checked write was refused: the attribute named and the type it expects. */
  datatype TypeError = ExpectedType(attribute: Value, expected: PyType)

  /**
   * A write that first checks `isinstance(value, expected)`: on success the
   * dictionary maps `key` to `value`, on failure there is no new dictionary.
   */
  function CheckedWrite(dict: map<Value, Value>, key: Value, expected: PyType, value: Value): (r: Option<map<Value, Value>>)
    ensures r.Some? <==> IsInstance(value, expected)
    ensures r.Some? ==> key in r.value && r.value[key] == value
    ensures r.Some? ==> r.value.Keys == dict.Keys + {key}
    ensures r.Some? ==> forall k :: k in dict && k != key ==> r.value[k] == dict[k]
  {
    if IsInstance(value, expected) then Some(dict[key := value]) else None
  }

  /**
   * The `Typed` descriptor: a slot that accepts a write only when the value
   * is an instance of its expected type. The base class expects `NoneType`;
   * the `Integer`, `Float` and `String` subclasses fix it to `int`, `float`
   * and `str`. `name` starts as the constructor argument and is what the
   * instance dictionary is keyed by.
   */
  class Typed {
    var name: Value
    const expected: PyType

    constructor (name: Value)
      ensures this.name == name && expected == NoneType
    {
      this.name := name;
      expected := NoneType;
    }

    constructor Integer(name: Value)
      ensures this.name == name && expected == IntType
    {
      this.name := name;
      expected := IntType;
    }

    constructor Float(name: Value)
      ensures this.name == name && expected == FloatType
    {
      this.name := name;
      expected := FloatType;
    }

    constructor String(name: Value)
      ensures this.name == name && expected == StrType
    {
      this.name := name;
      expected := StrType;
    }

    /** `__set__`: store `value` under `name` in the instance dictionary, or raise and store nothing. */
    method Set(instance: PyObject, value: Value) returns (r: Outcome<TypeError>)
      modifies instance
      ensures r.Pass? <==> IsInstance(value, expected)
      ensures r.Pass? ==> instance.dict == old(instance.dict)[name := value]
      ensures r.Fail? ==> r.error == ExpectedType(name, expected) && instance.dict == old(instance.dict)
    {
      var written := CheckedWrite(instance.dict, name, expected, value);
      if written.None? {
        return Fail(ExpectedType(name, expected));
      }
      instance.dict := written.value;
      return Pass;
    }
  }

  /** `None` passes the base `Typed` check and no other slot type: `int`, `float` and `str` all reject it. */
  lemma OnlyBaseTypedAcceptsNone()
    ensures IsInstance(NoneVal, NoneType)
    ensures !IsInstance(NoneVal, IntType) && !IsInstance(NoneVal, FloatType) && !IsInstance(NoneVal, StrType)
  {
  }

  /** `bool` is a subtype of `int`: `True` passes an `int` check, while `10` does not pass a `bool` check. */
  lemma BoolIsAnInt(b: bool, i: int)
    ensures IsInstance(BoolVal(b), IntType)
    ensures !IsInstance(IntVal(i), BoolType)
    ensures !IsInstance(IntVal(i), FloatType)
  {
  }
}
