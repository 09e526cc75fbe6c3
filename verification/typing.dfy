/**
 * The typed-attribute and argument layer of punish/type.py: the ordering
 * metaclass that names `Typed` slots and records their order, argument
 * binding as `inspect.Signature.bind` and `bind_partial` do it, the
 * `enforce_type` wrapper, and `typed_property`.
 */
module TypeEnforcement {
  import opened Wrappers
  import opened Namespace
  import opened Objects

  // ---------------------------------------------------------------------------
  // OrderTypedMeta

  /** The `Typed` slots bound anywhere in a namespace. */
  function SlotsOf(ns: seq<(string, Value)>): set<Typed> {
    set i | 0 <= i < |ns| && ns[i].1.SlotVal? :: ns[i].1.slot
  }

  /** The keys bound to `Typed` slots, in declaration order. */
  function TypedKeys(ns: seq<(string, Value)>): (ks: seq<string>)
    ensures |ks| <= |ns|
    ensures forall k :: k in ks <==> exists i :: 0 <= i < |ns| && ns[i].0 == k && ns[i].1.SlotVal?
  {
    if ns == [] then []
    else
      var rest := TypedKeys(ns[1..]);
      assert forall i :: 1 <= i < |ns| ==> ns[i] == ns[1..][i - 1];
      if ns[0].1.SlotVal? then [ns[0].0] + rest else rest
  }

  /** Scanning a namespace in two pieces records the first piece's slots, then the second's. */
  lemma {:induction false} TypedKeysAppend(a: seq<(string, Value)>, b: seq<(string, Value)>)
    ensures TypedKeys(a + b) == TypedKeys(a) + TypedKeys(b)
  {
    if a != [] {
      assert (a + b)[1..] == a[1..] + b;
      TypedKeysAppend(a[1..], b);
    } else {
      assert a + b == b;
    }
  }

  /** The list object stored as `_order`. */
  function OrderValue(keys: seq<string>): (v: Value)
    ensures v.ListVal? && |v.items| == |keys|
    ensures forall i :: 0 <= i < |keys| ==> v.items[i] == StrVal(keys[i])
  {
    ListVal(seq(|keys|, i requires 0 <= i < |keys| => StrVal(keys[i])))
  }

  /** The `_order` list determines the key list it was built from. */
  lemma OrderValueInjective(a: seq<string>, b: seq<string>)
    requires OrderValue(a) == OrderValue(b)
    ensures a == b
  {
    forall i | 0 <= i < |a|
      ensures a[i] == b[i]
    {
      assert OrderValue(a).items[i] == OrderValue(b).items[i];
    }
  }

  /** Entry `i` is the last one in the namespace that binds its value. */
  predicate LastBinding(ns: seq<(string, Value)>, i: int)
    requires 0 <= i < |ns|
  {
    forall k :: i < k < |ns| ==> ns[k].1 != ns[i].1
  }

  /**
   * `OrderTypedMeta.__new__`: walk a copy of the namespace in order; every
   * `Typed` slot is renamed after the key it is bound to and that key is
   * appended to the order list; finally the list is stored under `_order`.
   * A slot bound under several keys ends up named after the last one.
   */
  method OrderTyped(namespace: seq<(string, Value)>) returns (created: seq<(string, Value)>)
    modifies SlotsOf(namespace)
    ensures created == Assign(namespace, "_order", OrderValue(TypedKeys(namespace)))
    ensures forall i :: 0 <= i < |namespace| && namespace[i].1.SlotVal? && LastBinding(namespace, i) ==>
              namespace[i].1.slot.name == StrVal(namespace[i].0)
  {
    var order: seq<string> := [];
    var i := 0;
    while i < |namespace|
      invariant 0 <= i <= |namespace|
      invariant order == TypedKeys(namespace[..i])
      invariant forall j :: 0 <= j < i && namespace[j].1.SlotVal? && LastBinding(namespace[..i], j) ==>
                  namespace[j].1.slot.name == StrVal(namespace[j].0)
    {
      var (name, value) := namespace[i];
      if value.SlotVal? {
        value.slot.name := StrVal(name);
        order := order + [name];
      }
      assert namespace[..i + 1] == namespace[..i] + [namespace[i]];
      TypedKeysAppend(namespace[..i], [namespace[i]]);
      forall j | 0 <= j < i && namespace[j].1.SlotVal? && LastBinding(namespace[..i + 1], j)
        ensures namespace[j].1.slot.name == StrVal(namespace[j].0)
      {
        assert namespace[..i + 1][i].1 == value;
        assert LastBinding(namespace[..i], j) by {
          forall k | j < k < i ensures namespace[..i][k].1 != namespace[..i][j].1 {
            assert namespace[..i + 1][k] == namespace[..i][k];
          }
        }
      }
      i := i + 1;
    }
    assert namespace[..i] == namespace;
    created := Assign(namespace, "_order", OrderValue(order));
  }

  /** Apart from `_order`, the created namespace binds every key exactly as the declaration did. */
  lemma OrderTypedKeepsOtherEntries(namespace: seq<(string, Value)>, k: string)
    requires k != "_order"
    ensures Lookup(Assign(namespace, "_order", OrderValue(TypedKeys(namespace))), k) == Lookup(namespace, k)
    ensures Lookup(Assign(namespace, "_order", OrderValue(TypedKeys(namespace))), "_order")
              == Some(OrderValue(TypedKeys(namespace)))
  {
    AssignKeepsOtherKeys(namespace, "_order", OrderValue(TypedKeys(namespace)), k);
    AssignSetsKey(namespace, "_order", OrderValue(TypedKeys(namespace)));
  }

  /** The `Stock` example: `name`, `shares`, `price` bound to slots, then `__init__`. */
  lemma StockOrder(name: Typed, shares: Typed, price: Typed, init: Signature)
    ensures TypedKeys([("__module__", StrVal("tests.test_type")), ("__qualname__", StrVal("__Stock")),
                       ("name", SlotVal(name)), ("shares", SlotVal(shares)), ("price", SlotVal(price)),
                       ("__init__", FuncVal(init))])
            == ["name", "shares", "price"]
  {
    var ns := [("__module__", StrVal("tests.test_type")), ("__qualname__", StrVal("__Stock")),
               ("name", SlotVal(name)), ("shares", SlotVal(shares)), ("price", SlotVal(price)),
               ("__init__", FuncVal(init))];
    assert ns == ns[..2] + ns[2..];
    TypedKeysAppend(ns[..2], ns[2..]);
    assert ns[2..] == [ns[2]] + ns[3..];
    TypedKeysAppend([ns[2]], ns[3..]);
    assert ns[3..] == [ns[3]] + ns[4..];
    TypedKeysAppend([ns[3]], ns[4..]);
    assert ns[4..] == [ns[4]] + ns[5..];
    TypedKeysAppend([ns[4]], ns[5..]);
  }

  /**
   * Declaring `__Stock` under `OrderTypedMeta`: three fresh slots made with
   * no name, then named by the metaclass and recorded in order.
   */
  method DeclareStock(init: Signature) returns (created: seq<(string, Value)>, name: Typed, shares: Typed, price: Typed)
    ensures name.name == StrVal("name") && shares.name == StrVal("shares") && price.name == StrVal("price")
    ensures name.expected == StrType && shares.expected == IntType && price.expected == FloatType
    ensures Lookup(created, "_order") == Some(OrderValue(["name", "shares", "price"]))
  {
    name := new Typed.String(NoneVal);
    shares := new Typed.Integer(NoneVal);
    price := new Typed.Float(NoneVal);
    var ns := [("__module__", StrVal("tests.test_type")), ("__qualname__", StrVal("__Stock")),
               ("name", SlotVal(name)), ("shares", SlotVal(shares)), ("price", SlotVal(price)),
               ("__init__", FuncVal(init))];
    StockOrder(name, shares, price, init);
    assert LastBinding(ns, 2) && LastBinding(ns, 3) && LastBinding(ns, 4);
    created := OrderTyped(ns);
    OrderTypedKeepsOtherEntries(ns, "__init__");
  }

  /**
   * `__Stock.__init__`: three slot writes in order, the first refused one
   * raising. With the slots of `DeclareStock`, `None` in any position is refused.
   */
  method InitStock(stock: PyObject, name: Typed, shares: Typed, price: Typed, n: Value, s: Value, p: Value)
    returns (r: Outcome<TypeError>)
    modifies stock
    ensures r.Pass? <==> IsInstance(n, name.expected) && IsInstance(s, shares.expected) && IsInstance(p, price.expected)
    ensures r.Pass? ==> stock.dict == old(stock.dict)[name.name := n][shares.name := s][price.name := p]
    ensures !IsInstance(n, name.expected) ==>
              r == Fail(ExpectedType(name.name, name.expected)) && stock.dict == old(stock.dict)
    ensures IsInstance(n, name.expected) && !IsInstance(s, shares.expected) ==>
              r == Fail(ExpectedType(shares.name, shares.expected)) && stock.dict == old(stock.dict)[name.name := n]
    ensures IsInstance(n, name.expected) && IsInstance(s, shares.expected) && !IsInstance(p, price.expected) ==>
              r == Fail(ExpectedType(price.name, price.expected)) && stock.dict == old(stock.dict)[name.name := n][shares.name := s]
  {
    r := name.Set(stock, n);
    if r.Fail? { return; }
    r := shares.Set(stock, s);
    if r.Fail? { return; }
    r := price.Set(stock, p);
  }

  // ---------------------------------------------------------------------------
  // Argument binding (inspect.Signature.bind / bind_partial)

  /** The `TypeError`s binding raises. */
  datatype BindError =
    | TooManyPositional
    | MultipleValues(param: string)
    | MissingArgument(param: string)
    | UnexpectedKeyword(keyword: string)

  function Names(params: seq<Param>): (ns: seq<string>)
    ensures |ns| == |params|
    ensures forall i :: 0 <= i < |params| ==> ns[i] == params[i].name
  {
    seq(|params|, i requires 0 <= i < |params| => params[i].name)
  }

  /**
   * CPython's binding loop over the parameters: while positional arguments
   * remain each takes the next parameter (a parameter also named by a
   * keyword is an error); then each remaining parameter takes its keyword
   * argument if there is one, and a full `bind` refuses a parameter that has
   * neither a keyword argument nor a default.
   */
  function BindParams<A(==)>(params: seq<Param>, args: seq<A>, kwargs: seq<(string, A)>, partial: bool)
    : (r: Result<seq<(string, A)>, BindError>)
    ensures r.Success? ==> |args| <= |r.value| <= |params|
    ensures r == Failure(TooManyPositional) ==> |args| > |params|
    ensures r.Failure? ==> !r.error.UnexpectedKeyword?
  {
    if params == [] then
      if args == [] then Success([]) else Failure(TooManyPositional)
    else if args != [] then
      if params[0].name in Keys(kwargs) then Failure(MultipleValues(params[0].name))
      else
        match BindParams(params[1..], args[1..], kwargs, partial)
        case Failure(e) => Failure(e)
        case Success(rest) => Success([(params[0].name, args[0])] + rest)
    else
      match Lookup(kwargs, params[0].name)
      case Some(v) =>
        (match BindParams(params[1..], [], kwargs, partial)
         case Failure(e) => Failure(e)
         case Success(rest) => Success([(params[0].name, v)] + rest))
      case None =>
        if !partial && params[0].default.None? then Failure(MissingArgument(params[0].name))
        else BindParams(params[1..], [], kwargs, partial)
  }

  /** The first keyword argument that names no parameter. */
  function FirstUnknown<A>(kwargs: seq<(string, A)>, names: seq<string>): (r: Option<string>)
    ensures r.None? <==> forall i :: 0 <= i < |kwargs| ==> kwargs[i].0 in names
    ensures r.Some? ==> r.value in Keys(kwargs) && r.value !in names
  {
    if kwargs == [] then None
    else if kwargs[0].0 !in names then Some(kwargs[0].0)
    else
      var r := FirstUnknown(kwargs[1..], names);
      assert forall i :: 1 <= i < |kwargs| ==> kwargs[i] == kwargs[1..][i - 1];
      assert Keys(kwargs) == [kwargs[0].0] + Keys(kwargs[1..]);
      r
  }

  /**
   * `sig.bind(*args, **kwargs).arguments` (`partial` false) or
   * `sig.bind_partial(...)` (`partial` true): the supplied arguments by
   * parameter name, in parameter order; parameters left at their default are absent.
   */
  function Bind<A(==)>(sig: Signature, args: seq<A>, kwargs: seq<(string, A)>, partial: bool)
    : (r: Result<seq<(string, A)>, BindError>)
    ensures BindParams(sig.params, args, kwargs, partial).Failure? ==> r == BindParams(sig.params, args, kwargs, partial)
    ensures BindParams(sig.params, args, kwargs, partial).Success? ==>
              (r.Success? <==> forall k :: 0 <= k < |kwargs| ==> kwargs[k].0 in Names(sig.params))
    ensures r.Success? ==> r == BindParams(sig.params, args, kwargs, partial)
    ensures r.Failure? && r.error.UnexpectedKeyword? ==>
              r.error.keyword in Keys(kwargs) && r.error.keyword !in Names(sig.params)
  {
    match BindParams(sig.params, args, kwargs, partial)
    case Failure(e) => Failure(e)
    case Success(arguments) =>
      match FirstUnknown(kwargs, Names(sig.params))
      case Some(k) => Failure(UnexpectedKeyword(k))
      case None => Success(arguments)
  }

  /** Positional arguments paired with the parameters at the same positions. */
  function Positional<A>(params: seq<Param>, args: seq<A>): (r: seq<(string, A)>)
    requires |params| == |args|
    ensures |r| == |args|
    ensures forall i :: 0 <= i < |args| ==> r[i] == (params[i].name, args[i])
  {
    seq(|args|, i requires 0 <= i < |args| => (params[i].name, args[i]))
  }

  /** The parameters that a keyword argument names, each with that argument, in parameter order. */
  function KeywordBound<A(==)>(params: seq<Param>, kwargs: seq<(string, A)>): (r: seq<(string, A)>)
    ensures |r| <= |params|
    ensures forall i :: 0 <= i < |r| ==> Lookup(kwargs, r[i].0) == Some(r[i].1)
  {
    if params == [] then []
    else
      match Lookup(kwargs, params[0].name)
      case Some(v) => [(params[0].name, v)] + KeywordBound(params[1..], kwargs)
      case None => KeywordBound(params[1..], kwargs)
  }

  /**
   * Binding succeeds exactly when there are no more positional arguments than
   * parameters, no positionally bound parameter is also passed by keyword,
   * and (for a full `bind`) every later parameter without a default is
   * passed by keyword.
   */
  lemma {:induction false} BindParamsSucceeds<A>(params: seq<Param>, args: seq<A>, kwargs: seq<(string, A)>, partial: bool)
    ensures BindParams(params, args, kwargs, partial).Success? <==>
              && |args| <= |params|
              && (forall i :: 0 <= i < |args| ==> params[i].name !in Keys(kwargs))
              && (!partial ==> forall j :: |args| <= j < |params| && params[j].default.None? ==> params[j].name in Keys(kwargs))
  {
    if params != [] {
      if args != [] {
        BindParamsSucceeds(params[1..], args[1..], kwargs, partial);
        assert forall i :: 1 <= i < |params| ==> params[i] == params[1..][i - 1];
      } else {
        BindParamsSucceeds(params[1..], args, kwargs, partial);
        assert forall i :: 1 <= i < |params| ==> params[i] == params[1..][i - 1];
      }
    }
  }

  /**
   * In a signature whose parameter names are distinct, as Python requires,
   * a successful binding names only parameters, and none of them twice.
   */
  lemma {:induction false} BindParamsBindsEachOnce<A>(params: seq<Param>, args: seq<A>, kwargs: seq<(string, A)>, partial: bool)
    requires BindParams(params, args, kwargs, partial).Success?
    requires forall a, b :: 0 <= a < b < |params| ==> params[a].name != params[b].name
    ensures var r := BindParams(params, args, kwargs, partial).value;
            && (forall i :: 0 <= i < |r| ==> r[i].0 in Names(params))
            && (forall a, b :: 0 <= a < b < |r| ==> r[a].0 != r[b].0)
  {
    if params != [] {
      var tail := params[1..];
      assert forall i :: 0 <= i < |tail| ==> tail[i] == params[i + 1];
      var r := BindParams(params, args, kwargs, partial).value;
      var rest;
      if args != [] {
        BindParamsBindsEachOnce(tail, args[1..], kwargs, partial);
        rest := BindParams(tail, args[1..], kwargs, partial).value;
        assert r == [(params[0].name, args[0])] + rest;
      } else {
        BindParamsBindsEachOnce(tail, args, kwargs, partial);
        rest := BindParams(tail, args, kwargs, partial).value;
        assert r == rest || exists v :: r == [(params[0].name, v)] + rest;
      }
      forall i | 0 <= i < |rest|
        ensures rest[i].0 in Names(params) && rest[i].0 != params[0].name
      {
        var j :| 0 <= j < |tail| && Names(tail)[j] == rest[i].0;
        assert Names(params)[j + 1] == rest[i].0;
      }
    }
  }

  /** What a successful binding holds: the positional pairs, then the parameters passed by keyword. */
  lemma {:induction false} BindParamsShape<A>(params: seq<Param>, args: seq<A>, kwargs: seq<(string, A)>, partial: bool)
    requires BindParams(params, args, kwargs, partial).Success?
    ensures |args| <= |params|
    ensures BindParams(params, args, kwargs, partial).value
              == Positional(params[..|args|], args) + KeywordBound(params[|args|..], kwargs)
  {
    if params == [] {
    } else if args != [] {
      BindParamsShape(params[1..], args[1..], kwargs, partial);
      var rest := BindParams(params[1..], args[1..], kwargs, partial).value;
      assert BindParams(params, args, kwargs, partial).value == [(params[0].name, args[0])] + rest;
      var n := |args|;
      assert params[..n] == [params[0]] + params[1..][..n - 1];
      assert args == [args[0]] + args[1..];
      assert params[1..][n - 1..] == params[n..];
      ShapeStep(params[0], args[0], params[1..][..n - 1], args[1..], KeywordBound(params[n..], kwargs));
    } else {
      KeywordOnlyShape(params, kwargs, partial);
    }
  }

  /** One more positional pair in front of a binding. */
  lemma ShapeStep<A>(p: Param, a: A, ps: seq<Param>, args: seq<A>, keyword: seq<(string, A)>)
    requires |ps| == |args|
    ensures [(p.name, a)] + (Positional(ps, args) + keyword) == Positional([p] + ps, [a] + args) + keyword
  {
    var whole := Positional([p] + ps, [a] + args);
    var tail := Positional(ps, args);
    forall i | 1 <= i < |whole|
      ensures whole[i] == tail[i - 1]
    {
      assert ([p] + ps)[i] == ps[i - 1];
      assert ([a] + args)[i] == args[i - 1];
    }
    assert whole == [(p.name, a)] + tail;
  }

  /** With no positional arguments left, binding is exactly the keyword-bound parameters. */
  lemma {:induction false} KeywordOnlyShape<A>(params: seq<Param>, kwargs: seq<(string, A)>, partial: bool)
    requires BindParams(params, [], kwargs, partial).Success?
    ensures BindParams(params, [], kwargs, partial).value == KeywordBound(params, kwargs)
  {
    if params != [] {
      KeywordOnlyShape(params[1..], kwargs, partial);
    }
  }

  /** `Bind` succeeds when the parameter loop does and every keyword argument names a parameter. */
  lemma BindSucceeds<A>(sig: Signature, args: seq<A>, kwargs: seq<(string, A)>, partial: bool)
    ensures Bind(sig, args, kwargs, partial).Success? <==>
              && |args| <= |sig.params|
              && (forall i :: 0 <= i < |args| ==> sig.params[i].name !in Keys(kwargs))
              && (!partial ==> forall j :: |args| <= j < |sig.params| && sig.params[j].default.None? ==> sig.params[j].name in Keys(kwargs))
              && (forall k :: 0 <= k < |kwargs| ==> kwargs[k].0 in Names(sig.params))
    ensures Bind(sig, args, kwargs, partial).Success? ==>
              Bind(sig, args, kwargs, partial).value == Positional(sig.params[..|args|], args) + KeywordBound(sig.params[|args|..], kwargs)
  {
    BindParamsSucceeds(sig.params, args, kwargs, partial);
    if BindParams(sig.params, args, kwargs, partial).Success? {
      BindParamsShape(sig.params, args, kwargs, partial);
    }
  }

  /**
   * A parameter after the positional arguments that no keyword argument names
   * is left out of the bound arguments, so its default is never inspected.
   */
  lemma DefaultNotBound<A>(sig: Signature, args: seq<A>, kwargs: seq<(string, A)>, partial: bool, j: int)
    requires Bind(sig, args, kwargs, partial).Success?
    requires forall a, b :: 0 <= a < b < |sig.params| ==> sig.params[a].name != sig.params[b].name
    requires |args| <= j < |sig.params| && sig.params[j].name !in Keys(kwargs)
    ensures sig.params[j].name !in Keys(Bind(sig, args, kwargs, partial).value)
  {
    var bound := BindParams(sig.params, args, kwargs, partial).value;
    assert Bind(sig, args, kwargs, partial).value == bound;
    BindParamsShape(sig.params, args, kwargs, partial);
    var pos := Positional(sig.params[..|args|], args);
    var kw := KeywordBound(sig.params[|args|..], kwargs);
    forall i | 0 <= i < |pos| ensures pos[i].0 != sig.params[j].name {
      assert pos[i].0 == sig.params[i].name;
    }
    forall i | 0 <= i < |kw| ensures kw[i].0 != sig.params[j].name {
      assert Lookup(kwargs, kw[i].0).Some?;
    }
    KeysAppend(pos, kw);
  }

  // ---------------------------------------------------------------------------
  // enforce_type

  /** A callable wrapped by `enforce_type`: its signature and the expected types by parameter name. */
  datatype Enforced = Enforced(sig: Signature, boundTypes: seq<(string, PyType)>)

  /**
   * `enforce_type(*type_args, **type_kwargs)(func)`: `bind_partial` the
   * expected types to the parameters of `func`: positional ones in parameter
   * order, keyword ones by name.
   */
  function EnforceType(sig: Signature, typeArgs: seq<PyType>, typeKwargs: seq<(string, PyType)>): (r: Result<Enforced, BindError>)
    ensures r.Success? <==> Bind(sig, typeArgs, typeKwargs, true).Success?
    ensures r.Success? ==> r.value.sig == sig && |typeArgs| <= |sig.params|
    ensures r.Success? ==> r.value.boundTypes == Positional(sig.params[..|typeArgs|], typeArgs)
                                                + KeywordBound(sig.params[|typeArgs|..], typeKwargs)
  {
    match Bind(sig, typeArgs, typeKwargs, true)
    case Failure(e) => Failure(e)
    case Success(bound) =>
      BindSucceeds(sig, typeArgs, typeKwargs, true);
      Success(Enforced(sig, bound))
  }

  /** A bound argument passes when its parameter has no expected type or the value is an instance of it. */
  predicate Conforms(arg: (string, Value), boundTypes: seq<(string, PyType)>)
    ensures arg.0 !in Keys(boundTypes) ==> Conforms(arg, boundTypes)
    ensures forall t :: Lookup(boundTypes, arg.0) == Some(t) ==> (Conforms(arg, boundTypes) <==> IsInstance(arg.1, t))
  {
    match Lookup(boundTypes, arg.0)
    case None => true
    case Some(t) => IsInstance(arg.1, t)
  }

  /** The loop of the wrapper: the position of the first bound argument that fails its check. */
  function FirstViolation(arguments: seq<(string, Value)>, boundTypes: seq<(string, PyType)>): (r: Option<nat>)
    ensures r.None? <==> forall i :: 0 <= i < |arguments| ==> Conforms(arguments[i], boundTypes)
    ensures r.Some? ==> r.value < |arguments| && !Conforms(arguments[r.value], boundTypes)
                        && forall j :: 0 <= j < r.value ==> Conforms(arguments[j], boundTypes)
  {
    if arguments == [] then None
    else if !Conforms(arguments[0], boundTypes) then Some(0)
    else
      var rest := arguments[1..];
      assert arguments == [arguments[0]] + rest;
      match FirstViolation(rest, boundTypes)
      case Some(i) =>
        assert arguments[i + 1] == rest[i];
        Some(i + 1)
      case None => None
  }

  /** Why a wrapped call raised: the arguments did not bind, or a covered argument has the wrong type. */
  datatype CallError = BadCall(bindError: BindError) | ArgumentType(param: string, expected: PyType)

  /**
   * The wrapper: bind the call's arguments, check each bound argument whose
   * parameter has an expected type, and only if all pass call `func`,
   * returning its result unchanged.
   */
  function Call<R>(e: Enforced, func: (seq<Value>, seq<(string, Value)>) -> R, args: seq<Value>, kwargs: seq<(string, Value)>)
    : (r: Result<R, CallError>)
    ensures r.Success? ==> r.value == func(args, kwargs)
    ensures var b := Bind(e.sig, args, kwargs, false);
            r.Success? <==> b.Success? && forall i :: 0 <= i < |b.value| ==> Conforms(b.value[i], e.boundTypes)
    ensures var b := Bind(e.sig, args, kwargs, false);
            r.Failure? && r.error.ArgumentType? ==>
              b.Success? && exists i :: 0 <= i < |b.value| && b.value[i].0 == r.error.param
                                        && Lookup(e.boundTypes, r.error.param) == Some(r.error.expected)
                                        && !IsInstance(b.value[i].1, r.error.expected)
    ensures var b := Bind(e.sig, args, kwargs, false);
            b.Failure? ==> r == Failure(BadCall(b.error))
    ensures var b := Bind(e.sig, args, kwargs, false);
            b.Success? && r.Failure? ==>
              r.error.ArgumentType? && exists i :: 0 <= i < |b.value| && b.value[i].0 == r.error.param
                                                   && !Conforms(b.value[i], e.boundTypes)
                                                   && forall j :: 0 <= j < i ==> Conforms(b.value[j], e.boundTypes)
  {
    match Bind(e.sig, args, kwargs, false)
    case Failure(be) => Failure(BadCall(be))
    case Success(arguments) =>
      match FirstViolation(arguments, e.boundTypes)
      case Some(i) => Failure(ArgumentType(arguments[i].0, Lookup(e.boundTypes, arguments[i].0).value))
      case None => Success(func(args, kwargs))
  }

  /** A refused call is refused the same way whatever the wrapped body would do: the check comes first. */
  lemma RefusedBeforeTheBody<R>(e: Enforced, f: (seq<Value>, seq<(string, Value)>) -> R, g: (seq<Value>, seq<(string, Value)>) -> R,
                                args: seq<Value>, kwargs: seq<(string, Value)>)
    requires Call(e, f, args, kwargs).Failure?
    ensures Call(e, g, args, kwargs) == Call(e, f, args, kwargs)
  {
  }

  /**
   * A positional argument whose parameter has no expected type is never
   * checked: replacing its value cannot turn an accepted call into a refused
   * one or the other way round.
   */
  lemma UncoveredNeverChecked<R>(e: Enforced, func: (seq<Value>, seq<(string, Value)>) -> R,
                                 args: seq<Value>, kwargs: seq<(string, Value)>, i: int, v: Value)
    requires 0 <= i < |args| && i < |e.sig.params|
    requires e.sig.params[i].name !in Keys(e.boundTypes)
    ensures Call(e, func, args, kwargs).Success? <==> Call(e, func, args[i := v], kwargs).Success?
  {
    var args' := args[i := v];
    BindOnlyCountsPositionals(e.sig, args, args', kwargs, false);
    var b, b' := Bind(e.sig, args, kwargs, false), Bind(e.sig, args', kwargs, false);
    if b.Success? {
      BindSucceeds(e.sig, args, kwargs, false);
      BindSucceeds(e.sig, args', kwargs, false);
      forall k | 0 <= k < |b.value|
        ensures Conforms(b.value[k], e.boundTypes) <==> Conforms(b'.value[k], e.boundTypes)
      {
        if k == i {
          assert b.value[k].0 == e.sig.params[i].name == b'.value[k].0;
          assert Lookup(e.boundTypes, b.value[k].0).None?;
        } else {
          assert b.value[k] == b'.value[k];
        }
      }
    }
  }

  /** Whether arguments bind depends on how many positional arguments there are, not on their values. */
  lemma BindOnlyCountsPositionals<A>(sig: Signature, args: seq<A>, args': seq<A>, kwargs: seq<(string, A)>, partial: bool)
    requires |args| == |args'|
    ensures Bind(sig, args, kwargs, partial).Success? <==> Bind(sig, args', kwargs, partial).Success?
  {
    BindSucceeds(sig, args, kwargs, partial);
    BindSucceeds(sig, args', kwargs, partial);
  }

  /** `def spam(foo: bool, bar: int, tez: int = 42)` */
  const SpamSig := Signature([Param("foo", PositionalOrKeyword, None, Some("bool")),
                              Param("bar", PositionalOrKeyword, None, Some("int")),
                              Param("tez", PositionalOrKeyword, Some("42"), Some("int"))], None)

  /** With no keyword arguments nothing is keyword-bound. */
  lemma {:induction false} NoKeywordsBound<A>(params: seq<Param>)
    ensures KeywordBound<A>(params, []) == []
  {
    if params != [] {
      NoKeywordsBound<A>(params[1..]);
    }
  }

  /** `spam(a, b)`: two positional arguments bind `foo` and `bar`; `tez` keeps its default and is not bound. */
  lemma SpamBindsPositionally(a: Value, b: Value)
    ensures Bind(SpamSig, [a, b], [], false) == Success([("foo", a), ("bar", b)])
  {
    var kwargs: seq<(string, Value)> := [];
    BindSucceeds(SpamSig, [a, b], kwargs, false);
    NoKeywordsBound<Value>(SpamSig.params[2..]);
    assert Keys(kwargs) == [];
    assert SpamSig.params[2].default.Some?;
    assert Bind(SpamSig, [a, b], kwargs, false).Success?;
    var r := Bind(SpamSig, [a, b], kwargs, false).value;
    assert r == Positional(SpamSig.params[..2], [a, b]) + KeywordBound(SpamSig.params[2..], kwargs);
    assert Positional(SpamSig.params[..2], [a, b]) == [("foo", a), ("bar", b)];
    assert r == [("foo", a), ("bar", b)];
  }

  /** Expected types by keyword, one for each parameter of `spam`. */
  const SpamTypes := [("foo", BoolType), ("bar", IntType), ("tez", IntType)]

  /** Each parameter of `spam` looks up its own expected type. */
  lemma SpamTypesLookup()
    ensures Lookup(SpamTypes, "foo") == Some(BoolType)
    ensures Lookup(SpamTypes, "bar") == Some(IntType)
    ensures Lookup(SpamTypes, "tez") == Some(IntType)
  {
    assert SpamTypes == [SpamTypes[0]] + SpamTypes[1..] && SpamTypes[1..] == [SpamTypes[1]] + SpamTypes[2..];
    LookupCons(SpamTypes[0], SpamTypes[1..], "bar");
    LookupCons(SpamTypes[0], SpamTypes[1..], "tez");
    LookupCons(SpamTypes[1], SpamTypes[2..], "tez");
  }

  /** Binding `foo=bool, bar=int, tez=int` by name keeps all three, in parameter order. */
  lemma SpamTypesKeywordBound()
    ensures KeywordBound(SpamSig.params, SpamTypes) == SpamTypes
  {
    var ps := SpamSig.params;
    SpamTypesLookup();
    assert ps[2..][1..] == [];
    assert KeywordBound(ps[2..], SpamTypes) == [("tez", IntType)];
    assert ps[1..][1..] == ps[2..];
    assert KeywordBound(ps[1..], SpamTypes) == [("bar", IntType), ("tez", IntType)];
  }

  /** `bind_partial(foo=bool, bar=int, tez=int)` against `spam` raises nothing. */
  lemma SpamTypesBind()
    ensures Bind(SpamSig, [], SpamTypes, true).Success?
  {
    var none: seq<PyType> := [];
    BindSucceeds(SpamSig, none, SpamTypes, true);
    assert Names(SpamSig.params) == ["foo", "bar", "tez"];
  }

  /** `@enforce_type(foo=bool, bar=int, tez=int)` binds each expected type to the parameter it names. */
  lemma SpamDecoration()
    ensures EnforceType(SpamSig, [], SpamTypes) == Success(Enforced(SpamSig, SpamTypes))
  {
    var ps := SpamSig.params;
    var none: seq<PyType> := [];
    SpamTypesBind();
    SpamTypesKeywordBound();
    var r := EnforceType(SpamSig, none, SpamTypes);
    assert ps[..0] == [] && ps[0..] == ps;
    assert r.value.boundTypes == Positional(ps[..0], none) + KeywordBound(ps, SpamTypes);
  }

  /** The wrapped `spam`: `spam(True, 10)` returns what `spam` returns, `tez` being left at its default unchecked. */
  lemma SpamAcceptsBoolAndInt<R>(spam: (seq<Value>, seq<(string, Value)>) -> R)
    ensures Call(Enforced(SpamSig, SpamTypes), spam, [BoolVal(true), IntVal(10)], [])
              == Success(spam([BoolVal(true), IntVal(10)], []))
  {
    var args := [BoolVal(true), IntVal(10)];
    var kwargs: seq<(string, Value)> := [];
    SpamBindsPositionally(BoolVal(true), IntVal(10));
    SpamTypesLookup();
    var bound := Bind(SpamSig, args, kwargs, false).value;
    assert bound == [("foo", BoolVal(true)), ("bar", IntVal(10))];
    assert Conforms(bound[0], SpamTypes) && Conforms(bound[1], SpamTypes);
  }

  /** The wrapped `spam`: `spam(None, 10)` is refused on `foo` before `spam` runs. */
  lemma SpamRefusesNone<R>(spam: (seq<Value>, seq<(string, Value)>) -> R)
    ensures Call(Enforced(SpamSig, SpamTypes), spam, [NoneVal, IntVal(10)], [])
              == Failure(ArgumentType("foo", BoolType))
  {
    var args := [NoneVal, IntVal(10)];
    var kwargs: seq<(string, Value)> := [];
    SpamBindsPositionally(NoneVal, IntVal(10));
    SpamTypesLookup();
    var bound := Bind(SpamSig, args, kwargs, false).value;
    assert bound == [("foo", NoneVal), ("bar", IntVal(10))];
    assert !Conforms(bound[0], SpamTypes);
    assert FirstViolation(bound, SpamTypes) == Some(0);
  }

  /**
   * The docstring's `@enforce_type(int, bool, tez=int)`: `spam(1, 10)` is
   * refused on `bar`. Its `spam` has the parameter names and default of
   * `SpamSig`; only the annotations differ, and binding does not read them.
   */
  lemma PositionalTypesExample<R>(spam: (seq<Value>, seq<(string, Value)>) -> R)
    ensures Call(Enforced(SpamSig, [("foo", IntType), ("bar", BoolType), ("tez", IntType)]), spam, [IntVal(1), IntVal(10)], [])
              == Failure(ArgumentType("bar", BoolType))
  {
    var types := [("foo", IntType), ("bar", BoolType), ("tez", IntType)];
    var args := [IntVal(1), IntVal(10)];
    var kwargs: seq<(string, Value)> := [];
    SpamBindsPositionally(IntVal(1), IntVal(10));
    assert types == [types[0]] + types[1..];
    LookupCons(types[0], types[1..], "bar");
    assert Lookup(types, "foo") == Some(IntType);
    assert Lookup(types, "bar") == Some(BoolType);
    var bound := Bind(SpamSig, args, kwargs, false).value;
    assert bound == [("foo", IntVal(1)), ("bar", IntVal(10))];
    assert Conforms(bound[0], types) && !Conforms(bound[1], types);
    assert bound[1..] == [bound[1]];
    assert FirstViolation(bound, types) == Some(1);
  }

  /** `bind_partial(int, bool, tez=int)` against `spam` raises nothing. */
  lemma PositionalTypesBind()
    ensures Bind(SpamSig, [IntType, BoolType], [("tez", IntType)], true).Success?
  {
    var kw := [("tez", IntType)];
    BindSucceeds(SpamSig, [IntType, BoolType], kw, true);
    assert Keys(kw) == ["tez"];
    assert Names(SpamSig.params) == ["foo", "bar", "tez"];
  }

  /** The positional expected types of `@enforce_type(int, bool, tez=int)` go to `foo` and `bar` in order. */
  lemma PositionalTypesDecoration()
    ensures EnforceType(SpamSig, [IntType, BoolType], [("tez", IntType)])
              == Success(Enforced(SpamSig, [("foo", IntType), ("bar", BoolType), ("tez", IntType)]))
  {
    var ps := SpamSig.params;
    var kw := [("tez", IntType)];
    var types := [IntType, BoolType];
    PositionalTypesBind();
    assert Lookup(kw, "tez") == Some(IntType);
    assert ps[2..][1..] == [];
    assert KeywordBound(ps[2..], kw) == kw;
    var r := EnforceType(SpamSig, types, kw);
    assert r.value.boundTypes == Positional(ps[..2], types) + KeywordBound(ps[2..], kw);
    assert Positional(ps[..2], types) == [("foo", IntType), ("bar", BoolType)];
    assert r.Success? && r.value.sig == SpamSig;
    assert r.value.boundTypes == [("foo", IntType), ("bar", BoolType)] + [("tez", IntType)];
    assert r.value.boundTypes == [("foo", IntType), ("bar", BoolType), ("tez", IntType)];
    assert r.value == Enforced(SpamSig, [("foo", IntType), ("bar", BoolType), ("tez", IntType)]);
  }

  // ---------------------------------------------------------------------------
  // typed_property

  /** `getattr` found no such attribute. */
  datatype AttributeError = NoAttribute(name: Value)

  /**
   * `typed_property(name, expected_type)`: a property whose getter reads the
   * backing attribute `"_" + name` and whose setter writes it only after an
   * `isinstance` check.
   */
  datatype TypedProperty = TypedProperty(name: string, expected: PyType) {

    /** `to_private_name`: never the property's own attribute, so the setter does not call itself. */
    function Backing(): (v: Value)
      ensures v.StrVal? && v != StrVal(name)
    {
      StrVal("_" + name)
    }

    /** The getter: the backing attribute, or `AttributeError` when it was never set. */
    function Get(obj: PyObject): (r: Result<Value, AttributeError>)
      reads obj
      ensures r.Success? <==> Backing() in obj.dict
      ensures r.Success? ==> r.value == obj.dict[Backing()]
      ensures r.Failure? ==> r.error == NoAttribute(Backing())
    {
      if Backing() in obj.dict then Success(obj.dict[Backing()]) else Failure(NoAttribute(Backing()))
    }

    /** The setter: refuse a value of the wrong type and leave the object as it was, otherwise store it. */
    method Set(obj: PyObject, value: Value) returns (r: Outcome<TypeError>)
      modifies obj
      ensures r.Pass? <==> IsInstance(value, expected)
      ensures r.Pass? ==> obj.dict == old(obj.dict)[Backing() := value] && Get(obj) == Success(value)
      ensures forall q: TypedProperty :: q.name != name ==> q.Get(obj) == old(q.Get(obj))
      ensures r.Fail? ==> r.error == ExpectedType(StrVal(name), expected) && obj.dict == old(obj.dict)
    {
      var written := CheckedWrite(obj.dict, Backing(), expected, value);
      if written.None? {
        return Fail(ExpectedType(StrVal(name), expected));
      }
      obj.dict := written.value;
      forall q: TypedProperty | q.name != name
        ensures q.Backing() != Backing()
      {
        BackingInjective(q, this);
      }
      return Pass;
    }
  }

  /** Two properties share a backing attribute only when they have the same name. */
  lemma BackingInjective(p: TypedProperty, q: TypedProperty)
    ensures p.Backing() == q.Backing() ==> p.name == q.name
  {
    if p.Backing() == q.Backing() {
      assert p.name == p.Backing().s[1..];
      assert q.name == q.Backing().s[1..];
    }
  }

  /** `person.age = 21` then `person.age` is `21`; a later `person.age = None` raises and keeps `21`. */
  method PersonAge() returns (person: PyObject, good: Outcome<TypeError>, bad: Outcome<TypeError>)
    ensures good == Pass && bad == Fail(ExpectedType(StrVal("age"), IntType))
    ensures TypedProperty("age", IntType).Get(person) == Success(IntVal(21))
  {
    var age := TypedProperty("age", IntType);
    person := new PyObject(map[StrVal("_age") := IntVal(20)]);
    good := age.Set(person, IntVal(21));
    bad := age.Set(person, NoneVal);
  }
}
