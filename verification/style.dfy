/**
 * The PEP 8 policies of punish/style.py. A class declaration is explicit
 * data: its name, its namespace in declaration order, and the attributes
 * its parent classes make visible to `super(cls, cls)`. Each metaclass hook
 * becomes a validator that returns the created class or the error it raises.
 */
module Style {
  import opened Wrappers
  import opened Text
  import opened Namespace
  import opened Objects

  /** What a metaclass receives: the class name, the namespace, and the attributes reachable from the parents. */
  datatype Declaration = Declaration(name: string, namespace: seq<(string, Value)>, parent: map<string, Value>)

  /** The exceptions the style metaclasses raise, with the names they report. */
  datatype StyleError =
    | BadAttributeName(className: string, attribute: string)
    | BadClassName(className: string)
    | ClassNameIndexError                // `class_name[0]` on an empty class name
    | SignatureMismatch(className: string, member: string, previous: Signature, current: Signature)
    | ParentNotCallable(className: string, member: string)   // `inspect.signature` refuses a non-callable

  // ---------------------------------------------------------------------------
  // NoMixedCaseMeta

  /** The index of the first key that `lower()` changes, scanning the namespace in order. */
  function FirstMixedCase(ns: seq<(string, Value)>): (r: Option<nat>)
    ensures r.Some? ==> r.value < |ns| && HasUpper(ns[r.value].0)
                        && forall j :: 0 <= j < r.value ==> !HasUpper(ns[j].0)
    ensures r.None? <==> forall j :: 0 <= j < |ns| ==> !HasUpper(ns[j].0)
  {
    if ns == [] then None
    else
      LowerFixesExactlyCaseless(ns[0].0);
      if Lower(ns[0].0) != ns[0].0 then Some(0)
      else
        match FirstMixedCase(ns[1..])
        case None => None
        case Some(i) => Some(i + 1)
  }

  /**
   * `NoMixedCaseMeta.__new__`: refuse the class when some attribute name
   * holds an upper-case letter, naming the first such attribute; otherwise
   * create it from the namespace as given.
   */
  function NoMixedCase(d: Declaration): (r: Result<Declaration, StyleError>)
    ensures r.Failure? <==> exists i :: 0 <= i < |d.namespace| && HasUpper(d.namespace[i].0)
    ensures r.Failure? ==> exists i :: 0 <= i < |d.namespace| && HasUpper(d.namespace[i].0)
                                       && r.error == BadAttributeName(d.name, d.namespace[i].0)
                                       && forall j :: 0 <= j < i ==> !HasUpper(d.namespace[j].0)
    ensures r.Success? ==> r.value == d
  {
    match FirstMixedCase(d.namespace)
    case Some(i) => Failure(BadAttributeName(d.name, d.namespace[i].0))
    case None => Success(d)
  }

  /** A key differs from its lower-cased form exactly when it holds an upper-case letter, so the rule is the source's. */
  lemma NoMixedCaseIsLowerTest(d: Declaration)
    ensures NoMixedCase(d).Failure? <==> exists i :: 0 <= i < |d.namespace| && Lower(d.namespace[i].0) != d.namespace[i].0
  {
    forall i | 0 <= i < |d.namespace| {
      LowerFixesExactlyCaseless(d.namespace[i].0);
    }
  }

  // ---------------------------------------------------------------------------
  // NoLowerCaseMeta

  /**
   * `NoLowerCaseMeta.__new__`: refuse a class name that starts with a
   * lower-case letter or is lower-case as a whole (`str.islower`). An empty
   * name fails on `class_name[0]` before either test.
   */
  function NoLowerCase(d: Declaration): (r: Result<Declaration, StyleError>)
    ensures r.Success? <==> d.name != [] && !IsLower(d.name[0])
                            && (HasUpper(d.name) || forall i :: 0 <= i < |d.name| ==> !IsCased(d.name[i]))
    ensures r.Failure? ==> r.error == if d.name == [] then ClassNameIndexError else BadClassName(d.name)
    ensures r.Success? ==> r.value == d
  {
    if d.name == [] then Failure(ClassNameIndexError)
    else if IsLower(d.name[0]) || IsLowerString(d.name) then Failure(BadClassName(d.name))
    else Success(d)
  }

  // ---------------------------------------------------------------------------
  // MatchSignatureMeta

  /**
   * `getattr(parent, name, None)`: the parent's attribute, or the default
   * `None`, which is falsy, so a missing attribute reads as no counterpart.
   */
  function ParentAttr(parent: map<string, Value>, name: string): (v: Value)
    ensures name in parent ==> v == parent[name]
    ensures name !in parent ==> !Truthy(v) && !Callable(v)
  {
    if name in parent then parent[name] else NoneVal
  }

  /**
   * The test `MatchSignatureMeta.__init__` applies to one namespace entry:
   * private and non-callable members are skipped, a member without a truthy
   * counterpart on the parent is accepted, and otherwise the two signatures
   * must be equal.
   */
  function CheckOverride(className: string, parent: map<string, Value>, name: string, value: Value): (r: Outcome<StyleError>)
    ensures StartsWith(name, "_") || !Callable(value) || !Truthy(ParentAttr(parent, name)) ==> r.Pass?
    ensures !StartsWith(name, "_") && Callable(value) && Callable(ParentAttr(parent, name)) ==>
              (r.Pass? <==> ParentAttr(parent, name).sig == value.sig)
    ensures r.Fail? ==> !StartsWith(name, "_") && Callable(value) && Truthy(ParentAttr(parent, name))
    ensures r.Fail? && Callable(ParentAttr(parent, name)) ==>
              r.error == SignatureMismatch(className, name, ParentAttr(parent, name).sig, value.sig)
    ensures r.Fail? && !Callable(ParentAttr(parent, name)) ==> r.error == ParentNotCallable(className, name)
    ensures !StartsWith(name, "_") && Callable(value) && Truthy(ParentAttr(parent, name)) && !Callable(ParentAttr(parent, name)) ==>
              r == Fail(ParentNotCallable(className, name))
  {
    if StartsWith(name, "_") || !Callable(value) then Pass
    else
      var previous := ParentAttr(parent, name);
      if !Truthy(previous) then Pass
      else if !Callable(previous) then Fail(ParentNotCallable(className, name))
      else if previous.sig != value.sig then Fail(SignatureMismatch(className, name, previous.sig, value.sig))
      else Pass
  }

  /** The loop over the namespace: the first entry whose check fails decides the error. */
  function CheckOverrides(className: string, parent: map<string, Value>, ns: seq<(string, Value)>): (r: Outcome<StyleError>)
    ensures r.Pass? <==> forall i :: 0 <= i < |ns| ==> CheckOverride(className, parent, ns[i].0, ns[i].1).Pass?
    ensures r.Fail? ==> exists i :: 0 <= i < |ns| && CheckOverride(className, parent, ns[i].0, ns[i].1) == r
                                    && forall j :: 0 <= j < i ==> CheckOverride(className, parent, ns[j].0, ns[j].1).Pass?
  {
    if ns == [] then Pass
    else
      var head := CheckOverride(className, parent, ns[0].0, ns[0].1);
      if head.Fail? then head
      else
        var rest := CheckOverrides(className, parent, ns[1..]);
        assert forall i :: 1 <= i < |ns| ==> ns[i] == ns[1..][i - 1];
        if rest.Fail? then
          var i :| 0 <= i < |ns[1..]| && CheckOverride(className, parent, ns[1..][i].0, ns[1..][i].1) == rest
                   && forall j :: 0 <= j < i ==> CheckOverride(className, parent, ns[1..][j].0, ns[1..][j].1).Pass?;
          assert CheckOverride(className, parent, ns[i + 1].0, ns[i + 1].1) == rest;
          rest
        else rest
  }

  /** `MatchSignatureMeta.__init__`: every public callable that overrides a parent callable keeps its signature. */
  function MatchSignature(d: Declaration): (r: Result<Declaration, StyleError>)
    ensures r.Success? <==> forall i :: 0 <= i < |d.namespace| ==>
                              CheckOverride(d.name, d.parent, d.namespace[i].0, d.namespace[i].1).Pass?
    ensures r.Failure? ==> exists i :: 0 <= i < |d.namespace|
                              && CheckOverride(d.name, d.parent, d.namespace[i].0, d.namespace[i].1) == Fail(r.error)
                              && forall j :: 0 <= j < i ==> CheckOverride(d.name, d.parent, d.namespace[j].0, d.namespace[j].1).Pass?
    ensures r.Success? ==> r.value == d
  {
    match CheckOverrides(d.name, d.parent, d.namespace)
    case Pass => Success(d)
    case Fail(e) => Failure(e)
  }

  /** The namespace entries `MatchSignatureMeta` compares: public names bound to callables. */
  function PublicCallables(ns: seq<(string, Value)>): (r: seq<(string, Value)>)
    ensures |r| <= |ns|
    ensures forall i :: 0 <= i < |r| ==> r[i] in ns && !StartsWith(r[i].0, "_") && Callable(r[i].1)
    ensures forall i :: 0 <= i < |ns| && !StartsWith(ns[i].0, "_") && Callable(ns[i].1) ==> ns[i] in r
  {
    if ns == [] then []
    else if !StartsWith(ns[0].0, "_") && Callable(ns[0].1) then [ns[0]] + PublicCallables(ns[1..])
    else PublicCallables(ns[1..])
  }

  /**
   * Private members and non-callable members are never compared: dropping
   * them from the namespace leaves the outcome, error included, unchanged.
   */
  lemma {:induction false} OnlyPublicCallablesCompared(className: string, parent: map<string, Value>, ns: seq<(string, Value)>)
    ensures CheckOverrides(className, parent, PublicCallables(ns)) == CheckOverrides(className, parent, ns)
  {
    if ns != [] {
      OnlyPublicCallablesCompared(className, parent, ns[1..]);
      var head := CheckOverride(className, parent, ns[0].0, ns[0].1);
      if !StartsWith(ns[0].0, "_") && Callable(ns[0].1) {
        var filtered := [ns[0]] + PublicCallables(ns[1..]);
        assert filtered[0] == ns[0] && filtered[1..] == PublicCallables(ns[1..]);
      }
    }
  }

  /** A declaration whose public callables have no truthy counterpart on the parent passes without any comparison. */
  lemma {:induction false} NoCounterpartAccepted(d: Declaration)
    requires forall i :: 0 <= i < |d.namespace| ==> !Truthy(ParentAttr(d.parent, d.namespace[i].0))
    ensures MatchSignature(d) == Success(d)
  {
  }

  /** Re-declaring a parent method with one more parameter, with or without a default, is a signature mismatch. */
  lemma ExtraParameterRejected(className: string, name: string, base: Signature, extra: Param)
    requires !StartsWith(name, "_")
    ensures var child := Signature(base.params + [extra], base.returnAnnotation);
            CheckOverride(className, map[name := FuncVal(base)], name, FuncVal(child))
              == Fail(SignatureMismatch(className, name, base, child))
  {
    var child := Signature(base.params + [extra], base.returnAnnotation);
    assert |child.params| != |base.params|;
  }

  // ---------------------------------------------------------------------------
  // PepStyleMeta

  /**
   * `PepStyleMeta(NoLowerCaseMeta, NoMixedCaseMeta, MatchSignatureMeta)`:
   * the `__new__` chain checks the class name, then the attribute names;
   * only once the class object exists does `__init__` compare signatures.
   * The first failing check is the one reported.
   */
  function PepStyle(d: Declaration): (r: Result<Declaration, StyleError>)
    ensures r.Success? <==> NoLowerCase(d).Success? && NoMixedCase(d).Success? && MatchSignature(d).Success?
    ensures r.Success? ==> r.value == d
    ensures NoLowerCase(d).Failure? ==> r == NoLowerCase(d)
    ensures NoLowerCase(d).Success? && NoMixedCase(d).Failure? ==> r == NoMixedCase(d)
    ensures NoLowerCase(d).Success? && NoMixedCase(d).Success? ==> r == MatchSignature(d)
    ensures r.Failure? && r.error.BadAttributeName? ==> NoLowerCase(d).Success? && r == NoMixedCase(d)
    ensures r.Failure? && (r.error.SignatureMismatch? || r.error.ParentNotCallable?) ==>
              NoLowerCase(d).Success? && NoMixedCase(d).Success? && r == MatchSignature(d)
  {
    match NoLowerCase(d)
    case Failure(e) => Failure(e)
    case Success(_) =>
      match NoMixedCase(d)
      case Failure(e) => Failure(e)
      case Success(created) => MatchSignature(created)
  }

  // ---------------------------------------------------------------------------
  // SingletonMeta

  /**
   * A class declared with `SingletonMeta`. `init` is what the class's own
   * construction, `super().__call__(*args, **kwargs)`, makes of the call's
   * arguments: the new instance's dictionary, or `None` when it raises.
   * `instance` is the per-class cache slot.
   */
  class SingletonClass {
    const name: string
    const init: (seq<Value>, seq<(string, Value)>) -> Option<map<Value, Value>>
    var instance: Option<PyObject>

    /** `SingletonMeta.__init__`: the cache slot of a newly declared class is empty. */
    constructor (name: string, init: (seq<Value>, seq<(string, Value)>) -> Option<map<Value, Value>>)
      ensures this.name == name && this.init == init && instance == None
    {
      this.name := name;
      this.init := init;
      instance := None;
    }

    /**
     * `SingletonMeta.__call__`: while the slot is empty a call constructs an
     * instance from its arguments and caches it; if construction raises, the
     * call raises (`None` here) and the slot stays empty. Once filled, every
     * call returns the cached object untouched, whatever its arguments.
     */
    method Call(args: seq<Value>, kwargs: seq<(string, Value)>) returns (obj: Option<PyObject>)
      modifies this
      ensures old(instance).Some? ==> obj == old(instance) && instance == old(instance) && obj.value.dict == old(obj.value.dict)
      ensures old(instance).None? && init(args, kwargs).None? ==> obj.None? && instance.None?
      ensures old(instance).None? && init(args, kwargs).Some? ==>
                obj.Some? && fresh(obj.value) && obj.value.dict == init(args, kwargs).value && instance == obj
    {
      if instance.Some? {
        return instance;
      }
      match init(args, kwargs)
      case None =>
        obj := None;
      case Some(dict) =>
        var created := new PyObject(dict);
        obj := Some(created);
        instance := obj;
    }
  }

  /**
   * `Singleton() is Singleton() is Singleton()`: once a call has constructed
   * the instance, the later calls, with any arguments, return that object. A
   * call whose construction raised leaves the next call to construct again.
   */
  method CallThrice(cls: SingletonClass, a1: seq<Value>, k1: seq<(string, Value)>, a2: seq<Value>,
                    k2: seq<(string, Value)>, a3: seq<Value>, k3: seq<(string, Value)>)
    returns (x: Option<PyObject>, y: Option<PyObject>, z: Option<PyObject>)
    modifies cls
    ensures x.Some? ==> y == x && z == x && cls.instance == x
    ensures old(cls.instance).Some? ==> x == old(cls.instance)
    ensures old(cls.instance).None? && cls.init(a1, k1).Some? ==> x.Some? && fresh(x.value) && x.value.dict == cls.init(a1, k1).value
    ensures old(cls.instance).None? && cls.init(a1, k1).None? && cls.init(a2, k2).Some? ==>
              x.None? && y.Some? && fresh(y.value) && y.value.dict == cls.init(a2, k2).value && z == y
  {
    x := cls.Call(a1, k1);
    y := cls.Call(a2, k2);
    z := cls.Call(a3, k3);
  }

  // ---------------------------------------------------------------------------
  // The declarations of tests/test_style.py

  /** A plain annotated parameter, `name: annotation`, without a default. */
  function Arg(name: string, annotation: string): (p: Param) {
    Param(name, PositionalOrKeyword, None, Some(annotation))
  }

  const SelfParam := Param("self", PositionalOrKeyword, None, None)

  /** `def check(self, name: str, value: str) -> None` */
  const CheckSig := Signature([SelfParam, Arg("name", "str"), Arg("value", "str")], Some("None"))

  /** `def check(self, name: str, value: str, not_expected_argument: bool = False) -> None` */
  const CheckWithFlagSig := Signature(CheckSig.params + [Param("not_expected_argument", PositionalOrKeyword, Some("False"), Some("bool"))], Some("None"))

  /** A class body as Python hands it over: `__module__` and `__qualname__` come first. */
  function Body(className: string, members: seq<(string, Value)>): (r: seq<(string, Value)>) {
    [("__module__", StrVal("tests.test_style")), ("__qualname__", StrVal(className))] + members
  }

  /** `class SnakeCaseMethod` with a method `good_name` is created as declared. */
  lemma SnakeCaseAccepted(sig: Signature)
    ensures var d := Declaration("SnakeCaseMethod", Body("SnakeCaseMethod", [("good_name", FuncVal(sig))]), map[]);
            NoMixedCase(d) == Success(d)
  {
    var ns := Body("SnakeCaseMethod", [("good_name", FuncVal(sig))]);
    assert !IsUpper(ns[0].0[0]) && !IsUpper(ns[0].0[1]);
    assert forall i :: 0 <= i < |ns| ==> !HasUpper(ns[i].0);
  }

  /** The two dunder keys Python adds to every class body hold no upper-case letter and are private. */
  lemma BodyPrelude(className: string, members: seq<(string, Value)>)
    ensures |Body(className, members)| == 2 + |members|
    ensures forall i :: 0 <= i < 2 ==> !HasUpper(Body(className, members)[i].0) && StartsWith(Body(className, members)[i].0, "_")
    ensures forall i :: 0 <= i < |members| ==> Body(className, members)[i + 2] == members[i]
  {
    assert forall k :: 0 <= k < |"__module__"| ==> !IsUpper("__module__"[k]);
    assert forall k :: 0 <= k < |"__qualname__"| ==> !IsUpper("__qualname__"[k]);
  }

  /** A single member with an upper-case letter is the one reported. */
  lemma OneMemberRejected(className: string, key: string, v: Value)
    requires HasUpper(key)
    ensures var d := Declaration(className, Body(className, [(key, v)]), map[]);
            NoMixedCase(d) == Failure(BadAttributeName(className, key))
  {
    BodyPrelude(className, [(key, v)]);
    var d := Declaration(className, Body(className, [(key, v)]), map[]);
    var r := NoMixedCase(d);
    assert HasUpper(d.namespace[2].0);
    var i :| 0 <= i < |d.namespace| && HasUpper(d.namespace[i].0) && r.error == BadAttributeName(d.name, d.namespace[i].0);
    assert i == 2;
  }

  /** `badName` and `BADNAME` are each refused, and named in the error. */
  lemma MixedCaseRejected(sig: Signature)
    ensures var d := Declaration("CamelCaseMethod", Body("CamelCaseMethod", [("badName", FuncVal(sig))]), map[]);
            NoMixedCase(d) == Failure(BadAttributeName("CamelCaseMethod", "badName"))
    ensures var d := Declaration("ConstantMethod", Body("ConstantMethod", [("BADNAME", FuncVal(sig))]), map[]);
            NoMixedCase(d) == Failure(BadAttributeName("ConstantMethod", "BADNAME"))
  {
    assert IsUpper("badName"[3]) && IsUpper("BADNAME"[0]);
    OneMemberRejected("CamelCaseMethod", "badName", FuncVal(sig));
    OneMemberRejected("ConstantMethod", "BADNAME", FuncVal(sig));
  }

  /** As written, an upper-case constant is refused like any other key holding an upper-case letter. */
  lemma UpperCaseConstantRejected()
    ensures var d := Declaration("Constant", Body("Constant", [("GOODNAME", StrVal("foo"))]), map[]);
            NoMixedCase(d) == Failure(BadAttributeName("Constant", "GOODNAME"))
  {
    assert IsUpper("GOODNAME"[0]);
    OneMemberRejected("Constant", "GOODNAME", StrVal("foo"));
  }

  /** `lowercase` is refused and `NoLowerCase` accepted. */
  lemma ClassNameExamples()
    ensures NoLowerCase(Declaration("lowercase", [], map[])) == Failure(BadClassName("lowercase"))
    ensures NoLowerCase(Declaration("NoLowerCase", [], map[])).Success?
  {
    assert IsLower("lowercase"[0]);
    assert IsUpper("NoLowerCase"[0]);
  }

  /**
   * A lower-case first letter fails however the name goes on; a name that
   * starts with `_` fails when it is lower-case as a whole; a name with no
   * letter at all passes.
   */
  lemma ClassNameEdgeCases()
    ensures NoLowerCase(Declaration("fooBar", [], map[])) == Failure(BadClassName("fooBar"))
    ensures NoLowerCase(Declaration("_private", [], map[])) == Failure(BadClassName("_private"))
    ensures NoLowerCase(Declaration("_", [], map[])).Success?
  {
    assert IsLower("fooBar"[0]);
    assert IsLower("_private"[1]);
    assert forall i :: 0 <= i < |"_private"| ==> !IsUpper("_private"[i]);
    assert !IsCased("_"[0]);
  }

  /** `Sub.check` with the base signature is accepted; with an extra defaulted parameter it is a mismatch. */
  lemma OverrideExamples()
    ensures var d := Declaration("Sub", Body("Sub", [("check", FuncVal(CheckSig))]), map["check" := FuncVal(CheckSig)]);
            MatchSignature(d) == Success(d)
    ensures var d := Declaration("Sub", Body("Sub", [("check", FuncVal(CheckWithFlagSig))]), map["check" := FuncVal(CheckSig)]);
            MatchSignature(d) == Failure(SignatureMismatch("Sub", "check", CheckSig, CheckWithFlagSig))
  {
    BodyPrelude("Sub", [("check", FuncVal(CheckWithFlagSig))]);
    BodyPrelude("Sub", [("check", FuncVal(CheckSig))]);
    assert "check"[0] != '_';
    var d := Declaration("Sub", Body("Sub", [("check", FuncVal(CheckWithFlagSig))]), map["check" := FuncVal(CheckSig)]);
    var mismatch := Fail(SignatureMismatch("Sub", "check", CheckSig, CheckWithFlagSig));
    assert CheckOverride(d.name, d.parent, d.namespace[2].0, d.namespace[2].1) == mismatch;
    assert forall i :: 0 <= i < 2 ==> CheckOverride(d.name, d.parent, d.namespace[i].0, d.namespace[i].1).Pass?;
    ExtraParameterRejected("Sub", "check", CheckSig, Param("not_expected_argument", PositionalOrKeyword, Some("False"), Some("bool")));
  }

  /** `lower(AbstractStyle)` stops at the class name although its body is fine. */
  lemma PepStyleReportsClassNameFirst(sig: Signature)
    ensures var d := Declaration("lower", Body("lower", [("badName", FuncVal(sig))]), map[]);
            PepStyle(d) == Failure(BadClassName("lower"))
  {
  }

  /** `check(self, name: str) -> None` on the base class. */
  const StylishBase := Signature([SelfParam, Arg("name", "str")], Some("None"))
  /** The same method with an extra parameter `not_expected_argument: str`. */
  const StylishChild := Signature([SelfParam, Arg("name", "str"), Arg("not_expected_argument", "str")], Some("None"))
  /** `class SoStylish(Stylish)`, which passes both name checks, overriding `check` with `StylishChild`. */
  const SoStylish := Declaration("SoStylish", Body("SoStylish", [("check", FuncVal(StylishChild))]),
                                 map["check" := FuncVal(StylishBase)])

  /** `SoStylish` and its members are well named. */
  lemma SoStylishNamesPass()
    ensures NoLowerCase(SoStylish).Success? && NoMixedCase(SoStylish).Success?
  {
    assert IsUpper(SoStylish.name[0]);
    BodyPrelude("SoStylish", [("check", FuncVal(StylishChild))]);
    assert forall k :: 0 <= k < |"check"| ==> !IsUpper("check"[k]);
  }

  /** The override of `check` in `SoStylish` is the one signature mismatch. */
  lemma SoStylishSignatureFails()
    ensures MatchSignature(SoStylish) == Failure(SignatureMismatch("SoStylish", "check", StylishBase, StylishChild))
  {
    var d := SoStylish;
    BodyPrelude("SoStylish", [("check", FuncVal(StylishChild))]);
    assert "check"[0] != '_';
    assert |StylishBase.params| != |StylishChild.params|;
    var mismatch := Fail(SignatureMismatch("SoStylish", "check", StylishBase, StylishChild));
    assert CheckOverride(d.name, d.parent, d.namespace[2].0, d.namespace[2].1) == mismatch;
    assert forall i :: 0 <= i < 2 ==> CheckOverride(d.name, d.parent, d.namespace[i].0, d.namespace[i].1).Pass?;
  }

  /** A class whose names are fine but whose override adds a parameter is refused on the signature, by the last check. */
  lemma PepStyleReportsSignatureLast()
    ensures PepStyle(SoStylish) == Failure(SignatureMismatch("SoStylish", "check", StylishBase, StylishChild))
  {
    SoStylishNamesPass();
    SoStylishSignatureFails();
  }
}
