# punish, modelled in Dafny

`punish` enforces coding conventions at class-definition time through Python
metaclasses, and adds a few typed-attribute helpers. This project models the
two core modules:

- **punish/style.py**
  - the PEP 8 metaclasses: `NoMixedCaseMeta` (attribute names), `NoLowerCaseMeta` (class names) and `MatchSignatureMeta` (overrides keep the parent's signature);
  - the order in which the composite `PepStyleMeta` runs them;
  - the `SingletonMeta` instance cache.
- **punish/type.py**
  - the `Typed` descriptor with `Integer`, `Float` and `String`;
  - `OrderTypedMeta`, which names each slot after its key and records `_order`;
  - the `enforce_type` decorator, with the `inspect.Signature.bind` / `bind_partial` behaviour it relies on;
  - `typed_property`.

A class declaration is explicit data (`Style.Declaration`) made of:

- the class name;
- the namespace, as an ordered sequence of `(key, value)` entries with distinct keys, as a dict has them; the examples start it with `__module__` and `__qualname__`, as Python does;
- the attributes the parents expose to `super(cls, cls)`.

A value (`Objects.Value`) is one of:

- a plain value whose runtime type the model tracks;
- a function, carrying its signature as data;
- a `Typed` slot.

`isinstance` follows Python's subclass relation over the types modelled:

- every type is a subclass of `object`;
- `bool` is a subclass of `int`.

Each metaclass hook is a function that returns the created declaration or the exception it raises, as a tagged error. State that the source changes in place is modelled with Dafny classes:

- the singleton's cache slot;
- a `Typed` slot's `_name`;
- an instance's `__dict__`.

Files:

- `wrappers.dfy`: `Option`, `Result` and `Outcome`.
- `text.dfy`: the ASCII behaviour of `str.lower` and `str.islower`.
- `namespace.dfy`: insertion-ordered dictionaries.
- `objects.dfy`: types, values, signatures, instance dictionaries and `Typed`.
- `style.dfy`: punish/style.py.
- `typing.dfy`: punish/type.py, apart from `Typed`.

### Where the code and its tests or documentation disagree

The model follows the code in each case.

- **Attribute names.** `NoMixedCaseMeta` refuses any attribute name that `lower()` changes, i.e. any name holding an upper-case letter (punish/style.py:62). The upper-case constant `GOODNAME`, which tests/test_style.py:26-30 expects to be accepted, is refused by the code. `Style.UpperCaseConstantRejected` states the refusal.
- **Error payloads.** The code reports `SignatureError` with `value.__qualname__`, i.e. `Class.member`. The model's error carries the class name and the member name separately.

## Model

| member | source | states |
|---|---|---|
| Text.LowerChar | punish/style.py:62 | lower-casing one character: the result is never upper-case, an upper-case letter becomes a different lower-case letter, anything else is unchanged |
| Text.Lower | punish/style.py:62 | `str.lower` keeps the length and lower-cases position by position |
| Text.IsLowerScan | punish/style.py:81 | CPython's `islower` scan is true exactly when no character is upper-case and a lower-case one was seen, before or during the scan |
| Text.IsLowerString | punish/style.py:81 | `s.islower()` holds exactly when `s` has a lower-case letter and no upper-case letter |
| Text.StartsWith | punish/style.py:107 | `name.startswith(prefix)` is the sequence-prefix relation: the prefix is no longer than the name and agrees with it position by position |
| Text.LowerFixesExactlyCaseless | punish/style.py:62 | `s.lower() == s` exactly when `s` holds no upper-case letter |
| Namespace.IndexOf | punish/type.py:165 | finds no entry exactly when the key is absent; otherwise finds the first entry with that key |
| Namespace.Lookup | punish/type.py:165-166 | `d.get(key)` is absent exactly when the key is not in the dict; otherwise it is the value of the first entry with that key |
| Namespace.Assign | punish/type.py:104 | `d[key] = v` keeps the key order when the key exists and appends the key otherwise |
| Namespace.AssignSetsKey | punish/type.py:104 | after `d[key] = v`, `key` looks up `v` |
| Namespace.AssignKeepsOtherKeys | punish/type.py:104 | after `d[key] = v`, every other key looks up what it did before |
| Objects.CheckedWrite | punish/type.py:32-36 | a checked write produces a dictionary exactly when `isinstance(value, expected)`; that dictionary maps the key to the value, has the old keys plus the key, and keeps every other entry |
| Objects.IsInstance | punish/type.py:166 | `isinstance(v, t)` holds for `object` and for `type(v)`; the only other case is a `bool` checked against `int` |
| Objects.Truthy | punish/style.py:110 | functions and `Typed` slots are truthy; `None`, `False` and `0` are falsy |
| Objects.Callable | punish/style.py:107 | `callable(v)` holds only for functions, and every callable is truthy |
| Objects.Typed.constructor | punish/type.py:20-23 | a base `Typed` keeps the name it was given and expects `NoneType` |
| Objects.Typed.Integer | punish/type.py:39-45 | an `Integer` slot keeps its name and expects `int` |
| Objects.Typed.Float | punish/type.py:48-54 | a `Float` slot keeps its name and expects `float` |
| Objects.Typed.String | punish/type.py:57-63 | a `String` slot keeps its name and expects `str` |
| Objects.Typed.Set | punish/type.py:25-36 | `__set__` succeeds exactly when the value is an instance of the expected type; on success `instance.__dict__[_name]` becomes the value; on failure it raises a TypeError naming the slot and the type, and the dictionary is unchanged |
| Objects.OnlyBaseTypedAcceptsNone | tests/test_type.py:34-44 | `None` passes the base `Typed` check and fails the `int`, `float` and `str` checks |
| Objects.BoolIsAnInt | punish/type.py:166 | `isinstance(True, int)` holds; an `int` is neither a `bool` nor a `float` |
| Style.FirstMixedCase | punish/style.py:61-63 | the scan finds the first key holding an upper-case letter, and finds none exactly when no key holds one |
| Style.NoMixedCase | punish/style.py:61-64 | refused exactly when some key holds an upper-case letter, reporting the first such key with the class name; otherwise the class is created from the namespace as given |
| Style.NoMixedCaseIsLowerTest | punish/style.py:62 | the refusal condition is exactly the source's `attribute_name.lower() != attribute_name` for some key |
| Style.OneMemberRejected | punish/style.py:61-63 | a class body whose one member holds an upper-case letter is refused on that member |
| Style.NoLowerCase | punish/style.py:81-83 | created exactly when the name is non-empty, does not start with a lower-case letter, and is not lower-case as a whole; an empty name fails on `class_name[0]`, any other refusal is BadClassNameError |
| Style.ParentAttr | punish/style.py:109 | `getattr(parent, name, None)` is the parent's attribute when there is one, and otherwise a falsy, non-callable default |
| Style.CheckOverride | punish/style.py:106-114 | private or non-callable members and members without a truthy parent attribute pass; a public callable overriding a parent callable passes exactly when the signatures are equal, and otherwise raises SignatureError with both signatures; a public callable whose parent attribute is truthy but not callable always fails, because `signature()` raises on it |
| Style.CheckOverrides | punish/style.py:106-114 | the loop passes exactly when every entry passes, and otherwise reports the first failing entry's error |
| Style.MatchSignature | punish/style.py:104-114 | the class is accepted exactly when every namespace entry passes the override check; a refusal is the error of the first failing entry in namespace order |
| Style.PublicCallables | punish/style.py:107-108 | keeps exactly the public callable entries |
| Style.OnlyPublicCallablesCompared | punish/style.py:107-108 | dropping private and non-callable members leaves the outcome, error included, unchanged |
| Style.NoCounterpartAccepted | punish/style.py:109-110 | when no member has a truthy parent attribute, the class is accepted without comparison |
| Style.ExtraParameterRejected | tests/test_style.py:64-73 | overriding a method with one extra parameter, with or without a default, raises SignatureError carrying both signatures |
| Style.PepStyle | punish/style.py:117 | created exactly when all three checks pass, unchanged; the earliest failing check is the one reported: the class-name check decides when it fails, then the attribute-name check, then the signature check |
| Style.SingletonClass.constructor | punish/style.py:166 | a newly declared singleton class has an empty cache slot |
| Style.SingletonClass.Call | punish/style.py:185-188 | while the slot is empty, a call constructs a fresh object from its arguments and caches it, or, when construction raises, raises and leaves the slot empty; once filled, every call returns the cached object, unchanged, whatever its arguments |
| Style.CallThrice | tests/test_style.py:165-169 | once a call has constructed the instance, the later calls return that same object; after a failed construction the next call constructs it |
| Style.SnakeCaseAccepted | tests/test_style.py:21-24 | `good_name` is accepted and the declaration is returned unchanged |
| Style.MixedCaseRejected | tests/test_style.py:33-49 | `badName` and `BADNAME` are refused, each reported by name |
| Style.UpperCaseConstantRejected | tests/test_style.py:26-30 | as the code is written, the constant `GOODNAME` is refused |
| Style.ClassNameExamples | tests/test_style.py:76-87 | `lowercase` is refused with BadClassNameError and `NoLowerCase` is accepted |
| Style.ClassNameEdgeCases | punish/style.py:81-82 | `fooBar` fails on its first letter; `_private` fails as lower-case as a whole; `_`, which has no letter, passes |
| Style.OverrideExamples | tests/test_style.py:52-73 | an override with the same signature is accepted; one with an extra defaulted parameter is refused with both signatures |
| Style.PepStyleReportsClassNameFirst | tests/test_style.py:120-124 | a lower-case class name is reported even when the body also has a bad attribute name |
| Style.SoStylishNamesPass | tests/test_style.py:135-144 | `SoStylish` passes both name checks |
| Style.SoStylishSignatureFails | tests/test_style.py:135-144 | `SoStylish.check` with an extra parameter is a signature mismatch |
| Style.PepStyleReportsSignatureLast | tests/test_style.py:135-144 | under the composite metaclass, `SoStylish` is refused with SignatureError |
| TypeEnforcement.TypedKeys | punish/type.py:100-103 | the recorded keys are exactly the keys bound to `Typed` slots |
| TypeEnforcement.TypedKeysAppend | punish/type.py:100-103 | scanning a namespace in two parts records the first part's keys, then the second's, in order |
| TypeEnforcement.OrderValueInjective | punish/type.py:104 | the `_order` list determines the key list it was built from |
| TypeEnforcement.OrderTyped | punish/type.py:98-105 | the created namespace is the declared one plus `_order` listing the slot keys in declaration order; every slot's `_name` becomes the key it is last bound to |
| TypeEnforcement.OrderTypedKeepsOtherEntries | punish/type.py:104 | every key other than `_order` keeps its value; `_order` holds the recorded list |
| TypeEnforcement.StockOrder | tests/test_type.py:19-22 | the order recorded for `__Stock` is `name`, `shares`, `price` |
| TypeEnforcement.DeclareStock | tests/test_type.py:19-28 | after declaring `__Stock`, the three slots are named `name`, `shares` and `price`, expect `str`, `int` and `float`, and `_order` is the list of those three names |
| TypeEnforcement.InitStock | tests/test_type.py:30-44 | `__init__` succeeds exactly when each argument is an instance of its slot's type, and then the instance holds all three values; a refusal names the first bad field, and the values written before it stay written |
| TypeEnforcement.FirstUnknown | punish/type.py:162-164 | no keyword is reported exactly when every keyword names a parameter; otherwise a reported keyword names none |
| TypeEnforcement.BindParams | punish/type.py:162-164 | the parameter loop of `bind`: on success the binding has at least as many entries as positional arguments and no more than there are parameters (that no parameter is bound twice is `BindParamsBindsEachOnce`); too many positional arguments is the only way to get TooManyPositional; it never reports an unexpected keyword |
| TypeEnforcement.BindParamsBindsEachOnce | punish/type.py:162-164 | when the parameter names are distinct, as Python requires of a signature, a successful binding names only parameters and none of them twice |
| TypeEnforcement.Bind | punish/type.py:162-164 | `bind` / `bind_partial` report an error of the parameter loop first; after a successful loop they succeed exactly when every keyword names a parameter, and otherwise name a passed keyword that names none |
| TypeEnforcement.BindParamsSucceeds | punish/type.py:162-164 | binding succeeds exactly when there are no more positional arguments than parameters, no positionally bound parameter is also passed by keyword, and (for `bind`) every other parameter without a default is passed by keyword |
| TypeEnforcement.BindParamsShape | punish/type.py:156-158 | a successful binding is the positional pairs in order, followed by the remaining parameters that have keyword arguments, in parameter order |
| TypeEnforcement.BindSucceeds | punish/type.py:162-164 | `bind` / `bind_partial` succeed exactly when the parameter conditions hold and every keyword names a parameter; the result has the positional-then-keyword shape |
| TypeEnforcement.BindOnlyCountsPositionals | punish/type.py:162-164 | whether a call binds depends on how many positional arguments it has, not on their values |
| TypeEnforcement.DefaultNotBound | punish/type.py:162-166 | a parameter passed neither positionally nor by keyword is absent from the bound arguments |
| TypeEnforcement.EnforceType | punish/type.py:155-158 | the decorator succeeds exactly when `bind_partial` of the expected types does; positional types go to parameters in order and keyword types by name |
| TypeEnforcement.FirstViolation | punish/type.py:162-169 | no violation is found exactly when every bound argument passes its check; otherwise the result is the first argument that fails |
| TypeEnforcement.Conforms | punish/type.py:165-166 | an argument whose parameter has no expected type passes; one that has an expected type passes exactly when it is an instance of it |
| TypeEnforcement.Call | punish/type.py:160-170 | the wrapper returns the wrapped function's result exactly when the arguments bind and each bound argument with an expected type is an instance of it; a binding error is re-raised as is; otherwise the refusal names the first bound argument that fails its check and the type it was expected to have |
| TypeEnforcement.RefusedBeforeTheBody | punish/type.py:165-170 | a refused call is refused identically whatever the wrapped function does |
| TypeEnforcement.UncoveredNeverChecked | punish/type.py:165 | changing a positional argument whose parameter has no expected type never changes whether the call is accepted |
| TypeEnforcement.SpamBindsPositionally | tests/test_type.py:58 | `spam(a, b)` binds `foo` and `bar`; `tez` keeps its default and is not bound |
| TypeEnforcement.SpamDecoration | tests/test_type.py:48-50 | `@enforce_type(foo=bool, bar=int, tez=int)` records all three expected types |
| TypeEnforcement.SpamAcceptsBoolAndInt | tests/test_type.py:58 | `spam(True, 10)` returns what `spam` returns |
| TypeEnforcement.SpamRefusesNone | tests/test_type.py:67-68 | `spam(None, 10)` is refused on `foo`, expected `bool` |
| TypeEnforcement.PositionalTypesDecoration | punish/type.py:135-137 | `@enforce_type(int, bool, tez=int)` records `foo: int`, `bar: bool`, `tez: int` |
| TypeEnforcement.PositionalTypesExample | punish/type.py:135-146 | under that decoration, `spam(1, 10)` is refused on `bar`, expected `bool` |
| TypeEnforcement.TypedProperty.Get | punish/type.py:201-208 | the getter returns the backing attribute `"_" + name`, or AttributeError when it is unset |
| TypeEnforcement.TypedProperty.Backing | punish/type.py:199 | the backing attribute is never the property's own attribute, so the setter's `setattr` does not run the setter again |
| TypeEnforcement.BackingInjective | punish/type.py:199 | two properties share a backing attribute only when they have the same name |
| TypeEnforcement.TypedProperty.Set | punish/type.py:210-225 | the setter succeeds exactly when `isinstance(value, expected_type)`; on success the backing attribute holds the value and the getter returns it; on failure it raises TypeError and the object is unchanged; either way every property with another name reads what it did before |
| TypeEnforcement.PersonAge | tests/test_type.py:80-100 | `person.age = 21` then `person.age` is 21; `person.age = None` raises TypeError |

## Left out

- Unicode case rules: `str.lower` and `str.islower` are modelled on ASCII letters only. Every other character is uncased.
- The `if not __debug__: return func` shortcut of `enforce_type` (punish/type.py:152-153): it depends on an interpreter flag. The model is the checking path.
- Parameter kinds in binding: `bind` and `bind_partial` treat every parameter as positional-or-keyword. `*args`, `**kwargs`, keyword-only and positional-only parameters are not bound by kind.
- Signature equality is structural: parameter names, kinds, defaults and annotations are compared as source text. Python's `==` between default values (`1 == True`) and the order-insensitivity of keyword-only parameters are not modelled.
- Parent lookup: `super(cls, cls)` and the method resolution order are reduced to one map of the attributes the parents expose.
- Callables: only plain functions are callable values. Classes, bound methods and other callable objects are not.
- `enforce_type` on a class: the model takes the wrapped callable's signature as given. The way `inspect.signature` derives a class's signature from its `__init__` is not modelled.
- Exception messages: errors are tagged values carrying the class, attribute or parameter involved, not formatted text.
- Thread safety of the singleton cache: the model is sequential.
- `NoDuplicateMeta`, `DuplicateAttributeError`, `_AnyCallable` and `abstractstyle`: they are imported by tests/test_style.py and punish/type.py, but their definitions are not part of this model.
- `AbstractContextManager` (punish/type.py:230-269) depends on `abstractstyle` and on the context-manager protocol.
- `FrozenMeta` (punish/type.py:272-299) delegates to `dataclasses.dataclass(frozen=True)`.
- `OrderTypedMeta.__prepare__` returns an `OrderedDict`. The model's namespaces are always ordered sequences.
- setup.py (packaging) and punish/__init__.py (metadata constants).
- Class bodies of the examples: `__annotations__`, which Python adds to a body with annotated names, and the `<locals>` part of `__qualname__` for classes defined inside a test function are not reproduced. Both sit under private keys whose values are neither functions nor `Typed` slots, so no check depends on them.
- Distinct namespace keys are not enforced on the sequence. On a sequence with a repeated key, `MatchSignature` and `TypedKeys` would examine bindings that a real dict would have replaced.
- TypeEnforcement.TypedProperty.Get, TypeEnforcement.TypedProperty.Set: `getattr` and `setattr` on the backing name (punish/type.py:208, 225) are reduced to the instance `__dict__`. Class attributes and descriptors bound under the backing name are not consulted.
- Floating-point values are modelled as reals. No arithmetic is done on them.
- TypeEnforcement.DeclareStock: does not state that `__init__` is still bound in the created namespace; that entry is covered in general by `OrderTypedKeepsOtherEntries`.
