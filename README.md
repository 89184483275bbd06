# pint registry lifecycle, in Dafny

This project models how pint (`pint/registry.py`) manages unit registries at run time.

- `UnitRegistry` is the registry object. Here it is opaque apart from three things: the bound
  arguments of its initialiser, its attribute dictionary (with the redefinition policy
  `_on_redefinition`) and its table of unit definitions.
- `LazyRegistry` is a deferred-construction handle. It holds `(args, kwargs)` until its first
  real touch: an attribute read, an attribute write, a subscript or a call. That touch
  materialises the handle in place and then re-dispatches to the new registry. Materialising
  forces `kwargs["on_redefinition"] = "raise"`, retypes the handle to `UnitRegistry`, runs the
  initialiser and `_after_init`, and leaves the caller's reference valid.
- `ApplicationRegistry` is the process-wide handle. Its one slot, `_registry`, is the current
  target. `get` returns the target, `set` checks and replaces it, and every other operation is
  forwarded to it.

Python's reflection is replaced by named operations:

- The retyping of `LazyRegistry` becomes a state tag: `Pending(args, kwargs)`, `Ready(reg)` or
  `Broken`. `Broken` is a handle that was retyped but whose initialisation did not finish.
- The target of `ApplicationRegistry` is a `Candidate`: `App(h)`, `Lazy(l)`, `Eager(r)` or
  `Other(typeName)`.
- Python values are a small `Value` datatype. A raised exception is the `Err` side of a `Result`.

Inputs that come from the outside are parameters. `source` is the list of definitions that the
configured definition file yields. Loading follows the redefinition policy: under `"raise"` a
redefinition is an error; under any other policy the newer definition replaces the older one.

Some behaviours follow from Python's own rules and are modelled as the code is written:

- Binding `UnitRegistry.__init__`'s fourteen parameters is modelled (`Bind`), including its
  TypeErrors. Because materialisation always adds the `on_redefinition` keyword, a lazy handle
  given six or more positional arguments can never materialise
  (`PositionalPolicyBlocksMaterialise`).
- The default policy of the initialiser is `"warn"` (line 155), while its docstring (line 124)
  says `'raise'`. The model follows the code.
- A pending handle answers some attribute reads itself, without materialising: `_on_redefinition`,
  `params`, its own methods and the names every class without `__slots__` has (`__class__`,
  `__dict__`, `__module__`, `__doc__`, `__weakref__`). After materialising, the registry still
  carries `params`, whose keyword dictionary holds the forced policy, because it was updated in
  place.
- `ApplicationRegistry` declares `__slots__`, so its instances have no `__dict__` or `__weakref__`:
  reading those is forwarded to the target, while `__class__`, `__slots__`, `__module__` and
  `__doc__` are answered by the handle.
- `ApplicationRegistry.__iter__` and `__dir__` call `iter` and `dir` on the target. For a pending
  lazy target these do not go through `__getattr__`. `iter` builds an index-based iterator over
  the handle and `dir` lists the handle's own names, and neither materialises it.
  `ApplicationRegistry.__contains__` reads `__contains__` as an attribute, so it does materialise.
  Both are modelled as written, next to a forwarding version; see "Findings".

## Model

| member | source | states |
|---|---|---|
| `Registry.Bind` | pint/registry.py:148-164 | Binding fails exactly on too many positionals, an unknown keyword, or a keyword for a parameter already filled by position. On success, positionals fill the leading parameters, each keyword lands on its namesake, and the rest take the declared defaults. |
| `Registry.EagerDefaultPolicyIsWarn` | pint/registry.py:155 | An eager registry given no policy, by position or by keyword, has `_on_redefinition == "warn"`. |
| `Registry.Load` | pint/registry.py:122-124 | Loading raises only a redefinition error, and only under the policy "raise". |
| `Registry.LoadRaiseFailsIffRedefined` | pint/registry.py:122-124 | Under the policy "raise", loading definitions fails exactly when one redefines a known or earlier name. |
| `Registry.LoadKeepsLastDefinition` | pint/registry.py:122-124 | Under any other policy, or under "raise" with nothing redefined, loading succeeds. Its keys are the old names plus the defined ones, each name is bound to its last definition, and names that are not redefined keep their values. |
| `Registry.MaterialisedPolicyIsRaise` | pint/registry.py:221-225 | Whatever the caller passed, a materialised registry has policy "raise", both in its settings and as `_on_redefinition`. |
| `Registry.PositionalPolicyBlocksMaterialise` | pint/registry.py:222-225 | With six or more positional arguments, materialising always raises the binding TypeError. |
| `Registry.MaterialiseRejectsRedefinition` | pint/registry.py:221-226 | When the arguments, with the forced policy, bind and a definition file is configured, materialising fails exactly when the file redefines a name. Otherwise every definition is in the registry. |
| `Registry.EagerDefaultToleratesRedefinition` | pint/registry.py:150-155 | An eager registry built with the defaults never fails on a redefinition; the last definition of a name wins. |
| `Registry.MaterialiseMatchesEager` | pint/registry.py:221-226 | Materialising succeeds exactly when eager construction with the forced keywords does, and fails with the same error. Apart from `params`, the materialised registry answers every attribute read and lookup as that eager registry, has the same units, and lists the same names plus `params`. |
| `Registry.LazyAndEagerDiffer` | pint/registry.py:222-223 | For a file defining one name twice, the default eager registry is built and the lazy one fails. |
| `Registry.NewUnitRegistry` | pint/registry.py:148-180 | `UnitRegistry(*args, **kwargs)` returns a fresh registry whose state is the constructed one, or raises the construction's error. |
| `Registry.Initialise` | pint/registry.py:148-180 | The initialised registry keeps the bound settings and records their policy as `_on_redefinition`; it can fail only on a redefinition under "raise". |
| `Registry.Construct` | pint/registry.py:148-180 | `UnitRegistry(*args, **kwargs)` fails only with a binding TypeError or a redefinition error. |
| `Registry.Materialise` | pint/registry.py:221-226 | Materialising fails only with a binding TypeError or a redefinition error. |
| `Registry.PendingAttr` | pint/registry.py:217-232 | A pending handle answers a read itself exactly for the names ordinary lookup finds on it and for `_on_redefinition`, which reads "raise"; `params` reads the stored arguments. |
| `Registry.LazyRegistry.constructor` | pint/registry.py:218-219 | The handle starts pending with `args or ()` and `kwargs or {}`, and no registry is built. |
| `Registry.LazyRegistry.Touch` | pint/registry.py:221-226 | A pending handle becomes `Ready` with a fresh registry equal to `Materialise`, or `Broken` with its error. A ready handle keeps the same registry object. A broken one raises. After a touch the handle is never pending again, so materialisation happens at most once. |
| `Registry.LazyRegistry.GetAttr` | pint/registry.py:228-232 | On a pending handle, `_on_redefinition` reads "raise", `params` reads the stored arguments, and the handle's own methods read without a change. Any other read materialises and returns the registry's attribute. |
| `Registry.LazyRegistry.SetAttr` | pint/registry.py:234-239 | Writing `__class__` retypes a pending handle without materialising it. Any other write materialises and then sets the attribute on the registry. |
| `Registry.LazyRegistry.GetItem` | pint/registry.py:241-243 | A subscript materialises, then looks the name up in the registry. |
| `Registry.LazyRegistry.Call` | pint/registry.py:245-247 | A call materialises, then parses the expression with the registry. |
| `Registry.ApplicationRegistry.constructor` | pint/registry.py:255-256 | The target is stored unchecked; the handle is `Valid` only if the target is a lazy handle or a registry. |
| `Registry.ApplicationRegistry.Get` | pint/registry.py:258-260 | Returns the current target and changes nothing, so a lazy target stays pending. |
| `Registry.ApplicationRegistry.Set` | pint/registry.py:262-282 | An `ApplicationRegistry` candidate is unwrapped first. A lazy handle or a registry becomes the target, so `get` returns it. Anything else raises a TypeError naming its type and leaves the target as it was. `Valid` is preserved. |
| `Registry.AppOwnAttr` | pint/registry.py:250-306 | The handle answers a read itself exactly for the class's methods, `__slots__` (the list holding `_registry`), `__class__`, `__module__` and `__doc__`. |
| `Registry.ApplicationRegistry.GetAttr` | pint/registry.py:284-285 | `_registry` and the class's own names are answered by the handle. Every other read answers what the target answers, acting on a lazy target as a direct read would. While the target is a lazy handle or a registry, no read fails for an unsupported target. |
| `Registry.ApplicationRegistry.SetAttr` | pint/registry.py:287-291 | A write to `_registry` replaces the target, unchecked, and leaves the previous target untouched. Every other write leaves the slot alone and goes to the target: an eager registry's attribute, or the lazy handle's write with its materialisation; a `__class__` write leaves a ready registry's state unchanged. |
| `Registry.ApplicationRegistry.Dir` | pint/registry.py:293-294 | For a registry or a ready lazy target, the registry's listing. For a pending lazy target, the handle's own names, with nothing materialised. A broken handle raises. |
| `Registry.ApplicationRegistry.DirForwarded` | pint/registry.py:293-294 | The forwarding `dir`: touches a lazy target as every other forwarded operation does, then returns the listing of the registry it reaches, or that touch's error. |
| `Registry.PendingDirAcrossTouch` | pint/registry.py:293-294 | For a pending lazy target that can materialise, `dir(app)` first lists the handle's own names and, after a subscript, the registry's listing; `_on_redefinition` is missing before and present after. |
| `Registry.ForwardedDirAcrossTouch` | pint/registry.py:293-294 | With the forwarding `dir`, the answer is the same before and after a touch: the eager registry's listing with the forced policy, plus `params`. |
| `Registry.ApplicationRegistry.GetItem` | pint/registry.py:296-297 | Answers the target's subscript and materialises a pending lazy target as a direct subscript would. While the target is a lazy handle or a registry, no error is an unsupported target. |
| `Registry.ApplicationRegistry.Call` | pint/registry.py:299-300 | Answers the target's call and materialises a pending lazy target as a direct call would. While the target is a lazy handle or a registry, no error is an unsupported target. |
| `Registry.ApplicationRegistry.Contains` | pint/registry.py:302-303 | Answers whether the target's unit table holds the item, materialising a pending lazy target first. While the target is a lazy handle or a registry, no error is an unsupported target. |
| `Registry.ApplicationRegistry.Iter` | pint/registry.py:305-306 | For a registry or a ready lazy target, iteration over the registry's unit names. For a pending lazy target, an iterator that subscripts the handle by position, with nothing materialised. A broken handle raises. |
| `Registry.ApplicationRegistry.IterForwarded` | pint/registry.py:305-306 | The forwarding `iter`: touches a lazy target, then runs over the unit names of the registry it reaches, or raises that touch's error. |
| `Registry.PendingIterAcrossTouch` | pint/registry.py:305-306 | For a pending lazy target that can materialise, `iter(app)` first subscripts the handle by position and, after a subscript, runs over the registry's unit names. |
| `Registry.ForwardedIterAcrossTouch` | pint/registry.py:305-306 | With the forwarding `iter`, the answer is the same before and after a touch: the units of the eager registry with the forced policy. |

## Findings

| source | as written | input that shows it | evidently intended | confidence | as-written member | corrected member |
|---|---|---|---|---|---|---|
| pint/registry.py:293-294 | `dir(self._registry)` on a pending `LazyRegistry` bypasses its `__getattr__`, so it lists the handle's own names and materialises nothing | `ApplicationRegistry(LazyRegistry())` before any other use: `dir(app)` lacks `_on_redefinition` and every unit, and gains them once anything else touches it | `dir(app)` lists the registry, like every other forwarded operation | medium; not executed | `Registry.PendingDirAcrossTouch` | `Registry.ForwardedDirAcrossTouch` |
| pint/registry.py:305-306 | `iter(self._registry)` on a pending `LazyRegistry` finds no `__iter__` and falls back to subscripting the handle with 0, 1, 2, ... | `ApplicationRegistry(LazyRegistry())` before any other use: `iter(app)` subscripts by position instead of running over the units | `iter(app)` runs over the registry, like every other forwarded operation | medium; not executed | `Registry.PendingIterAcrossTouch` | `Registry.ForwardedIterAcrossTouch` |

## Left out

- Facet composition (pint/registry.py:44-96): the `Quantity`, `Unit` and `GenericUnitRegistry` classes are pure multiple-inheritance declarations with empty bodies, so there is no algorithm to model.
- The facet initialisers that `UnitRegistry.__init__` forwards to are not part of this model. The registry keeps only its bound settings, `_on_redefinition`, its attributes and its unit table. Attribute reads, lookups, membership, iteration and `dir` on a registry are stand-ins: instance attributes, then the unit table.
- Definition loading is facet code that is not part of this model. It is reduced to the redefinition policy. "ignore" behaves like "warn" without the log line, so the newer definition is kept. A reading of "ignore" as "keep the first definition" is not modelled. The definition file itself is the parameter `source`.
- `pi_theorem`, `setup_matplotlib`, `wraps` and `check` (pint/registry.py:182-214) call code outside this file: `pint.util`, matplotlib and `registry_helpers`.
- The `logger.debug` call in `set` (pint/registry.py:279-281) is logging only.
- Registry.LazyRegistry.Touch: a failed materialisation leaves the handle `Broken`, and every later touch raises. Python leaves a half-initialised `UnitRegistry` whose later behaviour depends on facet code.
- Registry.LazyRegistry.SetAttr: the value written to `__class__` is taken to be `UnitRegistry`, the only class the source writes there. A handle that is already retyped is left as it is.
- Registry.ApplicationRegistry.GetAttr: forwarding to a target that is neither a lazy handle nor a registry raises `UnsupportedTarget`. Python would forward to whatever object it is. Such a target arises only through the unchecked constructor or a slot write.
- The names every class inherits from `object` (`__repr__`, `__eq__`, ...) are not part of the modelled attribute reads or `dir` listings. The values read for `__class__`, `__dict__` and similar names are stand-ins: the model records which reads the handle answers itself, not what those objects are.
- The in-place update of the caller's own `kwargs` dictionary is not modelled: the handle stores `kwargs` by value. The stored `params` does show the forced policy.
- The text of exception messages is not modelled. Binding errors are one `BadArguments` value, and `set`'s TypeError carries only the type name.
- Calls take one expression string. Extra positional and keyword arguments of `registry(...)` are not modelled.
- Threads are not modelled; the source provides no locking.
