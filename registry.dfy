/**
 * The registry lifecycle of pint: the eagerly built `UnitRegistry`, the deferred-construction
 * handle `LazyRegistry` and the process-wide forwarding handle `ApplicationRegistry`.
 *
 * Python reflection (`getattr`, `setattr`, `__class__` reassignment) is replaced by named
 * operations and a state tag. The registry's own behaviour, which lives in facet code, is
 * represented by `RegState`: its bound settings, its attribute dictionary and its unit table.
 */
module Registry {
  import opened Wrappers

  // ---------------------------------------------------------------------------------------
  // Python values
  // ---------------------------------------------------------------------------------------

  /** A Python value as far as the registry handles see it. */
  datatype Value =
    | Str(s: string)
    | Bool(b: bool)
    | Nothing                         // None
    | Tuple(items: seq<Value>)
    | List(elems: seq<Value>)
    | Dict(entries: map<string, Value>)
    | Opaque(typeName: string)        // any other object, known only by the name of its type
    | Handle(target: Candidate)       // a registry or a registry handle
  {
    function TypeName(): (r: string) {
      match this
      case Str(_) => "str"
      case Bool(_) => "bool"
      case Nothing => "NoneType"
      case Tuple(_) => "tuple"
    case List(_) => "list"
      case Dict(_) => "dict"
      case Opaque(t) => t
      case Handle(c) => c.TypeName()
    }

    /** The object this value is, seen as something that may be stored as a registry target. */
    function AsCandidate(): (c: Candidate) {
      if Handle? then target else Other(TypeName())
    }
  }

  /** What `ApplicationRegistry.set` (or its constructor) may be handed. */
  datatype Candidate =
    | App(h: ApplicationRegistry)
    | Lazy(l: LazyRegistry)
    | Eager(r: UnitRegistry)
    | Other(typeName: string)
  {
    function TypeName(): (r: string) {
      match this
      case App(_) => "ApplicationRegistry"
      case Lazy(_) => "LazyRegistry"
      case Eager(_) => "UnitRegistry"
      case Other(t) => t
    }

    /** `isinstance(x, (LazyRegistry, UnitRegistry))` */
    predicate Admissible() {
      Lazy? || Eager?
    }
  }

  /** The exceptions the modelled code raises or lets through. */
  datatype Error =
    | BadArguments                    // TypeError while binding the initialiser's arguments
    | Redefinition(name: string)      // RedefinitionError under the "raise" policy
    | UndefinedUnit(name: string)     // lookup of a name the registry does not know
    | NotInitialised                  // a handle retyped to UnitRegistry whose initialisation did not complete
    | WrongRegistryType(got: string)  // TypeError raised by ApplicationRegistry.set
    | UnsupportedTarget(typeName: string)  // forwarding to an object that is no registry

  // ---------------------------------------------------------------------------------------
  // UnitRegistry.__init__ argument binding
  // ---------------------------------------------------------------------------------------

  /** The initialiser's parameters, in positional order. */
  const ParamNames: seq<string> := [
    "filename", "force_ndarray", "force_ndarray_like", "default_as_delta",
    "autoconvert_offset_to_baseunit", "on_redefinition", "system", "auto_reduce_dimensions",
    "autoconvert_to_preferred", "preprocessors", "fmt_locale", "non_int_type", "case_sensitive",
    "cache_folder"]

  /** Their default values; `non_int_type` defaults to the class `float`. */
  const Defaults: seq<Value> := [
    Str(""), Bool(false), Bool(false), Bool(true),
    Bool(false), Str("warn"), Nothing, Bool(false),
    Bool(false), Nothing, Nothing, Opaque("type"), Bool(true),
    Nothing]

  const FilenameAt: nat := 0
  const OnRedefinitionAt: nat := 5

  /**
   * Python's binding of `UnitRegistry(*args, **kwargs)` to the initialiser's parameters:
   * positional arguments fill the leading parameters, keywords fill their namesakes, the rest
   * take their defaults. Too many positionals, an unknown keyword, or a keyword naming a
   * parameter already filled positionally is a TypeError.
   */
  function Bind(args: seq<Value>, kwargs: map<string, Value>): (r: Result<seq<Value>, Error>)
    ensures r.Ok? <==>
      && |args| <= |ParamNames|
      && (forall k :: k in kwargs ==> k in ParamNames)
      && (forall i :: 0 <= i < |args| ==> ParamNames[i] !in kwargs)
    ensures r.Ok? ==> |r.value| == |ParamNames|
    ensures r.Ok? ==> forall i :: 0 <= i < |args| ==> r.value[i] == args[i]
    ensures r.Ok? ==> forall i :: 0 <= i < |ParamNames| && ParamNames[i] in kwargs ==>
      r.value[i] == kwargs[ParamNames[i]]
    ensures r.Ok? ==> forall i :: |args| <= i < |ParamNames| && ParamNames[i] !in kwargs ==>
      r.value[i] == Defaults[i]
    ensures r.Err? ==> r.error == BadArguments
  {
    if |args| > |ParamNames| then Err(BadArguments)
    else if exists k :: k in kwargs && k !in ParamNames then Err(BadArguments)
    else if exists i :: 0 <= i < |args| && ParamNames[i] in kwargs then Err(BadArguments)
    else
      Ok(seq(|ParamNames|, i requires 0 <= i < |ParamNames| =>
        if i < |args| then args[i]
        else if ParamNames[i] in kwargs then kwargs[ParamNames[i]]
        else Defaults[i]))
  }

  // ---------------------------------------------------------------------------------------
  // Loading unit definitions under a redefinition policy
  // ---------------------------------------------------------------------------------------

  datatype Definition = Definition(name: string, value: Value)

  /**
   * Adds `defs` to `table` one by one. A name that is already defined is an error under the
   * policy "raise"; under any other policy the newer definition replaces the older one.
   */
  function Load(policy: Value, table: map<string, Value>, defs: seq<Definition>): (r: Result<map<string, Value>, Error>)
    ensures r.Err? ==> r.error.Redefinition? && policy == Str("raise")
    decreases |defs|
  {
    if defs == [] then Ok(table)
    else if defs[0].name in table && policy == Str("raise") then Err(Redefinition(defs[0].name))
    else Load(policy, table[defs[0].name := defs[0].value], defs[1..])
  }

  /** Some definition in `defs` redefines a name in `known` or one defined earlier in `defs`. */
  ghost predicate Redefines(known: set<string>, defs: seq<Definition>) {
    exists i :: 0 <= i < |defs| && (defs[i].name in known || exists j :: 0 <= j < i && defs[j].name == defs[i].name)
  }

  ghost function DefinedNames(defs: seq<Definition>): (r: set<string>) {
    set i | 0 <= i < |defs| :: defs[i].name
  }

  /** Peels the first definition off `Redefines`. */
  lemma RedefinesStep(known: set<string>, defs: seq<Definition>)
    requires defs != []
    ensures Redefines(known, defs) <==>
      defs[0].name in known || Redefines(known + {defs[0].name}, defs[1..])
  {
  }

  /** Under "raise", loading fails exactly when some definition redefines a name. */
  lemma {:induction false} LoadRaiseFailsIffRedefined(table: map<string, Value>, defs: seq<Definition>)
    ensures Load(Str("raise"), table, defs).Err? <==> Redefines(table.Keys, defs)
    decreases |defs|
  {
    if defs != [] {
      RedefinesStep(table.Keys, defs);
      if defs[0].name !in table {
        var next := table[defs[0].name := defs[0].value];
        assert next.Keys == table.Keys + {defs[0].name};
        LoadRaiseFailsIffRedefined(next, defs[1..]);
      }
    }
  }

  /** The names `defs` defines are its first name and those of the rest. */
  lemma DefinedNamesStep(defs: seq<Definition>)
    requires defs != []
    ensures DefinedNames(defs) == {defs[0].name} + DefinedNames(defs[1..])
  {
    var rest := defs[1..];
    forall n | n in DefinedNames(defs) ensures n in {defs[0].name} + DefinedNames(rest) {
      var i :| 0 <= i < |defs| && defs[i].name == n;
      if i > 0 { assert rest[i - 1].name == n; }
    }
    forall n | n in DefinedNames(rest) ensures n in DefinedNames(defs) {
      var i :| 0 <= i < |rest| && rest[i].name == n;
      assert defs[i + 1].name == n;
    }
  }

  /** A definition that is last for its name in `defs` is also last in `defs[1..]`, or is `defs[0]`. */
  lemma LastDefinitionStep(defs: seq<Definition>, i: nat)
    requires 0 <= i < |defs|
    requires forall j :: i < j < |defs| ==> defs[j].name != defs[i].name
    ensures i == 0 ==> defs[0].name !in DefinedNames(defs[1..])
    ensures i > 0 ==> forall j :: i - 1 < j < |defs[1..]| ==> defs[1..][j].name != defs[1..][i - 1].name
  {
    var rest := defs[1..];
    if i == 0 {
      forall k | 0 <= k < |rest| ensures rest[k].name != defs[0].name {
        assert rest[k] == defs[k + 1];
      }
    } else {
      forall j | i - 1 < j < |rest| ensures rest[j].name != rest[i - 1].name {
        assert rest[j] == defs[j + 1];
      }
    }
  }

  /**
   * When loading succeeds, the table holds the old names and every defined name, each defined
   * name bound to its last definition, and each old name that is not redefined keeps its value.
   * Loading always succeeds under a policy other than "raise", and under "raise" when nothing
   * is redefined.
   */
  lemma {:induction false} LoadKeepsLastDefinition(policy: Value, table: map<string, Value>, defs: seq<Definition>)
    requires policy != Str("raise") || !Redefines(table.Keys, defs)
    ensures Load(policy, table, defs).Ok?
    ensures Load(policy, table, defs).value.Keys == table.Keys + DefinedNames(defs)
    ensures forall i :: 0 <= i < |defs| && (forall j :: i < j < |defs| ==> defs[j].name != defs[i].name) ==>
      Load(policy, table, defs).value[defs[i].name] == defs[i].value
    ensures forall k :: k in table && k !in DefinedNames(defs) ==> Load(policy, table, defs).value[k] == table[k]
    decreases |defs|
  {
    if defs != [] {
      var d, rest := defs[0], defs[1..];
      if policy == Str("raise") {
        RedefinesStep(table.Keys, defs);
      }
      var next := table[d.name := d.value];
      assert next.Keys == table.Keys + {d.name};
      LoadKeepsLastDefinition(policy, next, rest);
      DefinedNamesStep(defs);
      var m := Load(policy, table, defs).value;
      assert m == Load(policy, next, rest).value;
      forall i | 0 <= i < |defs| && (forall j :: i < j < |defs| ==> defs[j].name != defs[i].name)
        ensures m[defs[i].name] == defs[i].value
      {
        LastDefinitionStep(defs, i);
        if i > 0 {
          assert defs[i] == rest[i - 1];
        }
      }
    }
  }

  // ---------------------------------------------------------------------------------------
  // The registry's observable state
  // ---------------------------------------------------------------------------------------

  /**
   * What a constructed registry holds: the bound initialiser arguments, its attribute
   * dictionary and its table of unit definitions.
   */
  datatype RegState = RegState(settings: seq<Value>, attrs: map<string, Value>, units: map<string, Value>) {

    /** Attribute read: the instance dictionary first, then a unit of that name. */
    function Attr(name: string): (r: Result<Value, Error>) {
      if name in attrs then Ok(attrs[name])
      else if name in units then Ok(units[name])
      else Err(UndefinedUnit(name))
    }

    /** Subscript and call: the named unit. */
    function Parse(expr: string): (r: Result<Value, Error>) {
      if expr in units then Ok(units[expr]) else Err(UndefinedUnit(expr))
    }

    function WithAttr(name: string, value: Value): (r: RegState) {
      this.(attrs := attrs[name := value])
    }

    /** `item in registry` */
    predicate Holds(item: string) {
      item in units
    }

    /** What iterating over the registry yields. */
    function UnitNames(): (r: set<string>) {
      units.Keys
    }

    /** What `dir(registry)` lists. */
    function Listing(): (r: set<string>) {
      attrs.Keys + units.Keys
    }
  }

  /**
   * The initialiser followed by `_after_init`: keeps the bound settings, records the
   * redefinition policy as `_on_redefinition`, and loads the definitions of the configured
   * file (`source`) under that policy. A `filename` of None loads nothing.
   */
  function Initialise(settings: seq<Value>, source: seq<Definition>): (r: Result<RegState, Error>)
    requires |settings| == |ParamNames|
    ensures r.Ok? ==> r.value.settings == settings && r.value.Attr("_on_redefinition") == Ok(settings[OnRedefinitionAt])
    ensures r.Err? ==> r.error.Redefinition? && settings[OnRedefinitionAt] == Str("raise")
  {
    var defs := if settings[FilenameAt] == Nothing then [] else source;
    match Load(settings[OnRedefinitionAt], map[], defs)
    case Err(e) => Err(e)
    case Ok(units) => Ok(RegState(settings, map["_on_redefinition" := settings[OnRedefinitionAt]], units))
  }

  /** `UnitRegistry(*args, **kwargs)` */
  function Construct(args: seq<Value>, kwargs: map<string, Value>, source: seq<Definition>): (r: Result<RegState, Error>)
    ensures r.Err? ==> r.error == BadArguments || r.error.Redefinition?
  {
    match Bind(args, kwargs)
    case Err(e) => Err(e)
    case Ok(settings) => Initialise(settings, source)
  }

  // ---------------------------------------------------------------------------------------
  // Deferred construction
  // ---------------------------------------------------------------------------------------

  /** The keyword arguments a lazy handle materialises with: the policy is forced to "raise". */
  function ForcePolicy(kwargs: map<string, Value>): (r: map<string, Value>) {
    kwargs["on_redefinition" := Str("raise")]
  }

  /** The `params` attribute a lazy handle stores: `(args, kwargs)`. */
  function ParamsValue(args: seq<Value>, kwargs: map<string, Value>): (r: Value) {
    Tuple([Tuple(args), Dict(kwargs)])
  }

  /**
   * The registry a pending handle becomes: the one `UnitRegistry(*args, **kwargs)` builds after
   * the policy is forced, still carrying the `params` attribute, whose keyword dictionary is the
   * forced one because it was updated in place.
   */
  function Materialise(args: seq<Value>, kwargs: map<string, Value>, source: seq<Definition>): (r: Result<RegState, Error>)
    ensures r.Err? ==> r.error == BadArguments || r.error.Redefinition?
  {
    var forced := ForcePolicy(kwargs);
    match Construct(args, forced, source)
    case Err(e) => Err(e)
    case Ok(s) => Ok(s.WithAttr("params", ParamsValue(args, forced)))
  }

  /** Whatever the caller asked for, a materialised registry has the policy "raise". */
  lemma MaterialisedPolicyIsRaise(args: seq<Value>, kwargs: map<string, Value>, source: seq<Definition>)
    requires Materialise(args, kwargs, source).Ok?
    ensures Materialise(args, kwargs, source).value.settings[OnRedefinitionAt] == Str("raise")
    ensures Materialise(args, kwargs, source).value.Attr("_on_redefinition") == Ok(Str("raise"))
  {
  }

  /** A materialised registry lists its `_on_redefinition` attribute. */
  lemma MaterialisedListsPolicy(args: seq<Value>, kwargs: map<string, Value>, source: seq<Definition>)
    requires Materialise(args, kwargs, source).Ok?
    ensures "_on_redefinition" in Materialise(args, kwargs, source).value.Listing()
  {
    MaterialisedPolicyIsRaise(args, kwargs, source);
  }

  /**
   * A lazy handle given the policy positionally (six or more positional arguments) can never
   * materialise: the forced keyword collides with it and binding raises a TypeError.
   */
  lemma PositionalPolicyBlocksMaterialise(args: seq<Value>, kwargs: map<string, Value>, source: seq<Definition>)
    requires |args| > OnRedefinitionAt
    ensures Materialise(args, kwargs, source) == Err(BadArguments)
  {
  }

  /** An eager registry given no policy, positionally or by keyword, uses "warn". */
  lemma EagerDefaultPolicyIsWarn(args: seq<Value>, kwargs: map<string, Value>, source: seq<Definition>)
    requires Construct(args, kwargs, source).Ok?
    requires |args| <= OnRedefinitionAt && "on_redefinition" !in kwargs
    ensures Construct(args, kwargs, source).value.Attr("_on_redefinition") == Ok(Str("warn"))
  {
  }

  /**
   * A materialised registry tolerates no redefinition: when a definition file is configured,
   * materialising fails exactly when the file redefines a name; otherwise the registry holds
   * every definition.
   */
  lemma MaterialiseRejectsRedefinition(args: seq<Value>, kwargs: map<string, Value>, source: seq<Definition>)
    requires Bind(args, ForcePolicy(kwargs)).Ok?
    requires Bind(args, ForcePolicy(kwargs)).value[FilenameAt] != Nothing
    ensures Materialise(args, kwargs, source).Err? <==> Redefines({}, source)
    ensures Materialise(args, kwargs, source).Ok? ==>
      forall i :: 0 <= i < |source| ==>
        && source[i].name in Materialise(args, kwargs, source).value.units
        && Materialise(args, kwargs, source).value.units[source[i].name] == source[i].value
  {
    var settings := Bind(args, ForcePolicy(kwargs)).value;
    assert ParamNames[OnRedefinitionAt] == "on_redefinition";
    assert settings[OnRedefinitionAt] == Str("raise");
    var empty: map<string, Value> := map[];
    assert empty.Keys == {};
    LoadRaiseFailsIffRedefined(empty, source);
    if !Redefines({}, source) {
      LoadKeepsLastDefinition(Str("raise"), empty, source);
      forall i, j | 0 <= i < j < |source| ensures source[j].name != source[i].name {
        assert !(source[j].name in {} || exists k :: 0 <= k < j && source[k].name == source[j].name);
      }
      forall i | 0 <= i < |source| ensures source[i].name in DefinedNames(source) {
      }
    }
  }

  /**
   * An eager registry built with the defaults loads the default file under "warn" and never
   * fails on a redefinition; the later definition of a name wins.
   */
  lemma EagerDefaultToleratesRedefinition(source: seq<Definition>)
    ensures Construct([], map[], source).Ok?
    ensures forall i :: 0 <= i < |source| && (forall j :: i < j < |source| ==> source[j].name != source[i].name) ==>
      source[i].name in Construct([], map[], source).value.units &&
      Construct([], map[], source).value.units[source[i].name] == source[i].value
  {
    var b := Bind([], map[]);
    assert b.Ok?;
    assert b.value[FilenameAt] == Str("") && b.value[OnRedefinitionAt] == Str("warn");
    LoadKeepsLastDefinition(Str("warn"), map[], source);
  }

  /**
   * Apart from the `params` attribute it keeps, a materialised handle answers every read as a
   * registry built eagerly with the same arguments and `on_redefinition="raise"`.
   */
  lemma MaterialiseMatchesEager(args: seq<Value>, kwargs: map<string, Value>, source: seq<Definition>)
    ensures Materialise(args, kwargs, source).Ok? <==> Construct(args, ForcePolicy(kwargs), source).Ok?
    ensures Materialise(args, kwargs, source).Err? ==>
      Materialise(args, kwargs, source).error == Construct(args, ForcePolicy(kwargs), source).error
    ensures Materialise(args, kwargs, source).Ok? ==>
      var lazy, eager := Materialise(args, kwargs, source).value, Construct(args, ForcePolicy(kwargs), source).value;
      && lazy.units == eager.units
      && lazy.Attr("params") == Ok(ParamsValue(args, ForcePolicy(kwargs)))
      && (forall name :: name != "params" ==> lazy.Attr(name) == eager.Attr(name))
      && (forall expr :: lazy.Parse(expr) == eager.Parse(expr))
      && lazy.UnitNames() == eager.UnitNames()
      && lazy.Listing() == eager.Listing() + {"params"}
  {
  }

  /** The eager and the lazy registry differ on a file that defines a name twice. */
  lemma LazyAndEagerDiffer()
    ensures var twice := [Definition("m", Str("a")), Definition("m", Str("b"))];
      Construct([], map[], twice).Ok? && Materialise([], map[], twice).Err?
  {
    var twice := [Definition("m", Str("a")), Definition("m", Str("b"))];
    EagerDefaultToleratesRedefinition(twice);
    var settings := Bind([], ForcePolicy(map[])).value;
    assert settings[FilenameAt] == Str("");
    MaterialiseRejectsRedefinition([], map[], twice);
    assert twice[0].name == twice[1].name;
  }

  // ---------------------------------------------------------------------------------------
  // UnitRegistry: the registry object, updated in place by attribute writes
  // ---------------------------------------------------------------------------------------

  class UnitRegistry {
    var settings: seq<Value>
    var attrs: map<string, Value>
    var units: map<string, Value>

    function State(): (r: RegState)
      reads this
    {
      RegState(settings, attrs, units)
    }

    /** A registry object holding an already computed state. */
    constructor (s: RegState)
      ensures State() == s
    {
      settings, attrs, units := s.settings, s.attrs, s.units;
    }

    /** `registry.name = value` */
    method SetAttr(name: string, value: Value)
      modifies this
      ensures State() == old(State()).WithAttr(name, value)
    {
      attrs := attrs[name := value];
    }
  }

  /** `UnitRegistry(*args, **kwargs)`: a new registry, or the exception its construction raises. */
  method NewUnitRegistry(args: seq<Value>, kwargs: map<string, Value>, source: seq<Definition>)
    returns (r: Result<UnitRegistry, Error>)
    ensures r.Ok? <==> Construct(args, kwargs, source).Ok?
    ensures r.Ok? ==> fresh(r.value) && r.value.State() == Construct(args, kwargs, source).value
    ensures r.Err? ==> r.error == Construct(args, kwargs, source).error
  {
    var s := Construct(args, kwargs, source);
    if s.Ok? {
      var reg := new UnitRegistry(s.value);
      r := Ok(reg);
    } else {
      r := Err(s.error);
    }
  }

  // ---------------------------------------------------------------------------------------
  // LazyRegistry
  // ---------------------------------------------------------------------------------------

  /**
   * A lazy handle is still a LazyRegistry holding its arguments, or has become the registry
   * `reg`, or was retyped to UnitRegistry without its initialisation completing.
   */
  datatype LazyState =
    | Pending(args: seq<Value>, kwargs: map<string, Value>)
    | Ready(reg: UnitRegistry)
    | Broken

  /** The methods the LazyRegistry class defines. */
  const HandleMethods: set<string> :=
    {"__init__", "_LazyRegistry__init", "__getattr__", "__setattr__", "__getitem__", "__call__"}

  /**
   * The names ordinary lookup finds on a pending handle, so that `__getattr__` never sees them:
   * the instance's `params`, the class's methods and the attributes Python gives every class
   * without `__slots__`. This is also what `dir` lists for a pending handle.
   */
  const HandleNames: set<string> :=
    HandleMethods + {"params", "__class__", "__dict__", "__module__", "__doc__", "__weakref__"}

  const ClassAttr: string := "__class__"

  /** The registry state a touch of the handle acts on, or the exception the touch raises. */
  function Prior(st: LazyState, source: seq<Definition>): (r: Result<RegState, Error>)
    reads if st.Ready? then {st.reg} else {}
    ensures r.Err? ==> r.error == BadArguments || r.error.Redefinition? || r.error == NotInitialised
  {
    match st
    case Pending(args, kwargs) => Materialise(args, kwargs, source)
    case Ready(reg) => Ok(reg.State())
    case Broken => Err(NotInitialised)
  }

  /**
   * Attribute reads a pending handle answers without materialising: the names ordinary lookup
   * finds, and `_on_redefinition`, which `__getattr__` answers itself.
   */
  function PendingAttr(args: seq<Value>, kwargs: map<string, Value>, name: string): (r: Option<Value>)
    ensures r.Some? <==> name in HandleNames || name == "_on_redefinition"
    ensures name == "_on_redefinition" ==> r == Some(Str("raise"))
    ensures name == "params" ==> r == Some(ParamsValue(args, kwargs))
  {
    if name == "_on_redefinition" then Some(Str("raise"))
    else if name == "params" then Some(ParamsValue(args, kwargs))
    else if name in HandleMethods then Some(Opaque("method"))
    else if name == ClassAttr then Some(Opaque("type"))
    else if name == "__dict__" then Some(Dict(map["params" := ParamsValue(args, kwargs)]))
    else if name == "__module__" then Some(Str("pint.registry"))
    else if name == "__doc__" || name == "__weakref__" then Some(Nothing)
    else None
  }

  predicate AnswersItself(st: LazyState, name: string) {
    st.Pending? && PendingAttr(st.args, st.kwargs, name).Some?
  }

  /** What `getattr(handle, name)` returns. */
  function AttrAnswer(st: LazyState, name: string, source: seq<Definition>): (r: Result<Value, Error>)
    reads if st.Ready? then {st.reg} else {}
  {
    if AnswersItself(st, name) then Ok(PendingAttr(st.args, st.kwargs, name).value)
    else match Prior(st, source)
      case Ok(s) => s.Attr(name)
      case Err(e) => Err(e)
  }

  /** What `handle[expr]` and `handle(expr)` return. */
  function ParseAnswer(st: LazyState, expr: string, source: seq<Definition>): (r: Result<Value, Error>)
    reads if st.Ready? then {st.reg} else {}
  {
    match Prior(st, source)
    case Ok(s) => s.Parse(expr)
    case Err(e) => Err(e)
  }

  /**
   * The handle went from `before` to `after` by a touch whose registry ends in `outcome`: a
   * ready handle keeps its registry object, a touch that raised leaves the handle broken.
   */
  predicate Settles(before: LazyState, after: LazyState, outcome: Result<RegState, Error>)
    reads if after.Ready? then {after.reg} else {}
  {
    && (before.Ready? ==> after == before)
    && (outcome.Ok? ==> after.Ready? && after.reg.State() == outcome.value)
    && (outcome.Err? ==> after == Broken)
  }

  function WithAttrIn(p: Result<RegState, Error>, name: string, value: Value): (r: Result<RegState, Error>) {
    match p
    case Ok(s) => Ok(s.WithAttr(name, value))
    case Err(e) => Err(e)
  }

  class LazyRegistry {
    var state: LazyState

    /** `LazyRegistry(args, kwargs)`: stores `args or ()` and `kwargs or {}`; builds nothing. */
    constructor (args: Option<seq<Value>>, kwargs: Option<map<string, Value>>)
      ensures state == Pending(if args.Some? then args.value else [], if kwargs.Some? then kwargs.value else map[])
    {
      state := Pending(if args.Some? then args.value else [], if kwargs.Some? then kwargs.value else map[]);
    }

    function Repr(): (r: set<object>)
      reads this
    {
      if state.Ready? then {this, state.reg} else {this}
    }

    /**
     * The registry a touch reaches: a pending handle first runs `__init`, which forces the
     * policy, retypes the handle, binds and runs the initialiser and `_after_init`.
     */
    method Touch(source: seq<Definition>) returns (r: Result<UnitRegistry, Error>)
      modifies this
      ensures Settles(old(state), state, old(Prior(state, source)))
      ensures old(state).Pending? && state.Ready? ==> fresh(state.reg)
      ensures r.Ok? <==> old(Prior(state, source)).Ok?
      ensures r.Ok? ==> state.Ready? && r.value == state.reg
      ensures r.Err? ==> r.error == old(Prior(state, source)).error
    {
      match state
      case Pending(args, kwargs) =>
        var forced := ForcePolicy(kwargs);
        state := Broken;
        var bound := Bind(args, forced);
        if bound.Err? {
          r := Err(bound.error);
          return;
        }
        var built := Initialise(bound.value, source);
        if built.Err? {
          r := Err(built.error);
          return;
        }
        var reg := new UnitRegistry(built.value.WithAttr("params", ParamsValue(args, forced)));
        state := Ready(reg);
        r := Ok(reg);
      case Ready(reg) =>
        r := Ok(reg);
      case Broken =>
        r := Err(NotInitialised);
    }

    /** `getattr(handle, name)` */
    method GetAttr(name: string, source: seq<Definition>) returns (r: Result<Value, Error>)
      modifies this
      ensures r == old(AttrAnswer(state, name, source))
      ensures old(AnswersItself(state, name)) ==> state == old(state)
      ensures !old(AnswersItself(state, name)) ==> Settles(old(state), state, old(Prior(state, source)))
      ensures old(state).Pending? && state.Ready? ==> fresh(state.reg)
    {
      if AnswersItself(state, name) {
        r := Ok(PendingAttr(state.args, state.kwargs, name).value);
      } else {
        var t := Touch(source);
        if t.Ok? {
          r := t.value.State().Attr(name);
        } else {
          r := Err(t.error);
        }
      }
    }

    /** `setattr(handle, name, value)`; a write of `__class__` retypes without materialising. */
    method SetAttr(name: string, value: Value, source: seq<Definition>) returns (r: Result<(), Error>)
      modifies Repr()
      ensures name == ClassAttr ==>
        r == Ok(()) && state == (if old(state).Pending? then Broken else old(state))
      ensures name == ClassAttr && state.Ready? ==> state.reg.State() == old(state.reg.State())
      ensures name != ClassAttr ==>
        && Settles(old(state), state, WithAttrIn(old(Prior(state, source)), name, value))
        && r == (if old(Prior(state, source)).Ok? then Ok(()) else Err(old(Prior(state, source)).error))
      ensures old(state).Pending? && state.Ready? ==> fresh(state.reg)
    {
      if name == ClassAttr {
        if state.Pending? {
          state := Broken;
        }
        r := Ok(());
      } else {
        var t := Touch(source);
        if t.Ok? {
          t.value.SetAttr(name, value);
          r := Ok(());
        } else {
          r := Err(t.error);
        }
      }
    }

    /** `handle[key]` */
    method GetItem(key: string, source: seq<Definition>) returns (r: Result<Value, Error>)
      modifies this
      ensures r == old(ParseAnswer(state, key, source))
      ensures Settles(old(state), state, old(Prior(state, source)))
      ensures old(state).Pending? && state.Ready? ==> fresh(state.reg)
    {
      var t := Touch(source);
      if t.Ok? {
        r := t.value.State().Parse(key);
      } else {
        r := Err(t.error);
      }
    }

    /** `handle(expr)` */
    method Call(expr: string, source: seq<Definition>) returns (r: Result<Value, Error>)
      modifies this
      ensures r == old(ParseAnswer(state, expr, source))
      ensures Settles(old(state), state, old(Prior(state, source)))
      ensures old(state).Pending? && state.Ready? ==> fresh(state.reg)
    {
      var t := Touch(source);
      if t.Ok? {
        r := t.value.State().Parse(expr);
      } else {
        r := Err(t.error);
      }
    }
  }

  // ---------------------------------------------------------------------------------------
  // ApplicationRegistry: what a forwarded operation does on the current target
  // ---------------------------------------------------------------------------------------

  /** The objects an operation forwarded to `c` may read or change. */
  function TargetObjects(c: Candidate): (r: set<object>)
    reads if c.Lazy? then {c.l} else {}
  {
    match c
    case Lazy(l) => l.Repr()
    case Eager(reg) => {reg}
    case _ => {}
  }

  /** `getattr(target, name)` */
  function TargetAttr(c: Candidate, name: string, source: seq<Definition>): (r: Result<Value, Error>)
    reads TargetObjects(c)
  {
    match c
    case Lazy(l) => AttrAnswer(l.state, name, source)
    case Eager(reg) => reg.State().Attr(name)
    case _ => Err(UnsupportedTarget(c.TypeName()))
  }

  /** `target[expr]` and `target(expr)` */
  function TargetParse(c: Candidate, expr: string, source: seq<Definition>): (r: Result<Value, Error>)
    reads TargetObjects(c)
  {
    match c
    case Lazy(l) => ParseAnswer(l.state, expr, source)
    case Eager(reg) => reg.State().Parse(expr)
    case _ => Err(UnsupportedTarget(c.TypeName()))
  }

  /** `target.__contains__(item)`: reading `__contains__` off a pending handle materialises it. */
  function TargetHolds(c: Candidate, item: string, source: seq<Definition>): (r: Result<bool, Error>)
    reads TargetObjects(c)
  {
    match c
    case Lazy(l) => (match Prior(l.state, source) case Ok(s) => Ok(s.Holds(item)) case Err(e) => Err(e))
    case Eager(reg) => Ok(reg.State().Holds(item))
    case _ => Err(UnsupportedTarget(c.TypeName()))
  }

  /** What a forwarded operation finds on `c`: the registry a touch reaches, or the exception. */
  function TargetState(c: Candidate, source: seq<Definition>): (r: Result<RegState, Error>)
    reads TargetObjects(c)
  {
    match c
    case Lazy(l) => Prior(l.state, source)
    case Eager(reg) => Ok(reg.State())
    case _ => Err(UnsupportedTarget(c.TypeName()))
  }

  /**
   * What `iter(target)` returns. A pending handle has no `__iter__` but has `__getitem__`, so
   * Python builds an iterator that will subscript the handle with 0, 1, 2, ...; nothing is
   * materialised yet.
   */
  datatype Iteration = OverUnits(names: set<string>) | OverIndices(handle: LazyRegistry)

  /** `new_registry.get()` when `new_registry` is an ApplicationRegistry, else itself. */
  function Unwrap(c: Candidate): (r: Candidate)
    reads if c.App? then {c.h} else {}
  {
    if c.App? then c.h.registry else c
  }

  /** The slot the handle keeps for itself. */
  const SlotName: string := "_registry"

  /** The methods the ApplicationRegistry class defines. */
  const AppMethods: set<string> :=
    {"get", "set", "__init__", "__getattr__", "__setattr__", "__dir__", "__getitem__",
     "__call__", "__contains__", "__iter__"}

  /**
   * The names ordinary lookup finds on an ApplicationRegistry besides its slot. Because the class
   * declares `__slots__`, its instances have no `__dict__` and no `__weakref__`: reading those is
   * forwarded to the target.
   */
  const AppNames: set<string> := AppMethods + {"__slots__", "__class__", "__module__", "__doc__"}

  function AppOwnAttr(name: string): (r: Option<Value>)
    ensures r.Some? <==> name in AppNames
    ensures name == "__slots__" ==> r == Some(List([Str(SlotName)]))
  {
    if name in AppMethods then Some(Opaque("method"))
    else if name == "__slots__" then Some(List([Str(SlotName)]))
    else if name == ClassAttr then Some(Opaque("type"))
    else if name == "__module__" then Some(Str("pint.registry"))
    else if name == "__doc__" then Some(Str("A wrapper class used to distribute changes to the application registry."))
    else None
  }

  class ApplicationRegistry {
    var registry: Candidate

    /** The target must be a registry or a lazy handle; the constructor does not check it. */
    predicate Valid()
      reads this
    {
      registry.Admissible()
    }

    /** `ApplicationRegistry(registry)`: stores the target unchecked. */
    constructor (registry: Candidate)
      ensures this.registry == registry
      ensures Valid() <==> registry.Admissible()
    {
      this.registry := registry;
    }

    /** The objects a forwarded operation may change. */
    function Targets(): (r: set<object>)
      reads this, if registry.Lazy? then {registry.l} else {}
    {
      TargetObjects(registry)
    }

    /** `get()`: the current target, untouched, so a lazy target stays pending. */
    method Get() returns (c: Candidate)
      ensures c == registry
    {
      c := registry;
    }

    /**
     * `set(new_registry)`: unwraps another ApplicationRegistry, then accepts only a lazy handle
     * or a registry; anything else raises a TypeError naming its type and keeps the old target.
     */
    method Set(candidate: Candidate) returns (r: Result<(), Error>)
      modifies this
      ensures var u := old(Unwrap(candidate));
        && (u.Admissible() ==> r == Ok(()) && registry == u)
        && (!u.Admissible() ==> r == Err(WrongRegistryType(u.TypeName())) && registry == old(registry))
      ensures r.Ok? ==> Valid()
      ensures old(Valid()) ==> Valid()
    {
      var u := if candidate.App? then candidate.h.registry else candidate;
      if !u.Admissible() {
        r := Err(WrongRegistryType(u.TypeName()));
        return;
      }
      registry := u;
      r := Ok(());
    }

    /** `getattr(app, name)`: the slot and the class's own names, else forwarded. */
    method GetAttr(name: string, source: seq<Definition>) returns (r: Result<Value, Error>)
      modifies if registry.Lazy? then {registry.l} else {}
      ensures registry == old(registry)
      ensures name == SlotName ==> r == Ok(Handle(registry))
      ensures name != SlotName && name in AppNames ==> r == Ok(AppOwnAttr(name).value)
      ensures name != SlotName && name !in AppNames ==> r == old(TargetAttr(registry, name, source))
      ensures registry.Lazy? && name != SlotName && name !in AppNames ==>
        && (old(AnswersItself(registry.l.state, name)) ==> registry.l.state == old(registry.l.state))
        && (!old(AnswersItself(registry.l.state, name)) ==>
              Settles(old(registry.l.state), registry.l.state, old(Prior(registry.l.state, source))))
      ensures registry.Lazy? && old(registry.l.state).Pending? && registry.l.state.Ready? ==>
        fresh(registry.l.state.reg)
      ensures old(Valid()) ==> !(r.Err? && r.error.UnsupportedTarget?)
    {
      if name == SlotName {
        r := Ok(Handle(registry));
      } else if name in AppNames {
        r := Ok(AppOwnAttr(name).value);
      } else {
        match registry
        case Lazy(l) => r := l.GetAttr(name, source);
        case Eager(reg) => r := reg.State().Attr(name);
        case _ => r := Err(UnsupportedTarget(registry.TypeName()));
      }
    }

    /**
     * `setattr(app, name, value)`: a write to the slot replaces the target, unchecked, and leaves
     * the previous target alone; any other write is forwarded and leaves the slot alone.
     */
    method SetAttr(name: string, value: Value, source: seq<Definition>) returns (r: Result<(), Error>)
      modifies if name == SlotName then {this} else Targets()
      ensures name == SlotName ==> registry == value.AsCandidate() && r == Ok(())
      ensures name != SlotName ==> registry == old(registry)
      ensures name != SlotName && registry.Eager? ==>
        r == Ok(()) && registry.r.State() == old(registry.r.State()).WithAttr(name, value)
      ensures name != SlotName && registry.Lazy? && name == ClassAttr ==>
        r == Ok(()) && registry.l.state == (if old(registry.l.state).Pending? then Broken else old(registry.l.state))
      ensures name != SlotName && registry.Lazy? && name == ClassAttr && registry.l.state.Ready? ==>
        registry.l.state.reg.State() == old(registry.l.state.reg.State())
      ensures name != SlotName && registry.Lazy? && name != ClassAttr ==>
        && Settles(old(registry.l.state), registry.l.state, WithAttrIn(old(Prior(registry.l.state, source)), name, value))
        && r == (if old(Prior(registry.l.state, source)).Ok? then Ok(()) else Err(old(Prior(registry.l.state, source)).error))
      ensures name != SlotName && !registry.Admissible() ==> r == Err(UnsupportedTarget(registry.TypeName()))
      ensures name != SlotName && registry.Lazy? && old(registry.l.state).Pending? && registry.l.state.Ready? ==>
        fresh(registry.l.state.reg)
      ensures old(Valid()) ==> !(r.Err? && r.error.UnsupportedTarget?)
    {
      if name == SlotName {
        registry := value.AsCandidate();
        r := Ok(());
      } else {
        match registry
        case Lazy(l) => r := l.SetAttr(name, value, source);
        case Eager(reg) => reg.SetAttr(name, value); r := Ok(());
        case _ => r := Err(UnsupportedTarget(registry.TypeName()));
      }
    }

    /** `app[key]` */
    method GetItem(key: string, source: seq<Definition>) returns (r: Result<Value, Error>)
      modifies if registry.Lazy? then {registry.l} else {}
      ensures registry == old(registry)
      ensures r == old(TargetParse(registry, key, source))
      ensures registry.Lazy? ==> Settles(old(registry.l.state), registry.l.state, old(Prior(registry.l.state, source)))
      ensures registry.Lazy? && old(registry.l.state).Pending? && registry.l.state.Ready? ==>
        fresh(registry.l.state.reg)
      ensures old(Valid()) ==> !(r.Err? && r.error.UnsupportedTarget?)
    {
      match registry
      case Lazy(l) => r := l.GetItem(key, source);
      case Eager(reg) => r := reg.State().Parse(key);
      case _ => r := Err(UnsupportedTarget(registry.TypeName()));
    }

    /** `app(expr)` */
    method Call(expr: string, source: seq<Definition>) returns (r: Result<Value, Error>)
      modifies if registry.Lazy? then {registry.l} else {}
      ensures registry == old(registry)
      ensures r == old(TargetParse(registry, expr, source))
      ensures registry.Lazy? ==> Settles(old(registry.l.state), registry.l.state, old(Prior(registry.l.state, source)))
      ensures registry.Lazy? && old(registry.l.state).Pending? && registry.l.state.Ready? ==>
        fresh(registry.l.state.reg)
      ensures old(Valid()) ==> !(r.Err? && r.error.UnsupportedTarget?)
    {
      match registry
      case Lazy(l) => r := l.Call(expr, source);
      case Eager(reg) => r := reg.State().Parse(expr);
      case _ => r := Err(UnsupportedTarget(registry.TypeName()));
    }

    /** `item in app` */
    method Contains(item: string, source: seq<Definition>) returns (r: Result<bool, Error>)
      modifies if registry.Lazy? then {registry.l} else {}
      ensures registry == old(registry)
      ensures r == old(TargetHolds(registry, item, source))
      ensures registry.Lazy? ==> Settles(old(registry.l.state), registry.l.state, old(Prior(registry.l.state, source)))
      ensures registry.Lazy? && old(registry.l.state).Pending? && registry.l.state.Ready? ==>
        fresh(registry.l.state.reg)
      ensures old(Valid()) ==> !(r.Err? && r.error.UnsupportedTarget?)
    {
      match registry
      case Lazy(l) =>
        var t := l.Touch(source);
        r := if t.Ok? then Ok(t.value.State().Holds(item)) else Err(t.error);
      case Eager(reg) => r := Ok(reg.State().Holds(item));
      case _ => r := Err(UnsupportedTarget(registry.TypeName()));
    }

    /**
     * `iter(app)`, as written: `iter(self._registry)`. For a pending handle Python looks up
     * `__iter__` on its type, never through `__getattr__`, so nothing is materialised and the
     * result subscripts the handle by position instead of yielding its units.
     */
    method Iter() returns (r: Result<Iteration, Error>)
      ensures registry.Eager? ==> r == Ok(OverUnits(registry.r.State().UnitNames()))
      ensures registry.Lazy? && registry.l.state.Ready? ==> r == Ok(OverUnits(registry.l.state.reg.State().UnitNames()))
      ensures registry.Lazy? && registry.l.state.Pending? ==> r == Ok(OverIndices(registry.l))
      ensures registry.Lazy? && registry.l.state.Broken? ==> r == Err(NotInitialised)
      ensures !registry.Admissible() ==> r == Err(UnsupportedTarget(registry.TypeName()))
      ensures Valid() ==> !(r.Err? && r.error.UnsupportedTarget?)
    {
      match registry
      case Lazy(l) =>
        match l.state {
          case Pending(_, _) => r := Ok(OverIndices(l));
          case Ready(reg) => r := Ok(OverUnits(reg.State().UnitNames()));
          case Broken => r := Err(NotInitialised);
        }
      case Eager(reg) => r := Ok(OverUnits(reg.State().UnitNames()));
      case _ => r := Err(UnsupportedTarget(registry.TypeName()));
    }

    /**
     * `iter(app)` forwarding transparently: the target is touched first, as every other
     * forwarded operation touches it, and the result runs over the registry's units.
     */
    method IterForwarded(source: seq<Definition>) returns (r: Result<Iteration, Error>)
      modifies if registry.Lazy? then {registry.l} else {}
      ensures registry == old(registry)
      ensures r.Ok? <==> old(TargetState(registry, source)).Ok?
      ensures r.Ok? ==> r == Ok(OverUnits(old(TargetState(registry, source)).value.UnitNames()))
      ensures r.Err? ==> r.error == old(TargetState(registry, source)).error
      ensures registry.Lazy? ==> Settles(old(registry.l.state), registry.l.state, old(Prior(registry.l.state, source)))
      ensures registry.Lazy? && old(registry.l.state).Pending? && registry.l.state.Ready? ==>
        fresh(registry.l.state.reg)
      ensures old(Valid()) ==> !(r.Err? && r.error.UnsupportedTarget?)
    {
      match registry
      case Lazy(l) =>
        var t := l.Touch(source);
        r := if t.Ok? then Ok(OverUnits(t.value.State().UnitNames())) else Err(t.error);
      case Eager(reg) => r := Ok(OverUnits(reg.State().UnitNames()));
      case _ => r := Err(UnsupportedTarget(registry.TypeName()));
    }

    /**
     * `dir(app)`, as written: `dir(self._registry)`. For a pending handle `dir` does not consult
     * `__getattr__`: it lists the handle's own names and materialises nothing.
     */
    method Dir() returns (r: Result<set<string>, Error>)
      ensures registry.Eager? ==> r == Ok(registry.r.State().Listing())
      ensures registry.Lazy? && registry.l.state.Ready? ==> r == Ok(registry.l.state.reg.State().Listing())
      ensures registry.Lazy? && registry.l.state.Pending? ==> r == Ok(HandleNames)
      ensures registry.Lazy? && registry.l.state.Broken? ==> r == Err(NotInitialised)
      ensures !registry.Admissible() ==> r == Err(UnsupportedTarget(registry.TypeName()))
      ensures Valid() ==> !(r.Err? && r.error.UnsupportedTarget?)
    {
      match registry
      case Lazy(l) =>
        match l.state {
          case Pending(_, _) => r := Ok(HandleNames);
          case Ready(reg) => r := Ok(reg.State().Listing());
          case Broken => r := Err(NotInitialised);
        }
      case Eager(reg) => r := Ok(reg.State().Listing());
      case _ => r := Err(UnsupportedTarget(registry.TypeName()));
    }

    /** `dir(app)` forwarding transparently: the target is touched first, then listed. */
    method DirForwarded(source: seq<Definition>) returns (r: Result<set<string>, Error>)
      modifies if registry.Lazy? then {registry.l} else {}
      ensures registry == old(registry)
      ensures r.Ok? <==> old(TargetState(registry, source)).Ok?
      ensures r.Ok? ==> r.value == old(TargetState(registry, source)).value.Listing()
      ensures r.Err? ==> r.error == old(TargetState(registry, source)).error
      ensures registry.Lazy? ==> Settles(old(registry.l.state), registry.l.state, old(Prior(registry.l.state, source)))
      ensures registry.Lazy? && old(registry.l.state).Pending? && registry.l.state.Ready? ==>
        fresh(registry.l.state.reg)
      ensures old(Valid()) ==> !(r.Err? && r.error.UnsupportedTarget?)
    {
      match registry
      case Lazy(l) =>
        var t := l.Touch(source);
        r := if t.Ok? then Ok(t.value.State().Listing()) else Err(t.error);
      case Eager(reg) => r := Ok(reg.State().Listing());
      case _ => r := Err(UnsupportedTarget(registry.TypeName()));
    }
  }

  // ---------------------------------------------------------------------------------------
  // dir and iter on a pending lazy target, before and after it is touched
  // ---------------------------------------------------------------------------------------

  /**
   * As written, `dir(app)` over a pending handle changes its answer once another operation has
   * materialised the handle: before, it lists the handle's own names and misses the registry's
   * attributes, such as `_on_redefinition`.
   */
  method PendingDirAcrossTouch(args: seq<Value>, kwargs: map<string, Value>, source: seq<Definition>)
    returns (before: Result<set<string>, Error>, after: Result<set<string>, Error>)
    requires Materialise(args, kwargs, source).Ok?
    ensures before == Ok(HandleNames)
    ensures after == Ok(Materialise(args, kwargs, source).value.Listing())
    ensures "_on_redefinition" in after.value && "_on_redefinition" !in before.value
  {
    var lazy := new LazyRegistry(Some(args), Some(kwargs));
    var app := new ApplicationRegistry(Lazy(lazy));
    var s := Materialise(args, kwargs, source).value;
    MaterialisedListsPolicy(args, kwargs, source);
    assert "_on_redefinition" !in HandleNames;
    before := app.Dir();
    var _ := app.GetItem("meter", source);
    assert lazy.state.Ready? && lazy.state.reg.State() == s;
    after := app.Dir();
  }

  /**
   * Forwarding transparently, `dir(app)` gives the same answer before and after a touch: the
   * listing of a registry built eagerly with the forced policy, plus `params`.
   */
  method ForwardedDirAcrossTouch(args: seq<Value>, kwargs: map<string, Value>, source: seq<Definition>)
    returns (before: Result<set<string>, Error>, after: Result<set<string>, Error>)
    requires Materialise(args, kwargs, source).Ok?
    ensures before == after
    ensures before == Ok(Construct(args, ForcePolicy(kwargs), source).value.Listing() + {"params"})
  {
    var lazy := new LazyRegistry(Some(args), Some(kwargs));
    var app := new ApplicationRegistry(Lazy(lazy));
    MaterialiseMatchesEager(args, kwargs, source);
    before := app.DirForwarded(source);
    var _ := app.GetItem("meter", source);
    assert lazy.state.Ready? && lazy.state.reg.State() == Materialise(args, kwargs, source).value;
    after := app.DirForwarded(source);
  }

  /**
   * As written, `iter(app)` over a pending handle subscripts the handle by position; once the
   * handle is materialised the same call runs over the registry's units.
   */
  method PendingIterAcrossTouch(args: seq<Value>, kwargs: map<string, Value>, source: seq<Definition>)
    returns (before: Result<Iteration, Error>, after: Result<Iteration, Error>)
    requires Materialise(args, kwargs, source).Ok?
    ensures before.Ok? && before.value.OverIndices?
    ensures after == Ok(OverUnits(Materialise(args, kwargs, source).value.UnitNames()))
  {
    var lazy := new LazyRegistry(Some(args), Some(kwargs));
    var app := new ApplicationRegistry(Lazy(lazy));
    before := app.Iter();
    var _ := app.GetItem("meter", source);
    assert lazy.state.Ready? && lazy.state.reg.State() == Materialise(args, kwargs, source).value;
    after := app.Iter();
  }

  /** Forwarding transparently, `iter(app)` runs over the materialised registry's units, touched or not. */
  method ForwardedIterAcrossTouch(args: seq<Value>, kwargs: map<string, Value>, source: seq<Definition>)
    returns (before: Result<Iteration, Error>, after: Result<Iteration, Error>)
    requires Materialise(args, kwargs, source).Ok?
    ensures before == after
    ensures before == Ok(OverUnits(Construct(args, ForcePolicy(kwargs), source).value.UnitNames()))
  {
    var lazy := new LazyRegistry(Some(args), Some(kwargs));
    var app := new ApplicationRegistry(Lazy(lazy));
    MaterialiseMatchesEager(args, kwargs, source);
    before := app.IterForwarded(source);
    var _ := app.GetItem("meter", source);
    assert lazy.state.Ready? && lazy.state.reg.State() == Materialise(args, kwargs, source).value;
    after := app.IterForwarded(source);
  }

  // ---------------------------------------------------------------------------------------
  // A client: what callers can rely on from the contracts above
  // ---------------------------------------------------------------------------------------

  /**
   * The application registry starts on a pending lazy handle: reading the policy does not
   * materialise it, the first lookup does, a second lookup reuses the same registry, and a
   * rejected `set` keeps the target.
   */
  method ApplicationRegistryLifecycle(source: seq<Definition>)
  {
    var lazy := new LazyRegistry(None, None);
    var app := new ApplicationRegistry(Lazy(lazy));
    assert app.Valid();

    var policy := app.GetAttr("_on_redefinition", source);
    assert policy == Ok(Str("raise")) && lazy.state == Pending([], map[]);
    var target := app.Get();
    assert target == Lazy(lazy);

    var first := app.GetItem("meter", source);
    assert !lazy.state.Pending?;
    var after := lazy.state;
    var second := app.Call("meter", source);
    assert lazy.state == after;
    assert after.Ready? ==> first == second;

    var rejected := app.Set(Other("int"));
    assert rejected == Err(WrongRegistryType("int")) && app.registry == Lazy(lazy);

    var eager := NewUnitRegistry([], map[], source);
    EagerDefaultToleratesRedefinition(source);
    var other := new ApplicationRegistry(Eager(eager.value));
    var accepted := app.Set(App(other));
    target := app.Get();
    assert accepted == Ok(()) && target == Eager(eager.value);
  }

  /**
   * Writing the slot of an application registry replaces its target and leaves the replaced
   * lazy handle pending; a forwarded `dir` then lists the new registry.
   */
  method SlotWriteLeavesOldTarget(source: seq<Definition>)
  {
    var spare := new LazyRegistry(None, None);
    var app := new ApplicationRegistry(Lazy(spare));
    var reg := new UnitRegistry(RegState([], map[], map["meter" := Str("m")]));
    var written := app.SetAttr(SlotName, Handle(Eager(reg)), source);
    assert written == Ok(()) && app.registry == Eager(reg) && spare.state == Pending([], map[]);
    assert reg.State().Listing() == {"meter"};
    var names := app.DirForwarded(source);
    assert names == Ok({"meter"}) && spare.state == Pending([], map[]);
  }
}
