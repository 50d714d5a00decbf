/** The three code generators of the object layer: the subtype wrapper
    (`define_object_subtype!`), the typed-handle classifier
    (`define_typed_handle!`) and the property getter pair
    (`impl_prop_proxy_getters!`).  Each macro becomes one generic definition
    here, parameterised by what the macro invocation supplies. */
module Macros {
  import opened Wrappers
  import opened Objects
  import opened Sequences

  // ---------------------------------------------------------------------
  // Subtype wrapper
  // ---------------------------------------------------------------------

  /** A handle that wraps a handle of its super type and nothing else. */
  datatype Subtype<S> = Subtype(inner: S)

  /** Wraps `inner`; dereferencing the wrapper gives it back. */
  function NewSubtype<S>(inner: S): (h: Subtype<S>)
    ensures DerefSubtype(h) == inner
  {
    Subtype(inner)
  }

  /** The wrapped super-type handle. */
  function DerefSubtype<S>(h: Subtype<S>): S {
    h.inner
  }

  // ---------------------------------------------------------------------
  // Typed handle classification
  // ---------------------------------------------------------------------

  /** One side of a match arm: a string literal or the `_` wildcard. */
  datatype Pattern = Literal(text: string) | Wildcard

  predicate PatternMatches(p: Pattern, s: string) {
    match p
    case Literal(text) => text == s
    case Wildcard => true
  }

  /** One arm `(class, subclass) => Variant(..)` of a typed handle. */
  datatype Arm<V> = Arm(classPattern: Pattern, subclassPattern: Pattern, variant: V)

  predicate ArmMatches<V>(arm: Arm<V>, className: string, subclass: string) {
    PatternMatches(arm.classPattern, className) && PatternMatches(arm.subclassPattern, subclass)
  }

  /** The arms of a `match` on `(className, subclass)` that would fire. */
  function MatchesClasses<V>(className: string, subclass: string): Arm<V> -> bool {
    (arm: Arm<V>) => ArmMatches(arm, className, subclass)
  }

  /** Arm `i` matches and no arm declared before it does. */
  predicate IsFirstMatch<V>(table: seq<Arm<V>>, className: string, subclass: string, i: int) {
    IsFirst(table, MatchesClasses(className, subclass), i)
  }

  predicate NoArmMatches<V>(table: seq<Arm<V>>, className: string, subclass: string) {
    NoneSatisfy(table, MatchesClasses(className, subclass))
  }

  /** A typed handle: one of the declared variants, each wrapping the object
      in that variant's subtype handle, or `Unknown` wrapping the object
      itself.  The hidden `__Nonexhaustive` arm of the source has no
      counterpart: no value of this type stands for it. */
  datatype Typed<V> = Known(variant: V, handle: Subtype<Object>) | Unknown(obj: Object)

  /** The object handle a typed handle dereferences to, for every variant. */
  function Deref<V>(t: Typed<V>): Object {
    match t
    case Known(_, h) => DerefSubtype(h)
    case Unknown(o) => o
  }

  /** The variant tag of a typed handle, `None` for `Unknown`. */
  function VariantOf<V>(t: Typed<V>): Option<V> {
    match t
    case Known(v, _) => Some(v)
    case Unknown(_) => None
  }

  /** Classifies `obj` by its class and subclass against the ordered arms of
      `table`.  Never fails: an object no arm matches becomes `Unknown`. */
  function Classify<V>(table: seq<Arm<V>>, obj: Object): (t: Typed<V>)
    ensures Deref(t) == obj
    ensures t.Unknown? <==> NoArmMatches(table, obj.className, obj.subclass)
    ensures t.Unknown? ==> t.obj == obj
    ensures t.Known? ==>
      exists i :: IsFirstMatch(table, obj.className, obj.subclass, i) && table[i].variant == t.variant
  {
    match FirstIndex(table, MatchesClasses(obj.className, obj.subclass))
    case Some(i) => Known(table[i].variant, NewSubtype(obj))
    case None => Unknown(obj)
  }

  /** When arm `i` is the first one to match, it is the one chosen, whatever
      later arms would also match. */
  lemma ClassifyEarliestArmWins<V>(table: seq<Arm<V>>, obj: Object, i: int)
    requires IsFirstMatch(table, obj.className, obj.subclass, i)
    ensures Classify(table, obj) == Known(table[i].variant, Subtype(obj))
  {
  }

  /** Two objects with the same class and subclass get the same variant. */
  lemma ClassifyDependsOnlyOnClasses<V>(table: seq<Arm<V>>, a: Object, b: Object)
    requires a.className == b.className && a.subclass == b.subclass
    ensures VariantOf(Classify(table, a)) == VariantOf(Classify(table, b))
  {
  }

  // ---------------------------------------------------------------------
  // Property getters
  // ---------------------------------------------------------------------

  /** A property load failure, with the property's description attached as
      context to the loader's own error. */
  datatype PropError<E> = LoadFailed(description: string, cause: E)

  function Lookup<S>(props: map<string, S>, name: string): Option<S> {
    if name in props then Some(props[name]) else None
  }

  function Transpose<T, E>(o: Option<Result<T, E>>): Result<Option<T>, E> {
    match o
    case None => Ok(None)
    case Some(Ok(v)) => Ok(Some(v))
    case Some(Err(e)) => Err(e)
  }

  /** The plain getter: looks `name` up, loads it with `loader`, and attaches
      `description` to a load error. */
  function GetProperty<S, T, E>(props: map<string, S>, name: string, loader: S -> Result<T, E>,
                                description: string): (r: Result<Option<T>, PropError<E>>)
    ensures name !in props <==> r == Ok(None)
    ensures name in props && loader(props[name]).Ok? ==> r == Ok(Some(loader(props[name]).value))
    ensures name in props && loader(props[name]).Err? ==>
      r == Err(LoadFailed(description, loader(props[name]).error))
  {
    var loaded := match Lookup(props, name)
                  case Some(p) => Some(loader(p))
                  case None => None;
    Transpose(loaded).MapError(e => LoadFailed(description, e))
  }

  /** The defaulted getter: the plain getter with an absent value replaced
      by `default`. */
  function GetPropertyOrDefault<S, T, E>(props: map<string, S>, name: string, loader: S -> Result<T, E>,
                                         description: string, default: T): (r: Result<T, PropError<E>>)
    ensures name !in props ==> r == Ok(default)
    ensures name in props && loader(props[name]).Ok? ==> r == Ok(loader(props[name]).value)
    ensures name in props && loader(props[name]).Err? ==>
      r == Err(LoadFailed(description, loader(props[name]).error))
  {
    GetProperty(props, name, loader, description).MapValue((v: Option<T>) => v.UnwrapOr(default))
  }

  /** The defaulted getter follows the plain one: `Ok(None)` becomes the
      default, `Ok(Some(v))` becomes `v`, and an error is passed on as it is. */
  lemma OrDefaultFollowsPlainGetter<S, T, E>(props: map<string, S>, name: string, loader: S -> Result<T, E>,
                                             description: string, default: T)
    ensures GetProperty(props, name, loader, description) == Ok(None) ==>
      GetPropertyOrDefault(props, name, loader, description, default) == Ok(default)
    ensures forall v :: GetProperty(props, name, loader, description) == Ok(Some(v)) ==>
      GetPropertyOrDefault(props, name, loader, description, default) == Ok(v)
    ensures GetProperty(props, name, loader, description).Err? ==>
      GetPropertyOrDefault(props, name, loader, description, default)
        == Err(GetProperty(props, name, loader, description).error)
  {
  }

  /** The default is used only for an absent property: once the property is
      present, a success carries the loaded value, even when that value
      happens to equal the default. */
  lemma DefaultOnlyWhenAbsent<S, T, E>(props: map<string, S>, name: string, loader: S -> Result<T, E>,
                                       description: string, default: T)
    requires name in props
    ensures GetPropertyOrDefault(props, name, loader, description, default).Ok?
        <==> loader(props[name]).Ok?
    ensures GetPropertyOrDefault(props, name, loader, description, default).Ok? ==>
      GetPropertyOrDefault(props, name, loader, description, default).value == loader(props[name]).value
  {
  }
}
