/** `Texture` objects: the texture handle, the search for its video clip
    among its source connections, and the twelve texture properties with
    their defaults. */
module Texture {
  import opened Wrappers
  import opened Objects
  import opened Macros
  import opened Sequences

  /** A texture handle is a subtype wrapper around an object handle. */
  type TextureHandle = Subtype<Object>

  /** A video clip handle is a subtype wrapper around an object handle. */
  type ClipHandle = Subtype<Object>

  // ---------------------------------------------------------------------
  // Video clip lookup
  // ---------------------------------------------------------------------

  /** The two classification tables a video clip lookup goes through: the
      top-level object arms with the tag of their `Video` variant, and the
      arms of the nested video handle with the tag of its `Clip` variant.
      Both tables are declared outside the texture code, so they are
      parameters here. */
  datatype Categories<O, I> = Categories(objectArms: seq<Arm<O>>, video: O, videoArms: seq<Arm<I>>, clip: I)

  /** The clip handle `obj` is typed as, if it is typed `Video(Clip(..))`.
      The `Video` variant wraps a nested video handle built from the same
      object, so the nested handle is `obj` classified again against the
      video arms. */
  function AsVideoClip<O(==), I(==)>(cats: Categories<O, I>, obj: Object): (r: Option<ClipHandle>)
    ensures r.Some? <==>
      VariantOf(Classify(cats.objectArms, obj)) == Some(cats.video)
      && VariantOf(Classify(cats.videoArms, obj)) == Some(cats.clip)
    ensures r.Some? ==> DerefSubtype(r.value) == obj
  {
    match Classify(cats.objectArms, obj)
    case Unknown(_) => None
    case Known(v, _) =>
      if v != cats.video then None
      else
        match Classify(cats.videoArms, obj)
        case Unknown(_) => None
        case Known(c, h) => if c == cats.clip then Some(h) else None
  }

  /** An edge leads to a video clip: it is unlabeled, its far end resolves to
      an object, and that object is typed as a video clip. */
  predicate Qualifies<O(==), I(==)>(cats: Categories<O, I>, e: Edge) {
    e.edgeLabel.None? && e.target.Some? && AsVideoClip(cats, e.target.value).Some?
  }

  /** `Qualifies` as a function value, for the first-match search. */
  function QualifiesFor<O(==), I(==)>(cats: Categories<O, I>): Edge -> bool {
    (e: Edge) => Qualifies(cats, e)
  }

  /** Edge `i` is the earliest qualifying edge. */
  predicate IsFirstQualifying<O(==), I(==)>(cats: Categories<O, I>, edges: seq<Edge>, i: int) {
    IsFirst(edges, QualifiesFor(cats), i)
  }

  predicate NoneQualifies<O(==), I(==)>(cats: Categories<O, I>, edges: seq<Edge>) {
    NoneSatisfy(edges, QualifiesFor(cats))
  }

  /** Keeps the edges without a label, in order. */
  function Unlabeled(edges: seq<Edge>): seq<Edge>
    decreases |edges|
  {
    if |edges| == 0 then []
    else if edges[0].edgeLabel.None? then [edges[0]] + Unlabeled(edges[1..])
    else Unlabeled(edges[1..])
  }

  /** The objects the edges resolve to, in order; unresolvable edges drop out. */
  function Resolved(edges: seq<Edge>): seq<Object>
    decreases |edges|
  {
    if |edges| == 0 then []
    else if edges[0].target.Some? then [edges[0].target.value] + Resolved(edges[1..])
    else Resolved(edges[1..])
  }

  /** The clip handles among the objects, in order. */
  function Clips<O(==), I(==)>(cats: Categories<O, I>, objs: seq<Object>): seq<ClipHandle>
    decreases |objs|
  {
    if |objs| == 0 then []
    else
      match AsVideoClip(cats, objs[0])
      case Some(h) => [h] + Clips(cats, objs[1..])
      case None => Clips(cats, objs[1..])
  }

  function Head<T>(s: seq<T>): Option<T> {
    if |s| == 0 then None else Some(s[0])
  }

  /** The filter pipeline over the edges picks the clip of the earliest
      qualifying edge. */
  lemma {:induction false} PipelineFindsFirstQualifying<O, I>(cats: Categories<O, I>, edges: seq<Edge>)
    ensures Head(Clips(cats, Resolved(Unlabeled(edges)))) ==
      match FirstIndex(edges, QualifiesFor(cats))
      case Some(i) => AsVideoClip(cats, edges[i].target.value)
      case None => None
    decreases |edges|
  {
    if |edges| > 0 {
      var e, rest := edges[0], edges[1..];
      var q := QualifiesFor(cats);
      PipelineFindsFirstQualifying(cats, rest);
      assert q(e) == Qualifies(cats, e);
      if e.edgeLabel.None? && e.target.Some? {
        assert Resolved(Unlabeled(edges)) == [e.target.value] + Resolved(Unlabeled(rest));
      } else if e.edgeLabel.None? {
        assert Resolved(Unlabeled(edges)) == Resolved(Unlabeled(rest));
      } else {
        assert Unlabeled(edges) == Unlabeled(rest);
      }
      if !Qualifies(cats, e) {
        match FirstIndex(rest, q)
        case Some(i) =>
          assert FirstIndex(edges, q) == Some(i + 1);
          assert edges[i + 1] == rest[i];
        case None =>
          assert FirstIndex(edges, q) == None;
      } else {
        assert FirstIndex(edges, q) == Some(0);
      }
    }
  }

  /** The video clip reached through the edges: unlabeled edges only,
      unresolvable ends skipped, the first clip in edge order. */
  function FindVideoClip<O(==), I(==)>(cats: Categories<O, I>, edges: seq<Edge>): (r: Option<ClipHandle>)
    ensures r.None? <==> NoneQualifies(cats, edges)
    ensures r.Some? ==>
      exists i :: IsFirstQualifying(cats, edges, i)
        && r == AsVideoClip(cats, edges[i].target.value)
        && DerefSubtype(r.value) == edges[i].target.value
  {
    PipelineFindsFirstQualifying(cats, edges);
    Head(Clips(cats, Resolved(Unlabeled(edges))))
  }

  /** The video clip of a texture, searched among its source connections;
      `sourcesOf` gives an object's source connections in document order. */
  function VideoClip<O(==), I(==)>(cats: Categories<O, I>, tex: TextureHandle,
                                   sourcesOf: Object -> seq<Edge>): (r: Option<ClipHandle>)
    ensures r.None? <==> NoneQualifies(cats, sourcesOf(DerefSubtype(tex)))
    ensures r.Some? ==>
      exists i :: IsFirstQualifying(cats, sourcesOf(DerefSubtype(tex)), i)
        && r == AsVideoClip(cats, sourcesOf(DerefSubtype(tex))[i].target.value)
        && DerefSubtype(r.value) == sourcesOf(DerefSubtype(tex))[i].target.value
  {
    FindVideoClip(cats, sourcesOf(DerefSubtype(tex)))
  }

  /** Searching a concatenation: the first part is searched first, and the
      second part only matters when the first yields nothing. */
  lemma FindVideoClipConcat<O, I>(cats: Categories<O, I>, a: seq<Edge>, b: seq<Edge>)
    ensures FindVideoClip(cats, a + b) ==
      if FindVideoClip(cats, a).Some? then FindVideoClip(cats, a) else FindVideoClip(cats, b)
  {
    var ab := a + b;
    var r := FindVideoClip(cats, ab);
    match FirstIndex(a, QualifiesFor(cats))
    case Some(i) =>
      assert IsFirstQualifying(cats, ab, i) by {
        assert ab[i] == a[i];
        forall j | 0 <= j < i ensures !Qualifies(cats, ab[j]) {
          assert ab[j] == a[j];
        }
      }
      FirstQualifyingUnique(cats, ab, i);
      FirstQualifyingUnique(cats, a, i);
    case None =>
      forall j | 0 <= j < |a| ensures !Qualifies(cats, ab[j]) {
        assert ab[j] == a[j];
      }
      match FirstIndex(b, QualifiesFor(cats))
      case Some(k) =>
        assert IsFirstQualifying(cats, ab, |a| + k) by {
          assert ab[|a| + k] == b[k];
          forall j | |a| <= j < |a| + k ensures !Qualifies(cats, ab[j]) {
            assert ab[j] == b[j - |a|];
          }
        }
        FirstQualifyingUnique(cats, ab, |a| + k);
        FirstQualifyingUnique(cats, b, k);
      case None =>
        forall j | |a| <= j < |ab| ensures !Qualifies(cats, ab[j]) {
          assert ab[j] == b[j - |a|];
        }
  }

  /** Pins the search result to a known first qualifying index. */
  lemma FirstQualifyingUnique<O, I>(cats: Categories<O, I>, edges: seq<Edge>, i: int)
    requires IsFirstQualifying(cats, edges, i)
    ensures FindVideoClip(cats, edges) == AsVideoClip(cats, edges[i].target.value)
  {
  }

  /** An edge that does not lead to a clip (labeled, unresolvable, or typed
      as something else) is skipped, not an error. */
  lemma SkipsNonQualifyingEdge<O, I>(cats: Categories<O, I>, e: Edge, rest: seq<Edge>)
    requires !Qualifies(cats, e)
    ensures FindVideoClip(cats, [e] + rest) == FindVideoClip(cats, rest)
  {
    FindVideoClipConcat(cats, [e], rest);
  }

  /** Filtering out labeled edges twice gives the same list as filtering once. */
  lemma {:induction false} UnlabeledIdempotent(edges: seq<Edge>)
    ensures Unlabeled(Unlabeled(edges)) == Unlabeled(edges)
    decreases |edges|
  {
    if |edges| > 0 {
      UnlabeledIdempotent(edges[1..]);
      if edges[0].edgeLabel.None? {
        assert ([edges[0]] + Unlabeled(edges[1..]))[1..] == Unlabeled(edges[1..]);
      }
    }
  }

  /** Labeled edges never contribute: removing them all changes nothing. */
  lemma FindVideoClipIgnoresLabeledEdges<O, I>(cats: Categories<O, I>, edges: seq<Edge>)
    ensures FindVideoClip(cats, Unlabeled(edges)) == FindVideoClip(cats, edges)
  {
    UnlabeledIdempotent(edges);
    PipelineFindsFirstQualifying(cats, edges);
    PipelineFindsFirstQualifying(cats, Unlabeled(edges));
  }

  // ---------------------------------------------------------------------
  // Texture properties
  // ---------------------------------------------------------------------

  /** The native type name the texture property table is scoped to. */
  const FileTextureTypename := "FbxFileTexture"

  /** The property table of a texture, already scoped to its native type. */
  datatype TextureProperties<S> = TextureProperties(properties: map<string, S>)

  /** The texture's properties; `byNativeTypename(obj, t)` is the document's
      table of the properties of `obj` scoped to native type name `t`. */
  function Properties<S>(tex: TextureHandle, byNativeTypename: (Object, string) -> map<string, S>): TextureProperties<S>
  {
    TextureProperties(byNativeTypename(DerefSubtype(tex), FileTextureTypename))
  }

  /** The texture getters read the table scoped to `FbxFileTexture`: a
      property is reported absent exactly when that table lacks its name,
      and the defaulted getter then yields the property's default. */
  lemma GettersReadFileTextureScope<S, E>(tex: TextureHandle, byNativeTypename: (Object, string) -> map<string, S>,
                                          p: TextureProp, loaders: Loaders<S, E>)
    ensures Get(Properties(tex, byNativeTypename), p, loaders) == Ok(None)
        <==> Name(p) !in byNativeTypename(DerefSubtype(tex), "FbxFileTexture")
    ensures Name(p) !in byNativeTypename(DerefSubtype(tex), "FbxFileTexture") ==>
      GetOrDefault(Properties(tex, byNativeTypename), p, loaders) == Ok(Default(p))
  {
  }

  /** Texture wrap mode. */
  datatype WrapMode = Repeat | Clamp

  /** Texture blend mode. */
  datatype BlendMode = Translucent | Additive | Modulate | Modulate2 | Over

  /** A three-element `f64` array; the elements are opaque reals. */
  datatype F64Arr3 = F64Arr3(x: real, y: real, z: real)

  /** A decoded texture property value, one alternative per value type. */
  datatype TextureValue =
    | F64(f: real)
    | Wrap(wrap: WrapMode)
    | Flag(flag: bool)
    | Vector(vector: F64Arr3)
    | Blend(blend: BlendMode)
    | Text(text: string)

  datatype ValueKind = F64Kind | WrapModeKind | BoolKind | F64Arr3Kind | BlendModeKind | StringKind

  function KindOf(v: TextureValue): ValueKind {
    match v
    case F64(_) => F64Kind
    case Wrap(_) => WrapModeKind
    case Flag(_) => BoolKind
    case Vector(_) => F64Arr3Kind
    case Blend(_) => BlendModeKind
    case Text(_) => StringKind
  }

  /** The twelve texture properties. */
  datatype TextureProp =
    | Alpha | WrapModeU | WrapModeV | UvSwap | PremultiplyAlpha
    | Translation | Rotation | Scaling | RotationPivot | ScalingPivot
    | TextureBlendMode | UvSet

  /** The property's name in the property table. */
  function Name(p: TextureProp): string {
    match p
    case Alpha => "Texture alpha"
    case WrapModeU => "WrapModeU"
    case WrapModeV => "WrapModeV"
    case UvSwap => "UVSwap"
    case PremultiplyAlpha => "PremultiplyAlpha"
    case Translation => "Translation"
    case Rotation => "Rotation"
    case Scaling => "Scaling"
    case RotationPivot => "TextureRotationPivot"
    case ScalingPivot => "TextureScalingPivot"
    case TextureBlendMode => "CurrentTextureBlendMode"
    case UvSet => "UVSet"
  }

  /** The human-readable description attached to a load error. */
  function Description(p: TextureProp): string {
    match p
    case Alpha => "texture alpha value"
    case WrapModeU => "wrap mode U"
    case WrapModeV => "wrap mode V"
    case UvSwap => "UV swap flag"
    case PremultiplyAlpha => "premultiply-alpha flag"
    case Translation => "translation vector"
    case Rotation => "rotation vector"
    case Scaling => "scaling vector"
    case RotationPivot => "rotation pivot vector"
    case ScalingPivot => "scaling pivot vector"
    case TextureBlendMode => "texture blend mode"
    case UvSet => "UV set name"
  }

  /** The value type the property's getter returns. */
  function Kind(p: TextureProp): ValueKind {
    match p
    case Alpha => F64Kind
    case WrapModeU | WrapModeV => WrapModeKind
    case UvSwap | PremultiplyAlpha => BoolKind
    case Translation | Rotation | Scaling | RotationPivot | ScalingPivot => F64Arr3Kind
    case TextureBlendMode => BlendModeKind
    case UvSet => StringKind
  }

  /** The value the defaulted getter returns when the property is not set. */
  function Default(p: TextureProp): (v: TextureValue)
    ensures KindOf(v) == Kind(p)
  {
    match p
    case Alpha => F64(1.0)
    case WrapModeU | WrapModeV => Wrap(Repeat)
    case UvSwap | PremultiplyAlpha => Flag(false)
    case Translation | Rotation | RotationPivot | ScalingPivot => Vector(F64Arr3(0.0, 0.0, 0.0))
    case Scaling => Vector(F64Arr3(1.0, 1.0, 1.0))
    case TextureBlendMode => Blend(Additive)
    case UvSet => Text("default")
  }

  /** The value loaders the texture getters use, one per value type; they
      are defined outside the object layer and may fail with an `E`. */
  datatype Loaders<!S, E> = Loaders(
    f64: S -> Result<real, E>,
    wrapMode: S -> Result<WrapMode, E>,
    boolean: S -> Result<bool, E>,
    f64Arr3: S -> Result<F64Arr3, E>,
    blendMode: S -> Result<BlendMode, E>,
    borrowedString: S -> Result<string, E>)

  /** `r` is what the typed loader produced: its value tagged with `tag`
      when it succeeded, its error unchanged when it failed. */
  ghost predicate LoadedBy<T, E>(r: Result<TextureValue, E>, loaded: Result<T, E>, tag: T -> TextureValue) {
    && (r.Ok? <==> loaded.Ok?)
    && (loaded.Ok? ==> r.value == tag(loaded.value))
    && (loaded.Err? ==> r.error == loaded.error)
  }

  /** Loads a stored value with the loader of the property's value type and
      tags the result with that type; a loader error is passed on as it is. */
  function Load<S, E>(loaders: Loaders<S, E>, p: TextureProp, stored: S): (r: Result<TextureValue, E>)
    ensures r.Ok? ==> KindOf(r.value) == Kind(p)
    ensures Kind(p) == F64Kind ==> LoadedBy(r, loaders.f64(stored), (x: real) => F64(x))
    ensures Kind(p) == WrapModeKind ==> LoadedBy(r, loaders.wrapMode(stored), (x: WrapMode) => Wrap(x))
    ensures Kind(p) == BoolKind ==> LoadedBy(r, loaders.boolean(stored), (x: bool) => Flag(x))
    ensures Kind(p) == F64Arr3Kind ==> LoadedBy(r, loaders.f64Arr3(stored), (x: F64Arr3) => Vector(x))
    ensures Kind(p) == BlendModeKind ==> LoadedBy(r, loaders.blendMode(stored), (x: BlendMode) => Blend(x))
    ensures Kind(p) == StringKind ==> LoadedBy(r, loaders.borrowedString(stored), (x: string) => Text(x))
  {
    match Kind(p)
    case F64Kind => loaders.f64(stored).MapValue((x: real) => F64(x))
    case WrapModeKind => loaders.wrapMode(stored).MapValue((x: WrapMode) => Wrap(x))
    case BoolKind => loaders.boolean(stored).MapValue((x: bool) => Flag(x))
    case F64Arr3Kind => loaders.f64Arr3(stored).MapValue((x: F64Arr3) => Vector(x))
    case BlendModeKind => loaders.blendMode(stored).MapValue((x: BlendMode) => Blend(x))
    case StringKind => loaders.borrowedString(stored).MapValue((x: string) => Text(x))
  }

  /** The plain getter of texture property `p`. */
  function Get<S, E>(tp: TextureProperties<S>, p: TextureProp, loaders: Loaders<S, E>)
    : (r: Result<Option<TextureValue>, PropError<E>>)
    ensures Name(p) !in tp.properties <==> r == Ok(None)
    ensures Name(p) in tp.properties ==>
      r == Load(loaders, p, tp.properties[Name(p)])
             .MapValue((v: TextureValue) => Some(v))
             .MapError((e: E) => LoadFailed(Description(p), e))
    ensures r.Ok? && r.value.Some? ==> KindOf(r.value.value) == Kind(p)
  {
    GetProperty(tp.properties, Name(p), (stored: S) => Load(loaders, p, stored), Description(p))
  }

  /** The defaulted getter of texture property `p`. */
  function GetOrDefault<S, E>(tp: TextureProperties<S>, p: TextureProp, loaders: Loaders<S, E>)
    : (r: Result<TextureValue, PropError<E>>)
    ensures Name(p) !in tp.properties ==> r == Ok(Default(p))
    ensures Name(p) in tp.properties ==>
      r == Load(loaders, p, tp.properties[Name(p)]).MapError((e: E) => LoadFailed(Description(p), e))
    ensures r.Ok? ==> KindOf(r.value) == Kind(p)
  {
    GetPropertyOrDefault(tp.properties, Name(p), (stored: S) => Load(loaders, p, stored), Description(p), Default(p))
  }

  /** Distinct texture properties are stored under distinct names, so no
      getter reads another property's entry. */
  lemma NamesDistinct(p: TextureProp, q: TextureProp)
    requires p != q
    ensures Name(p) != Name(q)
  {
  }

  /** With none of the properties set, every defaulted getter yields the
      texture's documented default. */
  lemma UnsetTextureDefaults<S, E>(tp: TextureProperties<S>, loaders: Loaders<S, E>)
    requires tp.properties == map[]
    ensures GetOrDefault(tp, Alpha, loaders) == Ok(F64(1.0))
    ensures GetOrDefault(tp, WrapModeU, loaders) == Ok(Wrap(Repeat))
    ensures GetOrDefault(tp, WrapModeV, loaders) == Ok(Wrap(Repeat))
    ensures GetOrDefault(tp, UvSwap, loaders) == Ok(Flag(false))
    ensures GetOrDefault(tp, PremultiplyAlpha, loaders) == Ok(Flag(false))
    ensures GetOrDefault(tp, Translation, loaders) == Ok(Vector(F64Arr3(0.0, 0.0, 0.0)))
    ensures GetOrDefault(tp, Rotation, loaders) == Ok(Vector(F64Arr3(0.0, 0.0, 0.0)))
    ensures GetOrDefault(tp, Scaling, loaders) == Ok(Vector(F64Arr3(1.0, 1.0, 1.0)))
    ensures GetOrDefault(tp, RotationPivot, loaders) == Ok(Vector(F64Arr3(0.0, 0.0, 0.0)))
    ensures GetOrDefault(tp, ScalingPivot, loaders) == Ok(Vector(F64Arr3(0.0, 0.0, 0.0)))
    ensures GetOrDefault(tp, TextureBlendMode, loaders) == Ok(Blend(Additive))
    ensures GetOrDefault(tp, UvSet, loaders) == Ok(Text("default"))
  {
  }
}
