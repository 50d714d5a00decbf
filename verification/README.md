# Typed object layer of fbxcel-dom (FBX 7.4 DOM), modelled in Dafny

This project models the typed object layer of fbxcel-dom's FBX 7.4 DOM. That layer sits on top of a
parsed scene graph. The graph's objects carry a class, a subclass, a property table and connection
edges. The layer does four things:

* **Typed-handle classification** (`define_typed_handle!`). An object handle becomes one variant of a
  closed union by matching `(class, subclass)` against an ordered list of arms. The first matching arm
  wins. When nothing matches the result is `Unknown(obj)`, so classification never fails. Every variant
  dereferences back to the original object. The subtype wrapper (`define_object_subtype!`) wraps a
  handle and dereferences back to it.
* **Property getters with defaults** (`impl_prop_proxy_getters!` and the texture's copy of it). The
  plain getter has three outcomes: `Ok(None)` when the property is absent, `Ok(Some(v))` when the
  loader succeeds, and an error carrying the property's description when the loader fails. The
  defaulted getter replaces only the absent case with the default. The texture defines twelve such
  properties, each with a name, a description and a default.
* **Video clip lookup** (`TextureHandle::video_clip`). The lookup walks the texture's source
  connections in order. It keeps unlabeled edges, skips edges whose far end does not resolve to an
  object, keeps objects typed `Video(Clip(..))`, and returns the first one.
* **Deformer downcast** (`DeformerHandle::from_object`). The downcast succeeds exactly when the class
  is `"Deformer"`; the subclass is never checked. On success the handle wraps the object unchanged.
  On failure the error carries the actual class.

Files:

* `wrappers.dfy` — module `Wrappers`: `Option` and `Result`.
* `sequences.dfy` — module `Sequences`: the first-match search that both the classifier and the video clip lookup use.
* `objects.dfy` — module `Objects`: the object record and connection edges.
* `macros.dfy` — module `Macros`: the subtype wrapper, the classifier, and the generic getter pair.
* `texture.dfy` — module `Texture`: the video clip lookup and the texture property table.
* `deformer.dfy` — module `Deformer`: the downcast and its forwarding accessors.

Modelling choices:

* An object is `Object(id, nodeId, className, subclass)`.
* A connection edge is `Edge(edgeLabel: Option<string>, target: Option<Object>)`. A `None` target
  stands for a far end that does not resolve to an object handle.
* A pattern in an arm is a string literal or the wildcard `_`.
* The source's `define_typed_handle!` nests one typed handle inside another: the `Video` variant of
  the object handle holds a video handle built from the same object. The model represents this as a
  second `Classify` of the same object against the video arms (`Texture.AsVideoClip`).
* The two arm tables that video clip lookup depends on are declared outside the modelled files,
  so the tables are parameters (`Texture.Categories`).
* A loader is a function `S -> Result<T, E>` over an opaque stored value `S`.
* `f64` values are opaque `real`s; the model does no arithmetic on them.
* The source's 24 texture getters (a plain and a defaulted getter for each of twelve properties) are
  represented by one table, `TextureProp` with `Name`/`Description`/`Kind`/`Default`. That table
  feeds one plain getter (`Texture.Get`) and one defaulted getter (`Texture.GetOrDefault`). The
  getters return a `TextureValue` union, and their contracts state that a success always has the
  property's value type.
* The deformer downcast error is `ClassMismatch(expected, actual)`. The source's message says
  "not a model object", which is a copy-paste slip, so the model keeps only the two class strings.

## Model

| member | source | states |
|---|---|---|
| Macros.NewSubtype | src/v7400/object/macros.rs:17-27 | dereferencing a freshly created subtype handle (`DerefSubtype`, the generated `Deref`) gives back exactly the wrapped handle |
| Sequences.FirstIndex | src/v7400/object/macros.rs:61-65 | the selected position is the earliest one whose element satisfies the test, as a `match` tries its arms top to bottom; nothing is selected exactly when no element does |
| Macros.Classify | src/v7400/object/macros.rs:60-82 | classification always produces a variant; `Deref` of it gives back the input object, for known variants and for `Unknown`; the result is `Unknown(obj)` with `obj` unchanged exactly when no arm matches; a known variant is the variant of the first matching arm |
| Macros.ClassifyEarliestArmWins | src/v7400/object/macros.rs:61-64 | when several arms match, the earliest declared one determines the variant, whatever later arms would also match |
| Macros.ClassifyDependsOnlyOnClasses | src/v7400/object/macros.rs:61 | objects that agree on class and subclass get the same variant, whatever their other fields |
| Macros.GetProperty | src/v7400/object/macros.rs:101-108 | an absent property gives `Ok(None)`, and only an absent one does; a present property gives `Ok(Some(v))` when the loader yields `v`, and the loader's error with the property's description attached when it fails |
| Macros.GetPropertyOrDefault | src/v7400/object/macros.rs:111-113 | an absent property gives the default; a present one gives the loaded value, or the load error with its description, never the default in its place |
| Macros.OrDefaultFollowsPlainGetter | src/v7400/object/macros.rs:101-113 | the defaulted getter turns the plain getter's `Ok(None)` into the default and `Ok(Some(v))` into `v`, and passes an error on unchanged |
| Macros.DefaultOnlyWhenAbsent | src/v7400/object/macros.rs:111-113 | for a present property the defaulted getter succeeds exactly when the loader does and then returns the loaded value, even when that value equals the default |
| Texture.AsVideoClip | src/v7400/object/texture.rs:27-30 | an object yields a clip handle exactly when it is typed `Video` at the top level and `Clip` within videos; the clip handle wraps that same object |
| Texture.PipelineFindsFirstQualifying | src/v7400/object/texture.rs:24-31 | the filter chain (unlabeled, resolvable, video clip, first) returns the clip of the earliest qualifying edge, and nothing when none qualifies |
| Texture.FindVideoClip | src/v7400/object/texture.rs:23-31 | the result is none exactly when no edge is unlabeled, resolvable and typed as a video clip, the empty edge list included; otherwise it is the clip of the earliest such edge, wrapping that edge's target |
| Texture.VideoClip | src/v7400/object/texture.rs:22-32 | a texture's video clip is none exactly when none of its source connections is unlabeled, resolvable and typed as a video clip; otherwise it is the clip of the earliest such connection, wrapping that connection's target |
| Texture.FindVideoClipConcat | src/v7400/object/texture.rs:24-31 | over a concatenation of edge lists the earlier list decides whenever it yields a clip; the later list matters only when the earlier one yields none |
| Texture.SkipsNonQualifyingEdge | src/v7400/object/texture.rs:25-26 | a leading edge that is labeled, unresolvable or not a video clip is skipped, not treated as an error: the result is that of the remaining edges |
| Texture.FindVideoClipIgnoresLabeledEdges | src/v7400/object/texture.rs:25 | removing every labeled edge leaves the result unchanged, so no clip is ever reached through a labeled edge |
| Texture.GettersReadFileTextureScope | src/v7400/object/texture.rs:35-39 | a texture's getters read the object's properties scoped to native type name `FbxFileTexture`: a property is absent exactly when that scoped table lacks its name, and then the defaulted getter yields the property's default |
| Texture.Default | src/v7400/object/texture.rs:82-246 | each texture property's default has the value type of that property's getter |
| Texture.Load | src/v7400/object/texture.rs:82-246 | each property is loaded by the loader of its own value type: the load succeeds exactly when that loader does, with the loader's value tagged with the property's type, and fails with the loader's own error otherwise |
| Texture.Get | src/v7400/object/texture.rs:64-70 | a texture getter gives `Ok(None)` exactly when its named property is absent; otherwise it gives the loaded value or the loader error with that property's description; a value it returns has the property's type |
| Texture.GetOrDefault | src/v7400/object/texture.rs:74-76 | a defaulted texture getter gives the property's default when the property is absent; otherwise it gives the loaded value or the load error with the property's description |
| Texture.NamesDistinct | src/v7400/object/texture.rs:82-246 | the twelve texture properties are stored under twelve distinct names |
| Texture.UnsetTextureDefaults | src/v7400/object/texture.rs:82-246 | with nothing set, the defaults are: alpha 1.0; wrap modes U and V `Repeat`; UV swap and premultiply-alpha false; translation, rotation and both pivots `[0; 3]`; scaling `[1; 3]`; blend mode `Additive`; UV set `"default"` |
| Deformer.FromObject | src/v7400/object/deformer.rs:33-48 | the downcast succeeds if and only if the class is `"Deformer"`, and then `as_object` and `as_ref` of the handle give back the input unchanged; otherwise the error reports the expected class and the object's actual class |
| Deformer.DowncastKeepsIdentity | src/v7400/object/deformer.rs:25-60 | a successful downcast's `object_id` is the object's id and its `node_id` wraps exactly the object's node id; `as_object` and `as_ref` both give the object back; downcasting that object again gives the same handle |
| Deformer.DowncastIgnoresSubclass | src/v7400/object/deformer.rs:34-35 | whether the downcast succeeds depends on the class alone; any subclass is accepted when the class is `"Deformer"` |

## Left out

- Concrete loaders (`PrimitiveLoader`, `F64Arr3Loader`, `WrapModeLoader`, `BlendModeLoader`, `BorrowedStringLoader`): their code is not part of this model. They are parameters of type `S -> Result<T, E>`, so the requirement that a 3-vector stored with the wrong number of elements fails to load is not modelled.
- `WrapMode` and `BlendMode` are declared in `data/texture.rs`, which is not part of this model. Only `Repeat` and `Additive` are used by the modelled code. The other constructors follow the FBX SDK's wrap and blend mode enumerations and stand in for the remaining values.
- `properties_by_native_typename` and the `ObjectProperties` storage are outside the object layer. The scoped table they produce is given as a function `(Object, string) -> map<string, S>`.
- Document and graph storage are not modelled: node and edge indices, `source_objects()` and `object_handle()` resolution. A texture's source connections are given as a `seq<Edge>` in document order by a function `sourcesOf`, and a target that does not resolve is `None`.
- Error-message formatting (the `failure` context text and `format_err!`/`error!` wording) is not modelled. Errors are datatypes carrying the property's description or the two class strings.
- The `__Nonexhaustive` variant and its panic arm in `deref`: no `Typed` value stands for it, so classification trivially never produces it.
- The arm tables of the top-level object handle and of the video handle are declared outside the modelled files. They are parameters of the classifier and of the video clip lookup.
- The deformer subclass dispatch (the `skin` submodule) is not part of this model. `DeformerSubclass` is the bare tag `Skin`.
- The `ObjectSubtypeHandle` trait and the `Deref`/`AsRef`/`Copy`/`Clone` plumbing become plain functions, and lifetimes are dropped. The `Deref` of `TextureProperties` to its `ObjectProperties` is the field `properties`.
- Determinism and thread safety need no statement: every operation is a pure function of its arguments.
