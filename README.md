# Geometry identifiers and world-geometry taxonomy

This project models `src/engine/geometry.rs` of a real-time engine:

- `GeometryId` is a `u64` newtype. It has a derived default (the identifier wrapping 0) and derived structural equality.
- Its one operation is the identifier pool's successor `next`, which returns the wrapped integer plus one.
- `Geometry` is a sum type whose variants are a `StaticMap` and the data-less placeholder `Todo`. Its default is `Todo`.
- `Sector` is a record holding an ordered list of surface identifiers.
- `StaticMap` is a record holding an optional collision mesh, an ordered list of sectors and one render node. Its derived default has no mesh, no sectors and the render node's own default.

The model is pure. Identifiers and geometry are datatypes (`geometry_id.dfy`, `geometry.dfy`). `u64` is a `newtype` over the range 0 to 2^64 - 1. `next` is a function defined only below `u64::MAX`.

Rust's `+` behaves in one of two ways at the overflow boundary, depending on the build. Each is modelled as its own function:

- `NextDebug` panics.
- `NextRelease` wraps around to the default identifier.

Both are proved to agree with `Next` everywhere below the boundary. Repeated applications of `next` are modelled as `Iterate` and as the sequence `Chain`. The lemmas state that chains grow strictly, never repeat an identifier, and split at any point.

`SurfaceId`, `CollisionMeshId` and `NodeId` are opaque types, because they are defined by other subsystems. The default `NodeId` is not known here, so `DefaultStaticMap` takes it as a parameter.

## Model

| member | source | states |
|---|---|---|
| GeometryIds.Default | src/engine/geometry.rs:7-8 | the derived default identifier wraps the integer 0 |
| GeometryIds.EqualIffSameValue | src/engine/geometry.rs:7-8 | derived equality: two identifiers are equal exactly when their integers are equal |
| GeometryIds.Next | src/engine/geometry.rs:11-13 | defined only below `u64::MAX`; the successor's integer is the input's plus one, so it is strictly greater than the input and never equal to it |
| GeometryIds.NextInjective | src/engine/geometry.rs:11-13 | distinct identifiers have distinct successors, and the converse |
| GeometryIds.NextMonotone | src/engine/geometry.rs:11-13 | `next` preserves and reflects the order of identifiers |
| GeometryIds.NextDebug | src/engine/geometry.rs:12 | in a debug build, `self.0 + 1` panics exactly at `u64::MAX`; everywhere else it returns `Next` |
| GeometryIds.NextRelease | src/engine/geometry.rs:12 | in a release build, `self.0 + 1` agrees with `Next` below `u64::MAX`; at `u64::MAX` it wraps to the default identifier, which is below its input |
| GeometryIds.Iterate | src/engine/geometry.rs:11-13 | applying `next` k times adds exactly k to the identifier's integer, given no step overflows |
| GeometryIds.IterateFromDefault | src/engine/geometry.rs:7-13 | applying `next` k times to the default identifier gives `GeometryId(k)` |
| GeometryIds.Chain | src/engine/geometry.rs:11-13 | a chain of n successive `next` results from `id` has length n, and its i-th element has integer `id + i` |
| GeometryIds.ChainAt | src/engine/geometry.rs:11-13 | the i-th element of a chain is `next` applied i times to its start |
| GeometryIds.ChainStrictlyIncreasing | src/engine/geometry.rs:11-13 | the identifiers of a chain strictly increase in order |
| GeometryIds.ChainDistinct | src/engine/geometry.rs:11-13 | the identifiers of a chain are pairwise distinct |
| GeometryIds.ChainFromDefault | src/engine/geometry.rs:7-13 | the chain from the default identifier is `GeometryId(0), GeometryId(1), ..., GeometryId(n - 1)` |
| GeometryIds.ChainSplit | src/engine/geometry.rs:11-13 | a chain of m + n identifiers is the chain of m followed by the chain of n that starts where the first one stopped |
| GeometryIds.ChainThenFresh | src/engine/geometry.rs:11-13 | the identifier reached after a chain is greater than every member of the chain, so it is not among them |
| Geometry.DefaultGeometry | src/engine/geometry.rs:24-28 | the default geometry is the data-less `Todo` variant and equals no static map |
| Geometry.DefaultStaticMap | src/engine/geometry.rs:36-41 | the derived default static map has no collision mesh, an empty sector sequence, and the render node's default value |
| Geometry.StaticMapFields | src/engine/geometry.rs:19-22 | building a static map, or the geometry that wraps it, and then reading the fields gives back exactly the supplied mesh, sectors and node |
| Geometry.SectorOrderMatters | src/engine/geometry.rs:32-34 | a sector keeps its surfaces as an ordered list that may repeat a surface, and swapping two distinct surfaces gives a different sector |
| Geometry.StaticMapEquality | src/engine/geometry.rs:37-41 | two static maps are equal exactly when their meshes, their sector sequences (in order) and their render nodes are equal |

## Left out

- The identifier pool itself (`crate::collections::PoolId` and its allocator) is not part of this model. So no start value or storage is assumed. Only `next` and chains of it are modelled.
- The internals of `SurfaceId`, `CollisionMeshId` and `NodeId`, including `NodeId`'s default, are defined in files that are not part of this model. They are opaque types here.
- The derived `Debug` and `Hash` implementations are left out. They format and hash values and carry no behavioural contract.
- No geometry registry, dangling-reference check or synchronisation appears in `geometry.rs`, so none is modelled.
- `shader_src/compile_shaders.py` is left out. It is build tooling that runs an external shader compiler and compares file timestamps; it is entirely file-system and process I/O.
