# Variant builder

A model of the variant builder of a fluent syntax-tree construction library
(`src/variant.rs`). A `VariantBuilder` is a single-use accumulator for one enum
variant: an identifier fixed at construction, a span that starts as the dummy
span and is overwritten by `span(s)`, and an ordered list of attributes. It
holds a continuation (its callback); every terminal call assembles or receives a
variant and returns whatever the continuation returns. The builder is itself the
continuation of two kinds of child: an attribute (appended, the builder handed
back) and a variant payload (the variant is finished with it).

Layout:

- `codemap.dfy` (module `Codemap`): spans, `DUMMY_SP`, span-tagged values and `Respan`.
- `ast.dfy` (module `Ast`): identifiers, attributes, variant payloads, the
  unspanned variant node (`ast::Variant_`) and the spanned variant.
- `invoke.dfy` (module `Invoke`): continuations as total functions `T -> R`, and
  the identity continuation.
- `variant.dfy` (module `Variant`): the `VariantBuilder` class and a value-level
  model of its chained calls.

The two calls that change the builder in place, `span` and the attribute
`invoke`, are methods with `modifies this`; each states the new fields and that
the new `State()` is `Step(old(State()), c)` for the corresponding configuration
call `c`. The method `Apply` drives a real builder through a sequence of such
calls and proves that it ends in the state `Replay` (the fold of `Step`) gives;
the lemmas about `Replay` state what any chain of calls leaves behind, and
`BuildStandalone` combines the two for a builder made by `New`. The terminal
calls only build a value and call the continuation, so they
are functions that read the builder.

The code stores the span with a plain assignment, so repeated `span` calls are
last-write-wins with no limit on how often the span may be set; the model
follows the code.

## Model

| member | source | states |
|---|---|---|
| `Invoke.Identity` | src/variant.rs:28 | the identity continuation returns every value it is given unchanged |
| `Ast.ToIdent` | src/variant.rs:42 | the identifier made from a name carries that name |
| `Variant.Initial` | src/variant.rs:38-43 | a new builder has identifier `ToIdent(name)`, the dummy span and no attributes |
| `Variant.VariantBuilder.NewWithCallback` | src/variant.rs:35-44 | the constructed builder stores the given continuation unchanged and is in the initial state for `name` |
| `Variant.New` | src/variant.rs:25-29 | a standalone builder is fresh, has the identity continuation and is in the initial state for `name` |
| `Variant.VariantBuilder.Span` | src/variant.rs:46-49 | the span becomes `s`, the attributes are unchanged, and the same builder is returned for chaining |
| `Variant.VariantBuilder.Attr` | src/variant.rs:51-54 | the attribute sub-builder's continuation is this very builder, untouched, and it is seeded with the builder's current span |
| `Variant.VariantBuilder.Unit` | src/variant.rs:56-58 | finishing with a unit payload gives the same result as finishing with the unit variant data directly |
| `Variant.VariantBuilder.Tuple` | src/variant.rs:60-62 | the tuple payload sub-builder's continuation is this builder |
| `Variant.VariantBuilder.Struct` | src/variant.rs:64-66 | the struct payload sub-builder's continuation is this builder |
| `Variant.Assemble` | src/variant.rs:69-76 | the assembled variant has the builder's identifier as name, its attributes in order, the given payload, no discriminant, and the builder's span |
| `Variant.VariantBuilder.BuildVariantData` | src/variant.rs:68-78 | the result is the continuation applied to the variant assembled from the builder's current state and the payload |
| `Variant.VariantBuilder.BuildVariantNode` | src/variant.rs:80-83 | a ready-made node is tagged with the builder's current span and forwarded; given the node the builder would assemble itself, the result equals finishing with its payload |
| `Variant.VariantBuilder.Build` | src/variant.rs:85-87 | the given variant reaches the continuation verbatim: the result is `callback(v)`, so neither the span, the attributes nor the identifier can influence it |
| `Variant.VariantBuilder.InvokeAttribute` | src/variant.rs:90-98 | the attribute is appended at the end of the list, the span is unchanged, and the same builder is returned |
| `Variant.VariantBuilder.InvokeVariantData` | src/variant.rs:101-109 | invoking the builder with a payload gives exactly what `BuildVariantData` gives with it, so a nested payload builder is transparent |
| `Variant.ReplaySpan` | src/variant.rs:46-49 | after any chain of calls the identifier is unchanged and the span is the one of the last `span` call, or the starting span if there was none |
| `Variant.LastSpanNone` | src/variant.rs:40 | with no `span` call the span stays the default, so a fresh builder keeps the dummy span |
| `Variant.LastSpanLast` | src/variant.rs:46-49 | if call `k` sets the span and no later call does, the final span is the one given at `k` (last write wins) |
| `Variant.ReplayAttrs` | src/variant.rs:95-98 | after any chain of calls the attributes are the earlier ones followed by the chain's attributes in call order, whatever span calls are interleaved |
| `Variant.AttrsOfAttrCalls` | src/variant.rs:95-98 | n attribute invocations yield exactly the n attributes in invocation order, duplicates kept |
| `Variant.StandaloneBuild` | src/variant.rs:25-78 | in the value-level model, the state reached from `Initial(name)` by any chain of calls, assembled around a payload and passed to the identity continuation, is the variant built directly from the name, the chain's attributes in order, the payload, no discriminant and the last span set (dummy span if none) |
| `Variant.Apply` | src/variant.rs:46-49 | driving a real builder through a chain of `span` calls and attribute invocations leaves it in the state `Replay` gives for that chain |
| `Variant.BuildStandalone` | src/variant.rs:25-78 | a real builder made by `New(name)`, driven through any chain of calls and finished with `BuildVariantData(data)` returns the variant built directly from the name, the chain's attributes in order, the payload, no discriminant and the last span set (dummy span if none) |
| `Codemap.Respan` | src/variant.rs:76 | tags a value with the given span, leaving the value unchanged |
| `Variant.IdentityBuildVariantData` | src/variant.rs:68-78 | with the identity continuation, finishing returns exactly the assembled variant |

## Left out

- `P<...>` boxing and the `and_then` unboxing of the payload (src/variant.rs:72, 76): memory representation only; values are used directly.
- Identifier interning and hygiene contexts: an identifier is modelled as its text.
- Span internals (expansion information): a span is a pair of byte positions, and `DUMMY_SP` is the pair (0, 0).
- The contents of attributes, struct fields and expressions: kept as text, since their builders and schema are not part of this model.
- `Variant.VariantBuilder.Unit`: the payload that the unit payload builder produces is taken to be the unit variant data (without its node id); `src/variant_data.rs` is not part of this model.
- `Variant.VariantBuilder.Tuple`, `Variant.VariantBuilder.Struct`, `Variant.VariantBuilder.Attr`: the sub-builders they return (`AttrBuilder`, `VariantDataTupleBuilder`, `VariantDataStructBuilder`, `StructFieldBuilder`) are modelled only by their continuation and seed; their own calls are not part of this model, and their results reach the builder through `InvokeAttribute` and `InvokeVariantData`.
- Rust move semantics: the builder is a shared reference here, and single use of a consumed builder is not enforced.
- The path builder exercised by `tests/test_path.rs`: its implementation is not part of this model.
