# Template-function namespace registry, in Dafny

This project models the registration core of the template-function layer. Feature packages register
namespace constructors into a process-wide registry. Each constructor builds a `TemplateFuncsNamespace`:
a name, a receiver-producing `Context`, and a map of `TemplateFuncMethodMapping`s keyed by the method's
resolved name. Each mapping holds the method, its aliases and its input/expected examples.
`AddMethodMapping` checks the examples and the aliases, then stores the mapping, overwriting any earlier
one. `methodToName` derives the key from the function's runtime name. The `lang` package is modelled as
a concrete instance: it registers one constructor, which builds the "lang" namespace with one `NumFmt`
mapping.

Files:
- `wrappers.dfy`: `Option` (a Go value that may be nil) and `Result` (a value or a panic).
- `gostrings.dfy`: the Go library pieces the resolver uses. These are `filepath.Ext` with the Unix
  separator, `strings.TrimPrefix` and `strings.TrimSuffix`.
- `templatefuncs.dfy`: the registry, the namespace and mapping records, `AddMethodMapping` and `methodToName`.
- `lang.dfy`: the `lang` package's constructor and its `init`.

Modelling choices:
- A panic is a `Failure` that carries the panic message and the namespace as it stood at the panic.
  The Go code allocates the nil map before it validates anything, so a panicking call still leaves an
  allocated, unchanged map behind. The model keeps that.
- The registry is an explicit value passed through the calls, not a package-level variable.
  Registration returns the new registry.
- The runtime name of a method (`runtime.FuncForPC(...).Name()`) is an input string.
- The method value, the `Context` closure's receiver and the `*deps.Deps` handle are type parameters.
  The `lang` context closure ignores its arguments and returns `ctx`, so it is represented by `ctx` itself.
- The `lang` package's `New` and the method value `ctx.NumFmt` are parameters of the constructor.
  So is the runtime name of `ctx.NumFmt`. Go names a method value `<package>.(<receiver>).<Method>-fm`;
  `Lang.NumFmtStoredUnderItsName` assumes that shape for the runtime name.

Three properties one might expect of this core do not hold in the code. The model follows the code:
- Name resolution is not injective: `a.M` and `b.M-fm` both resolve to `M`
  (`DistinctFunctionsMayShareName`). The later mapping then silently replaces the earlier one
  (`OverwriteReplacesEntirely`). Two method values `p.<i1>-fm` and `q.<i2>-fm` resolve apart when
  `i1 != i2` and neither identifier holds '.' or '/' (`DistinctIdentifiersResolveApart`). The same
  holds for a plain function `p.<i1>` against a method value `q.<i2>-fm` when `i1` does not end in
  "-fm" (`FunctionAndMethodValueResolveApart`). Other shapes can still collide: `p.X-fm` and `q.X`
  both resolve to `X`. Go's runtime names for generic functions, such as `pkg.F[...]`, resolve to `]`.
- Nothing checks that a namespace name is non-empty, in the code or in the model.
- There is no seal/freeze phase, so registration is always possible.

## Model

| member | source | states |
|---|---|---|
| GoStrings.TrimPrefix | internal/templatefuncsRegistry.go:100 | strings.TrimPrefix; it carries no ensures of its own, and its meaning is stated by GoStrings.TrimPrefixShape and GoStrings.TrimPrefixOfConcat |
| GoStrings.TrimSuffix | internal/templatefuncsRegistry.go:101 | strings.TrimSuffix; it carries no ensures of its own, and its meaning is stated by GoStrings.TrimSuffixShape and GoStrings.TrimSuffixOfConcat |
| GoStrings.TrimPrefixShape | internal/templatefuncsRegistry.go:100 | when the string starts with the prefix, prefix + result is the string; otherwise the result is the string unchanged |
| GoStrings.TrimSuffixShape | internal/templatefuncsRegistry.go:101 | when the string ends with the suffix, result + suffix is the string; otherwise the result is the string unchanged |
| GoStrings.TrimPrefixOfConcat | internal/templatefuncsRegistry.go:100 | trimming a prefix that was put in front gives back the original string |
| GoStrings.TrimSuffixOfConcat | internal/templatefuncsRegistry.go:101 | trimming a suffix that was appended gives back the original; with two copies appended, only one is removed |
| GoStrings.Ext | internal/templatefuncsRegistry.go:99 | the extension is either empty or starts with '.', and is no longer than the path |
| GoStrings.ExtShape | internal/templatefuncsRegistry.go:99 | the extension is empty exactly when the final '/'-separated element has no '.'; otherwise it is the suffix of the path starting at that element's last '.' |
| GoStrings.ExtOfDottedSuffix | internal/templatefuncsRegistry.go:99 | the extension of p + "." + t is "." + t whenever t has no '.' and no '/', whatever p holds |
| GoStrings.ExtOfSlashSuffix | internal/templatefuncsRegistry.go:99 | a path whose final element has no '.' has an empty extension, even when an earlier element has one |
| TemplateFuncs.AddTemplateFuncsNamespace | internal/templatefuncsRegistry.go:31-33 | the registry grows by exactly one; earlier entries are unchanged and in the same order; the new constructor is last |
| TemplateFuncs.RegisterAllKeepsOrder | internal/templatefuncsRegistry.go:28-33 | a run of registrations leaves the registry equal to the old registry followed by the constructors in call order |
| TemplateFuncs.MethodToName | internal/templatefuncsRegistry.go:97-103 | the resolved name contains no '.' and no '/' |
| TemplateFuncs.MethodToNameShape | internal/templatefuncsRegistry.go:97-103 | the name is empty when the final path element has no '.'; otherwise it is the text after that element's last '.', with one trailing "-fm" removed if there is one |
| TemplateFuncs.ResolvesDeclaredName | internal/templatefuncsRegistry.go:97-103 | any qualified name ending in "." + ident + "-fm" resolves to ident, whatever the package and receiver (so "pkg.T.M-fm" gives "M"); so does one ending in "." + ident, when ident does not itself end in "-fm" |
| TemplateFuncs.OnlyOneMarkStripped | internal/templatefuncsRegistry.go:101 | a name ending in "." + ident + "-fm-fm" resolves to ident + "-fm" (so "pkg.M-fm-fm" gives "M-fm"): only one "-fm" is stripped |
| TemplateFuncs.NoDotInFinalElement | internal/templatefuncsRegistry.go:99-102 | dir + "/" + base resolves to the empty name when base has no '.', even when dir has one (so "a.b/c" gives "") |
| TemplateFuncs.DistinctIdentifiersResolveApart | internal/templatefuncsRegistry.go:97-103 | method values with different final identifiers (no '.' or '/') resolve to different names, whatever their qualifiers |
| TemplateFuncs.FunctionAndMethodValueResolveApart | internal/templatefuncsRegistry.go:97-103 | a plain function p.i1 and a method value q.i2-fm resolve to different names when i1 != i2, neither holds '.' or '/', and i1 does not end in "-fm" |
| TemplateFuncs.DistinctFunctionsMayShareName | internal/templatefuncsRegistry.go:97-103 | p + "." + ident and q + "." + ident + "-fm" resolve to the same key for any packages p and q, so resolution is not injective |
| TemplateFuncs.AddMethodMapping | internal/templatefuncsRegistry.go:51-76 | succeeds exactly when every example input and every alias is non-empty; an empty expected output is accepted. An empty example input fails with "Empty example", even when an alias is also empty; otherwise an empty alias fails with "Empty alias". A failure leaves the map allocated with its entries unchanged. On success the map exists, the key set gains the resolved name, that key holds exactly the given method, aliases and examples, and every other key is unchanged |
| TemplateFuncs.AddPreservesWellFormed | internal/templatefuncsRegistry.go:58-74 | when every stored mapping has non-empty aliases and example inputs, that still holds after a successful call |
| TemplateFuncs.OverwriteReplacesEntirely | internal/templatefuncsRegistry.go:70-74 | a second successful mapping under the same resolved name gives the same namespace as if the first had never been added |
| TemplateFuncs.AddIdempotent | internal/templatefuncsRegistry.go:70-74 | adding the same mapping twice gives the same namespace as adding it once |
| TemplateFuncs.DistinctNamesCommute | internal/templatefuncsRegistry.go:70-74 | two successful additions under different resolved names give the same namespace in either order |
| Lang.NewNamespace | lang/init.go:24-42 | building the "lang" namespace cannot panic. The result is named "lang" and keeps the receiver. Its map holds exactly one entry, under the resolved name of NumFmt, with aliases ["numFmt"] and the five listed examples in order. It is well-formed |
| Lang.Constructor | lang/init.go:24-44 | for every dependency handle d, the constructor succeeds with a namespace named "lang" whose receiver is New(d) and whose map holds only the NumFmt mapping of that receiver, with the listed aliases and examples |
| Lang.Init | lang/init.go:23-47 | package init appends exactly one constructor and leaves earlier entries unchanged. For every dependency handle d, the appended constructor builds exactly the namespace NewNamespace gives around New(d) and its NumFmt method value. So it succeeds, is named "lang", and holds the single NumFmt mapping |
| Lang.NewNamespaceKeys | lang/init.go:32-41 | the "lang" namespace has exactly one key: the resolved name of the NumFmt method value |
| Lang.NumFmtResolves | lang/init.go:32 | Go's runtime name "<qualifier>.NumFmt-fm" for the method value ctx.NumFmt resolves to "NumFmt" |
| Lang.NumFmtStoredUnderItsName | lang/init.go:32-41 | when the method value has Go's runtime name "<qualifier>.NumFmt-fm", the namespace's only key is "NumFmt" |

## Left out

- The reflection step of `methodToName` (`reflect.ValueOf(m).Pointer()` and `runtime.FuncForPC`): this is runtime introspection. The qualified name is an input string.
- GoStrings.TrimPrefix and GoStrings.TrimSuffix: these functions carry no ensures of their own. A contract on them would be assumed at every resolved name, and that makes the namespace proofs much more expensive. Their full meaning is proved in TrimPrefixShape and TrimSuffixShape instead.
- Go runtime names are byte strings, but the model uses Dafny strings, which are sequences of characters. The results agree: '.', '/' and "-fm" are ASCII, and UTF-8 never uses those bytes inside a multi-byte character.
- The panic from `reflect.ValueOf(m).Pointer()` when `m`'s kind has no pointer, e.g. nil, an int or a struct (it would happen after the map is allocated). Such an `m` is assumed not to occur. A pointer-like `m` that is not a function yields the runtime name "", which the model covers because the name is any string.
- Go mutates the `*TemplateFuncsNamespace` receiver in place and stores the caller's `aliases` and `examples` slices by reference; the model treats the namespace and both slices as values. A nil receiver, which panics at internal/templatefuncsRegistry.go:52, cannot be expressed.
- `filepath.Ext` on Windows: there the separator is `\`. Only the Unix separator '/' is modelled.
- The `TemplateFuncsNamespaces` slice type: it is declared but has no behaviour in the core.
- `deps.Deps`, `New(d)`, the `Context` closure and the method value: these are opaque foreign values, modelled as type parameters.
- The `NumFmt` formatting itself: it is floating-point code outside the core. The example strings are stored data and are never evaluated.
- The Go `init` ordering and the package-level registry variable: the registry is an explicit value passed through the calls.
- Merging aliases across namespaces (last one wins): this is only described in a comment at internal/templatefuncsRegistry.go:86-87 and is not implemented in this code.
- A seal phase and aggregating failures: neither is implemented in the code.
- Recovering from a panic: the Go runtime's unwinding is not modelled. The failure result records the message and the namespace state at the panic.
