/**
 * The `lang` package's contribution to the registry: a namespace named "lang"
 * whose receiver is the package's context value, with one mapping for its
 * `NumFmt` method, registered once when the package initialises.
 */
module Lang {
  import opened Wrappers
  import opened GoStrings
  import opened TemplateFuncs

  const Name := "lang"

  const NumFmtAliases: seq<string> := ["numFmt"]

  const NumFmtExamples: seq<Example> := [
    Example("{{ numFmt 2 12345.6789 }}", "12,345.68"),
    Example("{{ numFmt 2 12345.6789 \"- , .\" }}", "12.345,68"),
    Example("{{ numFmt 6 -12345.6789 \"- .\" }}", "-12345.678900"),
    Example("{{ numFmt 0 -12345.6789 \"- . ,\" }}", "-12,346"),
    Example("{{ -98765.4321 | numFmt 2 }}", "-98,765.43")
  ]

  /**
   * The body of the constructor `f`: a fresh namespace named "lang" around the
   * receiver `ctx`, with `ctx.NumFmt` (runtime name `numFmtFuncName`) added.
   * The call cannot panic, and the namespace holds exactly one mapping.
   */
  function NewNamespace<C, M>(ctx: C, numFmt: M, numFmtFuncName: string): (r: Result<Namespace<C, M>, Panic<C, M>>)
    ensures r.Success?
    ensures r.value.name == "lang" && r.value.context == ctx
    ensures WellFormed(r.value)
    ensures r.value.methodMappings == Some(map[MethodToName(numFmtFuncName) := MethodMapping(numFmt, NumFmtAliases, NumFmtExamples)])
  {
    AddMethodMapping(Namespace(Name, ctx, None), numFmt, numFmtFuncName, NumFmtAliases, NumFmtExamples)
  }

  /**
   * The constructor `f`: builds the receiver from the dependencies with `newCtx`
   * (the package's `New`) and the namespace around it. For every dependency
   * handle it succeeds with the "lang" namespace around `New(d)`, holding only
   * the NumFmt mapping of that receiver.
   */
  function Constructor<D(!new), C, M>(newCtx: D -> C, numFmtOf: C -> M, numFmtFuncName: string): (f: Constructor<D, C, M>)
    ensures forall d :: f(d).Success? && f(d).value.name == "lang" && f(d).value.context == newCtx(d)
    ensures forall d :: f(d).Success? ==>
              f(d).value.methodMappings == Some(map[MethodToName(numFmtFuncName) := MethodMapping(numFmtOf(newCtx(d)), NumFmtAliases, NumFmtExamples)])
  {
    d => NewNamespace(newCtx(d), numFmtOf(newCtx(d)), numFmtFuncName)
  }

  /** The package's `init`: registers the constructor, once, at the end of the registry. */
  function Init<D(!new), C, M>(registry: Registry<D, C, M>, newCtx: D -> C, numFmtOf: C -> M, numFmtFuncName: string)
    : (r: Registry<D, C, M>)
    ensures |r| == |registry| + 1
    ensures r[..|registry|] == registry
    ensures forall d :: r[|registry|](d).Success? && r[|registry|](d).value.name == "lang"
    ensures forall d :: r[|registry|](d) == NewNamespace(newCtx(d), numFmtOf(newCtx(d)), numFmtFuncName)
  {
    AddTemplateFuncsNamespace(registry, Constructor(newCtx, numFmtOf, numFmtFuncName))
  }

  /**
   * With Go's naming of a method value, `<package>.(<receiver>).NumFmt-fm`, the
   * mapping is stored under "NumFmt" and nowhere else.
   */
  lemma NumFmtStoredUnderItsName<C, M>(ctx: C, numFmt: M, qualifier: string)
    ensures MappingsOf(NewNamespace(ctx, numFmt, qualifier + ".NumFmt-fm").value).Keys == {"NumFmt"}
  {
    NumFmtResolves(qualifier);
    NewNamespaceKeys(ctx, numFmt, qualifier + ".NumFmt-fm");
  }

  /** Go's runtime name for the method value `ctx.NumFmt` resolves to "NumFmt". */
  lemma NumFmtResolves(qualifier: string)
    ensures MethodToName(qualifier + ".NumFmt-fm") == "NumFmt"
  {
    assert qualifier + ".NumFmt-fm" == qualifier + "." + "NumFmt" + "-fm";
    ResolvesDeclaredName(qualifier, "NumFmt");
  }

  /** The namespace's only key is the resolved name of the NumFmt method value. */
  lemma NewNamespaceKeys<C, M>(ctx: C, numFmt: M, numFmtFuncName: string)
    ensures MappingsOf(NewNamespace(ctx, numFmt, numFmtFuncName).value).Keys == {MethodToName(numFmtFuncName)}
  {
  }
}
