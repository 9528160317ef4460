/**
 * The template-function registration core: the process-wide registry of
 * namespace constructors, the namespace record with its method mappings, the
 * `AddMethodMapping` builder and the `methodToName` resolver.
 *
 * Go's panics become `Failure` results; a nil map becomes `None`; the opaque
 * method value, the receiver-producing `Context` closure and the dependency
 * handle become type parameters `M`, `C` and `D`.
 */
module TemplateFuncs {
  import opened Wrappers
  import opened GoStrings

  /** One documentation example: a template input and the output it should render. */
  datatype Example = Example(input: string, expected: string)

  /** The metadata stored for one template function. */
  datatype MethodMapping<M> = MethodMapping(callable: M, aliases: seq<string>, examples: seq<Example>)

  type Mappings<M> = map<string, MethodMapping<M>>

  /**
   * A template function namespace. `context` stands for the receiver the Go
   * `Context` closure hands back; `methodMappings` is `None` while the Go map is nil.
   */
  datatype Namespace<C, M> = Namespace(name: string, context: C, methodMappings: Option<Mappings<M>>)

  /**
   * A panic raised while building a namespace: its message, and the namespace
   * as it stood when the panic left `AddMethodMapping`.
   */
  datatype Panic<C, M> = Panic(message: string, state: Namespace<C, M>)

  /** A namespace constructor, as registered: given the dependencies, build a namespace or panic. */
  type Constructor<!D, C, M> = D -> Result<Namespace<C, M>, Panic<C, M>>

  /** The ordered list of registered namespace constructors. */
  type Registry<!D, C, M> = seq<Constructor<D, C, M>>

  // ---------------------------------------------------------------------------
  // Registry

  /** `AddTemplateFuncsNamespace`: appends one constructor to the registry. */
  function AddTemplateFuncsNamespace<D, C, M>(registry: Registry<D, C, M>, ctor: Constructor<D, C, M>): (r: Registry<D, C, M>)
    ensures |r| == |registry| + 1
    ensures r[..|registry|] == registry
    ensures r[|registry|] == ctor
  {
    registry + [ctor]
  }

  /** A run of registrations, one `AddTemplateFuncsNamespace` call per constructor, in order. */
  function RegisterAll<D, C, M>(registry: Registry<D, C, M>, ctors: seq<Constructor<D, C, M>>): Registry<D, C, M>
    decreases |ctors|
  {
    if |ctors| == 0 then registry
    else RegisterAll(AddTemplateFuncsNamespace(registry, ctors[0]), ctors[1..])
  }

  /** The registry lists constructors in the order they were registered; none is dropped or reordered. */
  lemma {:induction false} RegisterAllKeepsOrder<D, C, M>(registry: Registry<D, C, M>, ctors: seq<Constructor<D, C, M>>)
    ensures RegisterAll(registry, ctors) == registry + ctors
    decreases |ctors|
  {
    if |ctors| > 0 {
      RegisterAllKeepsOrder(registry + [ctors[0]], ctors[1..]);
      assert registry + [ctors[0]] + ctors[1..] == registry + ctors;
    }
  }

  // ---------------------------------------------------------------------------
  // Name resolution

  /**
   * The string part of `methodToName`: given the runtime's fully qualified name
   * of a function, keep what follows the last '.' of its final '/'-separated
   * element and strip one trailing "-fm" (Go's mark on method values).
   */
  function MethodToName(funcName: string): (name: string)
    ensures '.' !in name && '/' !in name
  {
    ExtShape(funcName);
    var ext := Ext(funcName);
    assert ext != "" ==> TrimPrefix(ext, ".") == ext[1..];
    TrimSuffix(TrimPrefix(ext, "."), "-fm")
  }

  /**
   * What the resolved name is: empty when the final path element has no '.';
   * otherwise the text after that element's last '.', less one trailing "-fm"
   * if it has one.
   */
  lemma MethodToNameShape(funcName: string)
    ensures NoExt(funcName) ==> MethodToName(funcName) == ""
    ensures forall i :: IsExtStart(funcName, i) ==>
              || MethodToName(funcName) + "-fm" == funcName[i + 1..]
              || (MethodToName(funcName) == funcName[i + 1..] && !HasSuffix(funcName[i + 1..], "-fm"))
  {
    ExtShape(funcName);
    var ext := Ext(funcName);
    var trimmed := TrimPrefix(ext, ".");
    assert ext != "" ==> trimmed == ext[1..];
    forall i | IsExtStart(funcName, i)
      ensures trimmed == funcName[i + 1..]
    {
      ExtStartUnique(funcName, i, |funcName| - |ext|);
    }
  }

  /**
   * A function or method declared as `ident` resolves to `ident`, whatever its
   * package and receiver qualification, with or without the method-value "-fm" mark.
   */
  lemma ResolvesDeclaredName(qualifier: string, ident: string)
    requires '.' !in ident && '/' !in ident
    ensures MethodToName(qualifier + "." + ident + "-fm") == ident
    ensures !HasSuffix(ident, "-fm") ==> MethodToName(qualifier + "." + ident) == ident
  {
    assert '.' !in ident + "-fm" && '/' !in ident + "-fm";
    assert qualifier + "." + ident + "-fm" == qualifier + "." + (ident + "-fm");
    ExtOfDottedSuffix(qualifier, ident + "-fm");
    TrimPrefixOfConcat(".", ident + "-fm");
    TrimSuffixOfConcat(ident, "-fm");
    ExtOfDottedSuffix(qualifier, ident);
    TrimPrefixOfConcat(".", ident);
  }

  /** Only one "-fm" is stripped: `q.M-fm-fm` resolves to "M-fm". */
  lemma OnlyOneMarkStripped(qualifier: string, ident: string)
    requires '.' !in ident && '/' !in ident
    ensures MethodToName(qualifier + "." + ident + "-fm-fm") == ident + "-fm"
  {
    assert '.' !in ident + "-fm" && '/' !in ident + "-fm";
    assert qualifier + "." + ident + "-fm-fm" == qualifier + "." + (ident + "-fm") + "-fm";
    ResolvesDeclaredName(qualifier, ident + "-fm");
  }

  /** A '.' before the last '/' is not an extension: `a.b/c` resolves to "". */
  lemma NoDotInFinalElement(dir: string, base: string)
    requires '.' !in base && '/' !in base
    ensures MethodToName(dir + "/" + base) == ""
  {
    ExtOfSlashSuffix(dir, base);
  }

  /**
   * Different identifiers resolve apart, whatever their qualifiers: a collision
   * needs the same final identifier.
   */
  lemma DistinctIdentifiersResolveApart(p: string, q: string, i1: string, i2: string)
    requires '.' !in i1 && '/' !in i1 && '.' !in i2 && '/' !in i2
    requires i1 != i2
    ensures MethodToName(p + "." + i1 + "-fm") != MethodToName(q + "." + i2 + "-fm")
  {
    ResolvesDeclaredName(p, i1);
    ResolvesDeclaredName(q, i2);
  }

  /**
   * A plain function and a method value with different identifiers resolve
   * apart, whatever their qualifiers.
   */
  lemma FunctionAndMethodValueResolveApart(p: string, q: string, i1: string, i2: string)
    requires '.' !in i1 && '/' !in i1 && '.' !in i2 && '/' !in i2
    requires !HasSuffix(i1, "-fm") && i1 != i2
    ensures MethodToName(p + "." + i1) != MethodToName(q + "." + i2 + "-fm")
  {
    ResolvesDeclaredName(p, i1);
    ResolvesDeclaredName(q, i2);
  }

  /** Resolution is not injective: the same identifier in two packages gives one name. */
  lemma DistinctFunctionsMayShareName(p: string, q: string, ident: string)
    requires '.' !in ident && '/' !in ident && !HasSuffix(ident, "-fm")
    ensures MethodToName(p + "." + ident) == MethodToName(q + "." + ident + "-fm")
  {
    ResolvesDeclaredName(p, ident);
    ResolvesDeclaredName(q, ident);
  }

  // ---------------------------------------------------------------------------
  // Namespace builder

  /** The method mappings of `ns`; a nil map reads as empty. */
  function MappingsOf<C, M>(ns: Namespace<C, M>): Mappings<M>
  {
    ns.methodMappings.GetOr(map[])
  }

  /** Every example has a non-empty input; the expected output may be empty. */
  predicate ValidExamples(examples: seq<Example>)
  {
    forall e <- examples :: e.input != ""
  }

  /** Every alias is non-empty. */
  predicate ValidAliases(aliases: seq<string>)
  {
    forall a <- aliases :: a != ""
  }

  /** Every stored mapping passed the sanity checks. */
  ghost predicate WellFormed<C, M>(ns: Namespace<C, M>)
  {
    forall k <- MappingsOf(ns) :: ValidAliases(MappingsOf(ns)[k].aliases) && ValidExamples(MappingsOf(ns)[k].examples)
  }

  /**
   * `AddMethodMapping`: allocate the map if it is nil, resolve the method's
   * name, check the examples and then the aliases, and store the mapping under
   * the name, replacing any earlier one.
   */
  function AddMethodMapping<C, M>(ns: Namespace<C, M>, m: M, funcName: string, aliases: seq<string>, examples: seq<Example>)
    : (r: Result<Namespace<C, M>, Panic<C, M>>)
    // Succeeds exactly when no example input and no alias is empty.
    ensures r.Success? <==> ValidExamples(examples) && ValidAliases(aliases)
    // Examples are checked first.
    ensures !ValidExamples(examples) ==>
              r == Failure(Panic(ns.name + ": Empty example for " + MethodToName(funcName), ns.(methodMappings := Some(MappingsOf(ns)))))
    ensures ValidExamples(examples) && !ValidAliases(aliases) ==>
              r == Failure(Panic(ns.name + ": Empty alias for " + MethodToName(funcName), ns.(methodMappings := Some(MappingsOf(ns)))))
    // On success: the map exists, holds the new mapping under the name, and every other key is as before.
    ensures r.Success? ==>
              && r.value.name == ns.name && r.value.context == ns.context
              && r.value.methodMappings.Some?
              && MappingsOf(r.value).Keys == MappingsOf(ns).Keys + {MethodToName(funcName)}
              && MappingsOf(r.value)[MethodToName(funcName)] == MethodMapping(m, aliases, examples)
              && forall k <- MappingsOf(ns) :: k != MethodToName(funcName) ==> MappingsOf(r.value)[k] == MappingsOf(ns)[k]
  {
    var mappings := MappingsOf(ns);
    var withMap := ns.(methodMappings := Some(mappings));
    var name := MethodToName(funcName);
    if !ValidExamples(examples) then
      Failure(Panic(ns.name + ": Empty example for " + name, withMap))
    else if !ValidAliases(aliases) then
      Failure(Panic(ns.name + ": Empty alias for " + name, withMap))
    else
      Success(withMap.(methodMappings := Some(mappings[name := MethodMapping(m, aliases, examples)])))
  }

  /** A successful `AddMethodMapping` keeps every stored mapping valid. */
  lemma AddPreservesWellFormed<C, M>(ns: Namespace<C, M>, m: M, f: string, aliases: seq<string>, examples: seq<Example>)
    requires WellFormed(ns)
    requires AddMethodMapping(ns, m, f, aliases, examples).Success?
    ensures WellFormed(AddMethodMapping(ns, m, f, aliases, examples).value)
  {
  }

  /**
   * Re-registering under the same resolved name replaces the earlier mapping
   * entirely: the result is as if the first call had never been made.
   */
  lemma OverwriteReplacesEntirely<C, M>(ns: Namespace<C, M>,
                                        m1: M, f1: string, a1: seq<string>, e1: seq<Example>,
                                        m2: M, f2: string, a2: seq<string>, e2: seq<Example>)
    requires MethodToName(f1) == MethodToName(f2)
    requires AddMethodMapping(ns, m1, f1, a1, e1).Success?
    ensures var r := AddMethodMapping(AddMethodMapping(ns, m1, f1, a1, e1).value, m2, f2, a2, e2);
            r.Success? ==> r == AddMethodMapping(ns, m2, f2, a2, e2)
  {
    var name, mappings := MethodToName(f1), MappingsOf(ns);
    var v1, v2 := MethodMapping(m1, a1, e1), MethodMapping(m2, a2, e2);
    var first := AddMethodMapping(ns, m1, f1, a1, e1).value;
    assert MappingsOf(first) == mappings[name := v1];
    assert mappings[name := v1][name := v2] == mappings[name := v2];
  }

  /** Adding the same mapping twice leaves the namespace as adding it once. */
  lemma AddIdempotent<C, M>(ns: Namespace<C, M>, m: M, f: string, aliases: seq<string>, examples: seq<Example>)
    requires AddMethodMapping(ns, m, f, aliases, examples).Success?
    ensures var once := AddMethodMapping(ns, m, f, aliases, examples).value;
            AddMethodMapping(once, m, f, aliases, examples) == Success(once)
  {
    var name, mappings, v := MethodToName(f), MappingsOf(ns), MethodMapping(m, aliases, examples);
    assert mappings[name := v][name := v] == mappings[name := v];
  }

  /** Mappings under different resolved names do not interfere: the order of the two calls does not matter. */
  lemma DistinctNamesCommute<C, M>(ns: Namespace<C, M>,
                                   m1: M, f1: string, a1: seq<string>, e1: seq<Example>,
                                   m2: M, f2: string, a2: seq<string>, e2: seq<Example>)
    requires MethodToName(f1) != MethodToName(f2)
    requires AddMethodMapping(ns, m1, f1, a1, e1).Success?
    requires AddMethodMapping(ns, m2, f2, a2, e2).Success?
    ensures AddMethodMapping(AddMethodMapping(ns, m1, f1, a1, e1).value, m2, f2, a2, e2)
         == AddMethodMapping(AddMethodMapping(ns, m2, f2, a2, e2).value, m1, f1, a1, e1)
  {
    var n1, n2, mappings := MethodToName(f1), MethodToName(f2), MappingsOf(ns);
    var v1, v2 := MethodMapping(m1, a1, e1), MethodMapping(m2, a2, e2);
    var first1, first2 := AddMethodMapping(ns, m1, f1, a1, e1).value, AddMethodMapping(ns, m2, f2, a2, e2).value;
    assert MappingsOf(first1) == mappings[n1 := v1];
    assert MappingsOf(first2) == mappings[n2 := v2];
    assert mappings[n1 := v1][n2 := v2] == mappings[n2 := v2][n1 := v1];
  }
}
