/** checkRetrofitInterface: the shape rules a service interface must meet
    before anything is built. The check walks the methods in order and stops
    at the first one that breaks a rule. */
module Validation {
  import opened Types

  /** The rules for one method, stated declaratively: a builder-annotated
      method must be static and return OkHttpClient.Builder, and is exempt from
      the rest; any other method must not return primitive void, nor
      java.lang.Void when the process-wide flag disables it. */
  predicate MethodAllowed(m: MethodInfo, disableVoidReturnType: bool) {
    if m.hasBuilderAnnotation then
      m.returnType == OkHttpClientBuilderType && m.isStatic
    else
      m.returnType != PrimitiveVoid && !(disableVoidReturnType && m.returnType == BoxedVoid)
  }

  /** The assertions the source makes about method `index`, in their order;
      `None` when all of them hold. */
  function MethodViolation(m: MethodInfo, index: nat, disableVoidReturnType: bool): (r: Option<Error>)
    ensures r.None? <==> MethodAllowed(m, disableVoidReturnType)
    ensures r.Some? ==> r.value.NamesMethod() && r.value.methodIndex == index
    ensures m.hasBuilderAnnotation && m.returnType != OkHttpClientBuilderType ==> r == Some(BuilderWrongReturnType(index))
    ensures m.hasBuilderAnnotation && m.returnType == OkHttpClientBuilderType && !m.isStatic
            ==> r == Some(BuilderNotStatic(index))
    ensures !m.hasBuilderAnnotation && m.returnType == PrimitiveVoid ==> r == Some(VoidReturnType(index))
    ensures !m.hasBuilderAnnotation && m.returnType == BoxedVoid && disableVoidReturnType
            ==> r == Some(VoidReturnTypeDisabled(index))
  {
    if m.hasBuilderAnnotation then
      if m.returnType != OkHttpClientBuilderType then Some(BuilderWrongReturnType(index))
      else if !m.isStatic then Some(BuilderNotStatic(index))
      else None
    else if m.returnType == PrimitiveVoid then Some(VoidReturnType(index))
    else if disableVoidReturnType && m.returnType == BoxedVoid then Some(VoidReturnTypeDisabled(index))
    else None
  }

  /** The loop over methods[from..]: the first violation, or `None`. */
  function CheckMethods(methods: seq<MethodInfo>, disableVoidReturnType: bool, from: nat): (r: Option<Error>)
    requires from <= |methods|
    decreases |methods| - from
    ensures r.None? <==> forall j :: from <= j < |methods| ==> MethodAllowed(methods[j], disableVoidReturnType)
    ensures r.Some? ==> exists j :: from <= j < |methods| && r == MethodViolation(methods[j], j, disableVoidReturnType)
                                  && forall k :: from <= k < j ==> MethodAllowed(methods[k], disableVoidReturnType)
  {
    if from == |methods| then None
    else
      var v := MethodViolation(methods[from], from, disableVoidReturnType);
      if v.Some? then v else CheckMethods(methods, disableVoidReturnType, from + 1)
  }

  /** checkRetrofitInterface: `None` accepts the interface, `Some(e)` is the
      configuration error it fails with. */
  function CheckRetrofitInterface(iface: ServiceInterface, disableVoidReturnType: bool): (r: Option<Error>)
    ensures !iface.isInterface ==> r == Some(NotAnInterface)
  {
    if !iface.isInterface then Some(NotAnInterface)
    else CheckMethods(iface.methods, disableVoidReturnType, 0)
  }

  /** Predicate over a whole interface, independent of the order of the checks. */
  predicate InterfaceAllowed(iface: ServiceInterface, disableVoidReturnType: bool) {
    iface.isInterface && forall j :: 0 <= j < |iface.methods| ==> MethodAllowed(iface.methods[j], disableVoidReturnType)
  }

  /** Validation passes exactly when the type is an interface and no method
      breaks a rule. */
  lemma ValidationPassesIff(iface: ServiceInterface, disableVoidReturnType: bool)
    ensures CheckRetrofitInterface(iface, disableVoidReturnType).None? <==> InterfaceAllowed(iface, disableVoidReturnType)
  {
  }

  /** A failure on an interface names the first offending method, and every
      method before it is allowed. */
  lemma ValidationFailsAtFirstViolation(iface: ServiceInterface, disableVoidReturnType: bool)
    requires iface.isInterface
    requires CheckRetrofitInterface(iface, disableVoidReturnType).Some?
    ensures var e := CheckRetrofitInterface(iface, disableVoidReturnType).value;
            e.NamesMethod() && e.methodIndex < |iface.methods|
            && !MethodAllowed(iface.methods[e.methodIndex], disableVoidReturnType)
            && forall k :: 0 <= k < e.methodIndex ==> MethodAllowed(iface.methods[k], disableVoidReturnType)
  {
    var r := CheckMethods(iface.methods, disableVoidReturnType, 0);
    var j :| 0 <= j < |iface.methods| && r == MethodViolation(iface.methods[j], j, disableVoidReturnType)
             && forall k :: 0 <= k < j ==> MethodAllowed(iface.methods[k], disableVoidReturnType);
  }

  /** A non-builder method returning primitive void always makes validation
      fail, whatever the flag says. */
  lemma PrimitiveVoidRejected(iface: ServiceInterface, disableVoidReturnType: bool, j: nat)
    requires j < |iface.methods|
    requires !iface.methods[j].hasBuilderAnnotation && iface.methods[j].returnType == PrimitiveVoid
    ensures CheckRetrofitInterface(iface, disableVoidReturnType).Some?
  {
    ValidationPassesIff(iface, disableVoidReturnType);
    assert !MethodAllowed(iface.methods[j], disableVoidReturnType);
  }

  /** A builder-annotated method of the right shape is exempt from the void
      rules, and one of the wrong shape fails validation with either flag. */
  lemma BuilderMethodRules(iface: ServiceInterface, disableVoidReturnType: bool, j: nat)
    requires j < |iface.methods| && iface.methods[j].hasBuilderAnnotation
    ensures MethodAllowed(iface.methods[j], disableVoidReturnType)
            <==> iface.methods[j].returnType == OkHttpClientBuilderType && iface.methods[j].isStatic
    ensures !(iface.methods[j].returnType == OkHttpClientBuilderType && iface.methods[j].isStatic)
            ==> CheckRetrofitInterface(iface, disableVoidReturnType).Some?
  {
    ValidationPassesIff(iface, disableVoidReturnType);
  }

  /** With the flag unset, Void is accepted; setting the flag makes validation
      fail exactly when some non-builder method returns Void. */
  lemma DisablingVoid(iface: ServiceInterface)
    requires CheckRetrofitInterface(iface, false).None?
    ensures CheckRetrofitInterface(iface, true).Some?
            <==> exists j :: 0 <= j < |iface.methods| && !iface.methods[j].hasBuilderAnnotation
                                                       && iface.methods[j].returnType == BoxedVoid
  {
    ValidationPassesIff(iface, false);
    ValidationPassesIff(iface, true);
    if CheckRetrofitInterface(iface, true).Some? {
      var j :| 0 <= j < |iface.methods| && !MethodAllowed(iface.methods[j], true);
      assert MethodAllowed(iface.methods[j], false);
    }
  }

  /** An interface that passes with the flag set also passes with it unset. */
  lemma DisablingVoidOnlyRestricts(iface: ServiceInterface)
    requires CheckRetrofitInterface(iface, true).None?
    ensures CheckRetrofitInterface(iface, false).None?
  {
    ValidationPassesIff(iface, true);
    ValidationPassesIff(iface, false);
  }
}
