/** findInterceptorByAnnotation: the path-match interceptors declared on the
    interface by annotations whose type carries @InterceptMark. Each marker
    must name handler, include and exclude; its string attributes go through
    the environment's placeholder resolver before they are set on the handler. */
module MarkerResolution {
  import opened Types

  // ---------------------------------------------------------------------------
  // Placeholder resolution of one attribute map
  // ---------------------------------------------------------------------------

  /** One entry of the forEach: a String is resolved, anything else (arrays of
      strings included) passes through. */
  function ResolveValue(v: AttrValue, resolve: string -> string): AttrValue {
    if v.Str? then Str(resolve(v.s)) else v
  }

  /** The map the forEach fills: the same keys, each value resolved. */
  function ResolvedAttributes(attributes: map<string, AttrValue>, resolve: string -> string): (r: map<string, AttrValue>)
    ensures r.Keys == attributes.Keys
    ensures forall k :: k in attributes && attributes[k].Str? ==> r[k] == Str(resolve(attributes[k].s))
    ensures forall k :: k in attributes && !attributes[k].Str? ==> r[k] == attributes[k]
  {
    map k | k in attributes :: ResolveValue(attributes[k], resolve)
  }

  /** The forEach over the attribute map, putting one entry at a time into a
      new map; the order in which keys are visited does not matter. */
  method ResolveAttributes(attributes: map<string, AttrValue>, resolve: string -> string)
    returns (resolved: map<string, AttrValue>)
    ensures resolved == ResolvedAttributes(attributes, resolve)
  {
    resolved := map[];
    var remaining := attributes.Keys;
    while remaining != {}
      invariant remaining <= attributes.Keys
      invariant resolved.Keys == attributes.Keys - remaining
      invariant forall k :: k in resolved ==> resolved[k] == ResolveValue(attributes[k], resolve)
      decreases remaining
    {
      var key :| key in remaining;
      resolved := resolved[key := ResolveValue(attributes[key], resolve)];
      remaining := remaining - {key};
    }
  }

  // ---------------------------------------------------------------------------
  // The first loop: keep the annotations whose type carries @InterceptMark
  // ---------------------------------------------------------------------------

  /** The marker annotations of `annotations`, in declared order. */
  function InterceptMarked(annotations: seq<Annotation>): (r: seq<Annotation>)
    ensures |r| <= |annotations|
    ensures forall k :: 0 <= k < |r| ==> r[k].interceptMarked
  {
    if annotations == [] then []
    else
      var last := annotations[|annotations| - 1];
      InterceptMarked(annotations[..|annotations| - 1]) + (if last.interceptMarked then [last] else [])
  }

  /** The positions of the marker annotations, in increasing order. */
  function MarkedIndices(annotations: seq<Annotation>): seq<nat> {
    if annotations == [] then []
    else
      MarkedIndices(annotations[..|annotations| - 1])
      + (if annotations[|annotations| - 1].interceptMarked then [|annotations| - 1] else [])
  }

  /** The filter is one-to-one and order-preserving: its k-th element is the
      annotation at the k-th marked position, positions increase, and a
      position is listed exactly when its annotation is a marker. */
  lemma {:induction false} InterceptMarkedCorrespondence(annotations: seq<Annotation>)
    ensures var r := InterceptMarked(annotations);
            var ix := MarkedIndices(annotations);
            && |ix| == |r|
            && (forall k :: 0 <= k < |ix| ==> ix[k] < |annotations| && r[k] == annotations[ix[k]])
            && (forall k, l :: 0 <= k < l < |ix| ==> ix[k] < ix[l])
            && (forall i :: 0 <= i < |annotations| ==> (annotations[i].interceptMarked <==> i in ix))
  {
    if annotations != [] {
      var n := |annotations| - 1;
      var front := annotations[..n];
      InterceptMarkedCorrespondence(front);
      var ix := MarkedIndices(annotations);
      var ixf := MarkedIndices(front);
      assert forall k :: 0 <= k < |ixf| ==> ixf[k] < n;
      assert forall i :: 0 <= i < n ==> annotations[i] == front[i];
      forall i | 0 <= i < |annotations|
        ensures annotations[i].interceptMarked <==> i in ix
      {
        if i < n {
          assert annotations[i].interceptMarked <==> i in ixf;
          assert n !in ixf;
        }
      }
    }
  }

  /** The filter distributes over concatenation, so it keeps relative order. */
  lemma {:induction false} InterceptMarkedAppend(a: seq<Annotation>, b: seq<Annotation>)
    ensures InterceptMarked(a + b) == InterceptMarked(a) + InterceptMarked(b)
  {
    if b == [] {
      assert a + b == a;
    } else {
      var n := |b| - 1;
      InterceptMarkedAppend(a, b[..n]);
      assert (a + b)[..|a + b| - 1] == a + b[..n];
    }
  }

  // ---------------------------------------------------------------------------
  // The second loop: resolve each marker into an interceptor
  // ---------------------------------------------------------------------------

  predicate HasRequiredAttributes(a: Annotation) {
    "handler" in a.attributes && "include" in a.attributes && "exclude" in a.attributes
  }

  /** One iteration of the second loop: check handler, include and exclude in
      that order, obtain the handler instance, resolve the attributes and set
      them on it. */
  function ResolveMarker(a: Annotation, env: Environment, container: Container): (r: Result<Interceptor, Error>)
    ensures "handler" !in a.attributes ==> r == Err(MissingMarkerAttribute(a.annotationType, "handler"))
    ensures "handler" in a.attributes && "include" !in a.attributes
            ==> r == Err(MissingMarkerAttribute(a.annotationType, "include"))
    ensures "handler" in a.attributes && "include" in a.attributes && "exclude" !in a.attributes
            ==> r == Err(MissingMarkerAttribute(a.annotationType, "exclude"))
    ensures r.Ok? <==> HasRequiredAttributes(a)
                       && container.obtainable(a.attributes["handler"])
                       && container.populatable(a.attributes["handler"],
                                                ResolvedAttributes(a.attributes, env.resolvePlaceholders))
    ensures r.Ok? ==> r.value == PathMatch(a.attributes["handler"], ResolvedAttributes(a.attributes, env.resolvePlaceholders))
  {
    if "handler" !in a.attributes then Err(MissingMarkerAttribute(a.annotationType, "handler"))
    else if "include" !in a.attributes then Err(MissingMarkerAttribute(a.annotationType, "include"))
    else if "exclude" !in a.attributes then Err(MissingMarkerAttribute(a.annotationType, "exclude"))
    else
      var handler := a.attributes["handler"];
      if !container.obtainable(handler) then Err(HandlerInstantiation(a.annotationType))
      else
        var resolved := ResolvedAttributes(a.attributes, env.resolvePlaceholders);
        if !container.populatable(handler, resolved) then Err(AttributePopulation(a.annotationType))
        else Ok(PathMatch(handler, resolved))
  }

  /** The second loop over `markers`: the interceptors in order, or the error
      of the first marker that fails. */
  function ResolveMarkers(markers: seq<Annotation>, env: Environment, container: Container): Result<seq<Interceptor>, Error> {
    if markers == [] then Ok([])
    else
      match ResolveMarkers(markers[..|markers| - 1], env, container)
      case Err(e) => Err(e)
      case Ok(done) =>
        match ResolveMarker(markers[|markers| - 1], env, container)
        case Err(e) => Err(e)
        case Ok(x) => Ok(done + [x])
  }

  /** findInterceptorByAnnotation, as a value. */
  function MarkerInterceptors(annotations: seq<Annotation>, env: Environment, container: Container): Result<seq<Interceptor>, Error> {
    ResolveMarkers(InterceptMarked(annotations), env, container)
  }

  /** Resolution succeeds exactly when every marker resolves, and then yields
      one interceptor per marker, in marker order. */
  lemma {:induction false} ResolveMarkersOk(markers: seq<Annotation>, env: Environment, container: Container)
    ensures ResolveMarkers(markers, env, container).Ok?
            <==> forall i :: 0 <= i < |markers| ==> ResolveMarker(markers[i], env, container).Ok?
    ensures ResolveMarkers(markers, env, container).Ok? ==>
            var out := ResolveMarkers(markers, env, container).value;
            |out| == |markers| && forall i :: 0 <= i < |markers| ==> out[i] == ResolveMarker(markers[i], env, container).value
  {
    if markers != [] {
      var n := |markers| - 1;
      var front := markers[..n];
      ResolveMarkersOk(front, env, container);
      assert forall i :: 0 <= i < n ==> markers[i] == front[i];
    }
  }

  /** A failing resolution reports the error of the first marker that fails. */
  lemma {:induction false} ResolveMarkersFirstError(markers: seq<Annotation>, env: Environment, container: Container)
    requires ResolveMarkers(markers, env, container).Err?
    ensures exists i :: 0 <= i < |markers|
              && ResolveMarker(markers[i], env, container) == Err(ResolveMarkers(markers, env, container).error)
              && forall j :: 0 <= j < i ==> ResolveMarker(markers[j], env, container).Ok?
  {
    var n := |markers| - 1;
    var front := markers[..n];
    assert forall i :: 0 <= i < n ==> markers[i] == front[i];
    if ResolveMarkers(front, env, container).Err? {
      ResolveMarkersFirstError(front, env, container);
      var i :| 0 <= i < |front|
              && ResolveMarker(front[i], env, container) == Err(ResolveMarkers(front, env, container).error)
              && forall j :: 0 <= j < i ==> ResolveMarker(front[j], env, container).Ok?;
      assert ResolveMarker(markers[i], env, container) == ResolveMarker(front[i], env, container);
    } else {
      ResolveMarkersOk(front, env, container);
      assert ResolveMarker(markers[n], env, container) == Err(ResolveMarkers(markers, env, container).error);
    }
  }

  /** When the markers before position j all resolve and marker j fails, the
      whole resolution fails with marker j's error. */
  lemma {:induction false} ResolveMarkersStopsAt(markers: seq<Annotation>, j: nat, env: Environment, container: Container)
    requires j < |markers|
    requires ResolveMarkers(markers[..j], env, container).Ok?
    requires ResolveMarker(markers[j], env, container).Err?
    ensures ResolveMarkers(markers, env, container) == Err(ResolveMarker(markers[j], env, container).error)
  {
    if j == |markers| - 1 {
      assert markers[..|markers| - 1] == markers[..j];
    } else {
      var front := markers[..|markers| - 1];
      assert front[..j] == markers[..j];
      ResolveMarkersStopsAt(front, j, env, container);
    }
  }

  /** The marker interceptors correspond one-to-one, in declared order, to the
      annotations whose type carries @InterceptMark: the k-th is the handler of
      the k-th marker with that marker's attributes, placeholders resolved. */
  lemma MarkerInterceptorsCorrespondence(annotations: seq<Annotation>, env: Environment, container: Container)
    requires MarkerInterceptors(annotations, env, container).Ok?
    ensures var out := MarkerInterceptors(annotations, env, container).value;
            var ix := MarkedIndices(annotations);
            && |out| == |ix|
            && (forall k, l :: 0 <= k < l < |ix| ==> ix[k] < ix[l])
            && (forall i :: 0 <= i < |annotations| ==> (annotations[i].interceptMarked <==> i in ix))
            && forall k :: 0 <= k < |ix| ==>
                 ix[k] < |annotations|
                 && HasRequiredAttributes(annotations[ix[k]])
                 && out[k] == PathMatch(annotations[ix[k]].attributes["handler"],
                                        ResolvedAttributes(annotations[ix[k]].attributes, env.resolvePlaceholders))
  {
    InterceptMarkedCorrespondence(annotations);
    ResolveMarkersOk(InterceptMarked(annotations), env, container);
  }

  /** A marker that lacks handler, include or exclude aborts resolution. */
  lemma MissingAttributeAborts(annotations: seq<Annotation>, i: nat, env: Environment, container: Container)
    requires i < |annotations| && annotations[i].interceptMarked && !HasRequiredAttributes(annotations[i])
    ensures MarkerInterceptors(annotations, env, container).Err?
  {
    InterceptMarkedCorrespondence(annotations);
    var ix := MarkedIndices(annotations);
    var k :| 0 <= k < |ix| && ix[k] == i;
    ResolveMarkersOk(InterceptMarked(annotations), env, container);
    assert !ResolveMarker(InterceptMarked(annotations)[k], env, container).Ok?;
  }

  /** Annotations whose type does not carry @InterceptMark are ignored. */
  lemma UnmarkedIgnored(before: seq<Annotation>, x: Annotation, after: seq<Annotation>, env: Environment, container: Container)
    requires !x.interceptMarked
    ensures MarkerInterceptors(before + [x] + after, env, container) == MarkerInterceptors(before + after, env, container)
  {
    InterceptMarkedAppend(before + [x], after);
    InterceptMarkedAppend(before, [x]);
    InterceptMarkedAppend(before, after);
    assert [x][..0] == [];
    assert InterceptMarked([x]) == [];
    assert InterceptMarked(before + [x]) == InterceptMarked(before) + [];
    assert InterceptMarked(before) + [] == InterceptMarked(before);
  }

  /** findInterceptorByAnnotation: a loop collecting the markers, then a loop
      resolving each one, returning at the first failed check. */
  method FindInterceptorByAnnotation(classAnnotations: seq<Annotation>, env: Environment, container: Container)
    returns (r: Result<seq<Interceptor>, Error>)
    ensures r == MarkerInterceptors(classAnnotations, env, container)
  {
    var interceptAnnotations: seq<Annotation> := [];
    var i := 0;
    while i < |classAnnotations|
      invariant 0 <= i <= |classAnnotations|
      invariant interceptAnnotations == InterceptMarked(classAnnotations[..i])
    {
      assert classAnnotations[..i + 1][..i] == classAnnotations[..i];
      if classAnnotations[i].interceptMarked {
        interceptAnnotations := interceptAnnotations + [classAnnotations[i]];
      }
      i := i + 1;
    }
    assert classAnnotations[..i] == classAnnotations;

    var interceptors: seq<Interceptor> := [];
    var j := 0;
    while j < |interceptAnnotations|
      invariant 0 <= j <= |interceptAnnotations|
      invariant ResolveMarkers(interceptAnnotations[..j], env, container) == Ok(interceptors)
    {
      var a := interceptAnnotations[j];
      var attributes := a.attributes;
      if "handler" !in attributes || "include" !in attributes || "exclude" !in attributes {
        var missing := if "handler" !in attributes then "handler"
                       else if "include" !in attributes then "include" else "exclude";
        r := Err(MissingMarkerAttribute(a.annotationType, missing));
        ResolveMarkersStopsAt(interceptAnnotations, j, env, container);
        return;
      }
      var handler := attributes["handler"];
      if !container.obtainable(handler) {
        r := Err(HandlerInstantiation(a.annotationType));
        ResolveMarkersStopsAt(interceptAnnotations, j, env, container);
        return;
      }
      var resolved := ResolveAttributes(attributes, env.resolvePlaceholders);
      if !container.populatable(handler, resolved) {
        r := Err(AttributePopulation(a.annotationType));
        ResolveMarkersStopsAt(interceptAnnotations, j, env, container);
        return;
      }
      assert interceptAnnotations[..j + 1][..j] == interceptAnnotations[..j];
      interceptors := interceptors + [PathMatch(handler, resolved)];
      j := j + 1;
    }
    assert interceptAnnotations[..j] == interceptAnnotations;
    r := Ok(interceptors);
  }
}
