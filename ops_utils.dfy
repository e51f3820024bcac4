/**
 * The hook-injection utility of `mirascope/base/ops_utils.py`: choosing which
 * methods of a class to wrap, the four wrapper shapes, the before/after hook
 * protocol, and `get_class_vars`.
 *
 * A Python function is a `PyFunction` value; what `inspect` reports about it is an
 * `Introspection` value. Calling a wrapper is modelled by `SpanLog`, whose `events`
 * record, in order, the hook calls, the context-manager entry and exit, the call of
 * the wrapped function and every value yielded to the caller.
 */
module OpsUtils {
  import opened Wrappers
  import opened PyValues

  // ---------------------------------------------------------------------------
  // get_class_vars
  // ---------------------------------------------------------------------------

  /** The class variable `get_class_vars` never returns. */
  const ApiKey: string := "api_key"

  /** `getattr` found no attribute of this name. */
  datatype AttributeError = AttributeError(name: string)

  /**
   * `get_class_vars`: the class variables named in `classVars` (the model's
   * `__class_vars__`), read from the class's attributes `classAttrs`, except
   * `api_key`. A name with no attribute makes `getattr` raise.
   */
  method GetClassVars(classVars: set<string>, classAttrs: map<string, Value>)
    returns (r: Result<map<string, Value>, AttributeError>)
    ensures r.Success? <==> forall n :: n in classVars && n != ApiKey ==> n in classAttrs
    ensures r.Success? ==> r.value.Keys == classVars - {ApiKey}
    ensures r.Success? ==> forall n :: n in r.value ==> n in classAttrs && r.value[n] == classAttrs[n]
    ensures r.Failure? ==> r.error.name in classVars && r.error.name != ApiKey && r.error.name !in classAttrs
  {
    var vars: map<string, Value> := map[];
    var todo := classVars;
    while todo != {}
      invariant todo <= classVars
      invariant vars.Keys == (classVars - todo) - {ApiKey}
      invariant forall n :: n in vars ==> n in classAttrs && vars[n] == classAttrs[n]
      decreases todo
    {
      var name :| name in todo;
      if name != ApiKey {
        if name !in classAttrs {
          return Failure(AttributeError(name));
        }
        vars := vars[name := classAttrs[name]];
      }
      todo := todo - {name};
    }
    return Success(vars);
  }

  // ---------------------------------------------------------------------------
  // Wrapper shapes
  // ---------------------------------------------------------------------------

  /** The four calling conventions, one wrapper shape each. */
  datatype MethodKind = PlainFunction | Coroutine | Generator | AsyncGenerator

  /**
   * What `inspect.isasyncgenfunction`, `inspect.iscoroutinefunction` and
   * `inspect.isgeneratorfunction` report about a function.
   */
  datatype Introspection = Introspection(isAsyncGen: bool, isCoroutine: bool, isGenerator: bool)

  /** A function defined with a single calling convention reports at most one flag. */
  predicate SingleConvention(fl: Introspection) {
    (fl.isAsyncGen ==> !fl.isCoroutine && !fl.isGenerator) && !(fl.isCoroutine && fl.isGenerator)
  }

  /**
   * The wrapper shape `mirascope_span` picks: async generator first, then
   * coroutine, then generator, else the plain wrapper.
   */
  function ShapeOf(fl: Introspection): (k: MethodKind)
    ensures k == AsyncGenerator <==> fl.isAsyncGen
    ensures k == Coroutine <==> !fl.isAsyncGen && fl.isCoroutine
    ensures k == Generator <==> !fl.isAsyncGen && !fl.isCoroutine && fl.isGenerator
    ensures k == PlainFunction <==> !fl.isAsyncGen && !fl.isCoroutine && !fl.isGenerator
  {
    if fl.isAsyncGen then AsyncGenerator
    else if fl.isCoroutine then Coroutine
    else if fl.isGenerator then Generator
    else PlainFunction
  }

  /** What `inspect` reports about a wrapper of the given shape (`async def` / `def` with or without `yield`). */
  function IntrospectionOf(k: MethodKind): Introspection {
    match k
    case PlainFunction => Introspection(false, false, false)
    case Coroutine => Introspection(false, true, false)
    case Generator => Introspection(false, false, true)
    case AsyncGenerator => Introspection(true, false, false)
  }

  /** Each shape is recognised again as itself. */
  lemma ShapeOfIntrospection(k: MethodKind)
    ensures SingleConvention(IntrospectionOf(k))
    ensures ShapeOf(IntrospectionOf(k)) == k
  {
  }

  /** The flags of a single-convention function are exactly those of the shape chosen for it. */
  lemma IntrospectionOfShape(fl: Introspection)
    requires SingleConvention(fl)
    ensures IntrospectionOf(ShapeOf(fl)) == fl
  {
  }

  // ---------------------------------------------------------------------------
  // Functions and mirascope_span
  // ---------------------------------------------------------------------------

  /**
   * The hooks a span injects: whether `handle_before_call` and `handle_after_call`
   * were given, and the extra `custom_kwargs` passed to both.
   */
  datatype Hooks = Hooks(hasBefore: bool, hasAfter: bool, custom: map<string, Value>)

  /** A Python function: one defined in a class body, or a wrapper made by `mirascope_span`. */
  datatype PyFunction =
    | Defined(name: string, flags: Introspection)
    | Span(wrapped: PyFunction, shape: MethodKind, hooks: Hooks)

  /** What `inspect` reports about a function. */
  function Inspect(f: PyFunction): Introspection {
    match f
    case Defined(_, fl) => fl
    case Span(_, k, _) => IntrospectionOf(k)
  }

  /** How many `mirascope_span` layers surround the defined function. */
  function Depth(f: PyFunction): nat {
    match f
    case Defined(_, _) => 0
    case Span(inner, _, _) => Depth(inner) + 1
  }

  /** `__name__`, which `functools.wraps` copies onto the wrapper. */
  function Name(f: PyFunction): string {
    match f
    case Defined(n, _) => n
    case Span(inner, _, _) => Name(inner)
  }

  /**
   * `mirascope_span(fn, handle_before_call, handle_after_call, **custom_kwargs)`:
   * a wrapper of `fn` whose shape is chosen from `fn`'s calling convention. The
   * wrapper keeps `fn`'s name and, for a function with one calling convention,
   * reports the same convention as `fn`.
   */
  function MirascopeSpan(fn: PyFunction, hooks: Hooks): (w: PyFunction)
    ensures w.Span? && w.wrapped == fn && w.hooks == hooks
    ensures w.shape == ShapeOf(Inspect(fn))
    ensures Name(w) == Name(fn)
    ensures SingleConvention(Inspect(fn)) ==> Inspect(w) == Inspect(fn)
  {
    Span(fn, ShapeOf(Inspect(fn)), hooks)
  }

  // ---------------------------------------------------------------------------
  // wrap_mirascope_class_functions
  // ---------------------------------------------------------------------------

  /** A class attribute: a function, or any other value (property, class variable, ...). */
  datatype Member = Function(fn: PyFunction) | Attribute(value: Value)

  /** A class whose attributes `setattr` replaces in place. */
  class ModelClass {
    var members: map<string, Member>

    constructor (members: map<string, Member>)
      ensures this.members == members
    {
      this.members := members;
    }
  }

  /** Serialisation and copy helpers that are never wrapped. */
  const IgnoreFunctions: set<string> := {
    "copy", "dict", "dump", "json", "messages",
    "model_copy", "model_dump", "model_dump_json", "model_post_init"
  }

  /** `name.startswith("_")`. */
  predicate IsPrivate(name: string) {
    |name| > 0 && name[0] == '_'
  }

  /** A member is wrapped when it is a function with a public name outside the ignore list. */
  predicate IsWrapTarget(name: string, m: Member) {
    m.Function? && !IsPrivate(name) && name !in IgnoreFunctions
  }

  /** The member after wrapping. */
  function WrapMember(name: string, m: Member, hooks: Hooks): Member {
    if IsWrapTarget(name, m) then Function(MirascopeSpan(m.fn, hooks)) else m
  }

  /** Wrapping changes a member exactly when the member is a wrap target. */
  lemma WrapMemberChangesOnlyTargets(name: string, m: Member, hooks: Hooks)
    ensures WrapMember(name, m, hooks) != m <==> IsWrapTarget(name, m)
    ensures IsWrapTarget(name, m) ==> WrapMember(name, m, hooks).fn.wrapped == m.fn
  {
    if IsWrapTarget(name, m) {
      var w := MirascopeSpan(m.fn, hooks);
      assert Depth(w) == Depth(m.fn) + 1;
    }
  }

  /**
   * `wrap_mirascope_class_functions`: replaces, in place, every function of `cls`
   * that is a wrap target by its `mirascope_span` wrapper, leaves every other
   * attribute as it was, and returns the same class object.
   */
  method WrapMirascopeClassFunctions(cls: ModelClass, hooks: Hooks) returns (r: ModelClass)
    modifies cls
    ensures r == cls
    ensures cls.members.Keys == old(cls.members.Keys)
    ensures forall n :: n in cls.members ==> cls.members[n] == WrapMember(n, old(cls.members[n]), hooks)
  {
    // inspect.getmembers(cls, predicate=inspect.isfunction)
    var functions := set n | n in cls.members && cls.members[n].Function?;
    ghost var before := cls.members;
    var todo := functions;
    while todo != {}
      invariant todo <= functions
      invariant cls.members.Keys == before.Keys
      invariant forall n :: n in before ==>
        cls.members[n] == if n in todo then before[n] else WrapMember(n, before[n], hooks)
      decreases todo
    {
      var name :| name in todo;
      if !IsPrivate(name) && name !in IgnoreFunctions {
        cls.members := cls.members[name := Function(MirascopeSpan(cls.members[name].fn, hooks))];
      }
      todo := todo - {name};
    }
    return cls;
  }

  // ---------------------------------------------------------------------------
  // The before/after hook protocol
  // ---------------------------------------------------------------------------

  /**
   * What `handle_before_call` returns: an ordinary value, or a context manager
   * whose `__enter__` yields `entered`.
   */
  datatype BeforeResult = Ordinary(value: Value) | ContextManager(entered: Value)

  /** The result the after-hook receives: one value, or the list of every yielded value. */
  datatype Output = Single(value: Value) | Collected(values: seq<Value>)

  /** One observable step of a wrapper call. */
  datatype Event =
    | BeforeHook(fn: PyFunction, kwargs: map<string, Value>)
    | Enter
    | Invoke(fn: PyFunction, kwargs: map<string, Value>)
    | Yield(value: Value)
    | AfterHook(fn: PyFunction, output: Output, before: Value, kwargs: map<string, Value>)
    | Exit

  /** The before-value the after-hook receives: `None` without a before-hook, else the hook's value or the context's entered value. */
  function BeforeArg(hooks: Hooks, b: BeforeResult): Value {
    if !hooks.hasBefore then PyNone
    else match b
      case Ordinary(v) => v
      case ContextManager(e) => e
  }

  /** The wrapper runs inside a `with` block exactly when the before-hook returned a context manager. */
  predicate EntersContext(hooks: Hooks, b: BeforeResult) {
    hooks.hasBefore && b.ContextManager?
  }

  /** The events up to and including the call of the wrapped function. */
  function Opening(fn: PyFunction, hooks: Hooks, kwargs: map<string, Value>, b: BeforeResult): seq<Event> {
    (if hooks.hasBefore then [BeforeHook(fn, kwargs + hooks.custom)] else [])
    + (if EntersContext(hooks, b) then [Enter] else [])
    + [Invoke(fn, kwargs)]
  }

  /** The events after the wrapped function has produced its output. */
  function Closing(fn: PyFunction, hooks: Hooks, kwargs: map<string, Value>, b: BeforeResult, out: Output): seq<Event> {
    (if hooks.hasAfter then [AfterHook(fn, out, BeforeArg(hooks, b), kwargs + hooks.custom)] else [])
    + (if EntersContext(hooks, b) then [Exit] else [])
  }

  /** One `Yield` event per value, in order. */
  function YieldEvents(values: seq<Value>): (es: seq<Event>)
    ensures |es| == |values|
  {
    seq(|values|, i requires 0 <= i < |values| => Yield(values[i]))
  }

  lemma YieldEventsSnoc(vs: seq<Value>, i: nat)
    requires i < |vs|
    ensures YieldEvents(vs[..i + 1]) == YieldEvents(vs[..i]) + [Yield(vs[i])]
  {
  }

  /** The events of one complete call of a wrapper of `fn`. */
  function SpanTrace(fn: PyFunction, hooks: Hooks, kwargs: map<string, Value>, b: BeforeResult, out: Output): seq<Event> {
    Opening(fn, hooks, kwargs, b)
    + (match out case Single(_) => [] case Collected(vs) => YieldEvents(vs))
    + Closing(fn, hooks, kwargs, b, out)
  }

  lemma SpanTraceParts(fn: PyFunction, hooks: Hooks, kwargs: map<string, Value>, b: BeforeResult, out: Output)
    ensures out.Single? ==> SpanTrace(fn, hooks, kwargs, b, out) == Opening(fn, hooks, kwargs, b) + Closing(fn, hooks, kwargs, b, out)
    ensures out.Collected? ==>
      SpanTrace(fn, hooks, kwargs, b, out) == Opening(fn, hooks, kwargs, b) + YieldEvents(out.values) + Closing(fn, hooks, kwargs, b, out)
  {
    if out.Single? {
      assert Opening(fn, hooks, kwargs, b) + [] == Opening(fn, hooks, kwargs, b);
    }
  }

  /** The values a caller received, in order. */
  function Yields(es: seq<Event>): seq<Value> {
    if es == [] then [] else (if es[0].Yield? then [es[0].value] else []) + Yields(es[1..])
  }

  /** The outputs the after-hook was called with, in order. */
  function AfterOutputs(es: seq<Event>): seq<Output> {
    if es == [] then [] else (if es[0].AfterHook? then [es[0].output] else []) + AfterOutputs(es[1..])
  }

  lemma {:induction false} YieldsAppend(a: seq<Event>, b: seq<Event>)
    ensures Yields(a + b) == Yields(a) + Yields(b)
  {
    if a == [] {
      assert a + b == b;
    } else {
      var head := if a[0].Yield? then [a[0].value] else [];
      assert (a + b)[0] == a[0];
      assert (a + b)[1..] == a[1..] + b;
      YieldsAppend(a[1..], b);
      calc {
        Yields(a + b);
        head + Yields(a[1..] + b);
        head + (Yields(a[1..]) + Yields(b));
        (head + Yields(a[1..])) + Yields(b);
      }
    }
  }

  lemma {:induction false} AfterOutputsAppend(a: seq<Event>, b: seq<Event>)
    ensures AfterOutputs(a + b) == AfterOutputs(a) + AfterOutputs(b)
  {
    if a == [] {
      assert a + b == b;
    } else {
      var head := if a[0].AfterHook? then [a[0].output] else [];
      assert (a + b)[0] == a[0];
      assert (a + b)[1..] == a[1..] + b;
      AfterOutputsAppend(a[1..], b);
      calc {
        AfterOutputs(a + b);
        head + AfterOutputs(a[1..] + b);
        head + (AfterOutputs(a[1..]) + AfterOutputs(b));
        (head + AfterOutputs(a[1..])) + AfterOutputs(b);
      }
    }
  }

  /** The yield events of a value sequence give back exactly that sequence, and call no after-hook. */
  lemma {:induction false} YieldEventsProjection(vs: seq<Value>)
    ensures Yields(YieldEvents(vs)) == vs
    ensures AfterOutputs(YieldEvents(vs)) == []
  {
    if vs != [] {
      assert YieldEvents(vs)[1..] == YieldEvents(vs[1..]);
      YieldEventsProjection(vs[1..]);
    }
  }

  lemma OpeningClosingProjection(fn: PyFunction, hooks: Hooks, kwargs: map<string, Value>, b: BeforeResult, out: Output)
    ensures Yields(Opening(fn, hooks, kwargs, b)) == []
    ensures AfterOutputs(Opening(fn, hooks, kwargs, b)) == []
    ensures Yields(Closing(fn, hooks, kwargs, b, out)) == []
    ensures AfterOutputs(Closing(fn, hooks, kwargs, b, out)) == if hooks.hasAfter then [out] else []
  {
    var pre := if hooks.hasBefore then [BeforeHook(fn, kwargs + hooks.custom)] else [];
    var ent: seq<Event> := if EntersContext(hooks, b) then [Enter] else [];
    YieldsAppend(pre + ent, [Invoke(fn, kwargs)]);
    YieldsAppend(pre, ent);
    AfterOutputsAppend(pre + ent, [Invoke(fn, kwargs)]);
    AfterOutputsAppend(pre, ent);
    var aft := if hooks.hasAfter then [AfterHook(fn, out, BeforeArg(hooks, b), kwargs + hooks.custom)] else [];
    var ext: seq<Event> := if EntersContext(hooks, b) then [Exit] else [];
    YieldsAppend(aft, ext);
    AfterOutputsAppend(aft, ext);
  }

  /** The opening and closing events never yield; the opening never calls the after-hook. */
  lemma OpeningClosingShape(fn: PyFunction, hooks: Hooks, kwargs: map<string, Value>, b: BeforeResult, out: Output)
    ensures forall k :: 0 <= k < |Opening(fn, hooks, kwargs, b)| ==>
      !Opening(fn, hooks, kwargs, b)[k].Yield? && !Opening(fn, hooks, kwargs, b)[k].AfterHook?
    ensures forall k :: 0 <= k < |Closing(fn, hooks, kwargs, b, out)| ==> !Closing(fn, hooks, kwargs, b, out)[k].Yield?
  {
    var o := Opening(fn, hooks, kwargs, b);
    var bh := BeforeHook(fn, kwargs + hooks.custom);
    var iv := Invoke(fn, kwargs);
    assert o == [iv] || o == [bh, iv] || o == [bh, Enter, iv];
    var c := Closing(fn, hooks, kwargs, b, out);
    var ah := AfterHook(fn, out, BeforeArg(hooks, b), kwargs + hooks.custom);
    assert c == [] || c == [ah] || c == [Exit] || c == [ah, Exit];
  }

  /**
   * A generator wrapper yields exactly the wrapped generator's values, in order,
   * and calls the after-hook, if any, once, with the list of all of them.
   */
  lemma GeneratorAfterSeesYielded(fn: PyFunction, hooks: Hooks, kwargs: map<string, Value>, b: BeforeResult, vs: seq<Value>)
    ensures var t := SpanTrace(fn, hooks, kwargs, b, Collected(vs));
      && Yields(t) == vs
      && AfterOutputs(t) == (if hooks.hasAfter then [Collected(vs)] else [])
  {
    var o := Opening(fn, hooks, kwargs, b);
    var y := YieldEvents(vs);
    var c := Closing(fn, hooks, kwargs, b, Collected(vs));
    assert SpanTrace(fn, hooks, kwargs, b, Collected(vs)) == o + y + c;
    OpeningClosingProjection(fn, hooks, kwargs, b, Collected(vs));
    YieldEventsProjection(vs);
    YieldsAppend(o + y, c);
    YieldsAppend(o, y);
    AfterOutputsAppend(o + y, c);
    AfterOutputsAppend(o, y);
  }

  /** In a generator wrapper's trace every yield comes before the after-hook call. */
  lemma GeneratorAfterFollowsYields(fn: PyFunction, hooks: Hooks, kwargs: map<string, Value>, b: BeforeResult, vs: seq<Value>)
    ensures var t := SpanTrace(fn, hooks, kwargs, b, Collected(vs));
      forall i, j :: 0 <= i < |t| && 0 <= j < |t| && t[i].Yield? && t[j].AfterHook? ==> i < j
  {
    var o := Opening(fn, hooks, kwargs, b);
    var y := YieldEvents(vs);
    var c := Closing(fn, hooks, kwargs, b, Collected(vs));
    var t := o + y + c;
    assert SpanTrace(fn, hooks, kwargs, b, Collected(vs)) == t;
    OpeningClosingShape(fn, hooks, kwargs, b, Collected(vs));
  }

  /** The plain and coroutine wrappers call the after-hook, if any, once, with the wrapped function's result, and yield nothing. */
  lemma ValueAfterSeesResult(fn: PyFunction, hooks: Hooks, kwargs: map<string, Value>, b: BeforeResult, v: Value)
    ensures var t := SpanTrace(fn, hooks, kwargs, b, Single(v));
      && Yields(t) == []
      && AfterOutputs(t) == (if hooks.hasAfter then [Single(v)] else [])
  {
    var o := Opening(fn, hooks, kwargs, b);
    var c := Closing(fn, hooks, kwargs, b, Single(v));
    assert SpanTrace(fn, hooks, kwargs, b, Single(v)) == o + [] + c;
    assert o + [] + c == o + c;
    OpeningClosingProjection(fn, hooks, kwargs, b, Single(v));
    YieldsAppend(o, c);
    AfterOutputsAppend(o, c);
  }

  /**
   * When the before-hook returns a context manager, the context is entered right
   * after the hook and before the wrapped function is called, the after-hook runs
   * inside it with the entered value, and leaving the context is the last event.
   */
  lemma ContextManagerBracketsCall(fn: PyFunction, hooks: Hooks, kwargs: map<string, Value>, b: BeforeResult, out: Output)
    requires EntersContext(hooks, b)
    ensures var t := SpanTrace(fn, hooks, kwargs, b, out);
      && |t| >= 4
      && t[0] == BeforeHook(fn, kwargs + hooks.custom) && t[1] == Enter && t[2] == Invoke(fn, kwargs)
      && t[|t| - 1] == Exit
      && (hooks.hasAfter ==> t[|t| - 2] == AfterHook(fn, out, b.entered, kwargs + hooks.custom))
  {
    var o := Opening(fn, hooks, kwargs, b);
    var c := Closing(fn, hooks, kwargs, b, out);
    var mid := match out case Single(_) => [] case Collected(vs) => YieldEvents(vs);
    assert o == [BeforeHook(fn, kwargs + hooks.custom), Enter, Invoke(fn, kwargs)];
    assert SpanTrace(fn, hooks, kwargs, b, out) == o + mid + c;
  }

  /** Without a before-hook the after-hook receives `None` as the before-value. */
  lemma NoBeforeHookGivesNone(fn: PyFunction, hooks: Hooks, kwargs: map<string, Value>, b: BeforeResult, out: Output)
    requires !hooks.hasBefore && hooks.hasAfter
    ensures var t := SpanTrace(fn, hooks, kwargs, b, out);
      && t[0] == Invoke(fn, kwargs)
      && t[|t| - 1] == AfterHook(fn, out, PyNone, kwargs + hooks.custom)
  {
    var mid := match out case Single(_) => [] case Collected(vs) => YieldEvents(vs);
    assert SpanTrace(fn, hooks, kwargs, b, out) == [Invoke(fn, kwargs)] + mid + [AfterHook(fn, out, PyNone, kwargs + hooks.custom)];
  }

  /** The observable side effects of calling wrappers. */
  class SpanLog {
    var events: seq<Event>

    constructor ()
      ensures events == []
    {
      events := [];
    }

    /**
     * The start of every wrapper: the before-hook call, if any; entering the
     * context it returned, if it returned one; then calling the wrapped function.
     */
    method Open(fn: PyFunction, hooks: Hooks, kwargs: map<string, Value>, before: BeforeResult)
      returns (inContext: bool, beforeValue: Value)
      modifies this
      ensures inContext == EntersContext(hooks, before) && beforeValue == BeforeArg(hooks, before)
      ensures events == old(events) + Opening(fn, hooks, kwargs, before)
    {
      var beforeCall: Option<BeforeResult> := None;
      var pre: seq<Event> := [];
      if hooks.hasBefore {
        pre := [BeforeHook(fn, kwargs + hooks.custom)];
        beforeCall := Some(before);
      }
      inContext := beforeCall.Some? && beforeCall.value.ContextManager?;
      beforeValue := PyNone;
      var enter: seq<Event> := [];
      if inContext {
        enter := [Enter];
        beforeValue := beforeCall.value.entered;
      } else if beforeCall.Some? {
        beforeValue := beforeCall.value.value;
      }
      events := events + (pre + enter + [Invoke(fn, kwargs)]);
    }

    /** The end of every wrapper: the after-hook call, if any, then leaving the context, if one was entered. */
    method Close(fn: PyFunction, hooks: Hooks, kwargs: map<string, Value>, ghost before: BeforeResult,
                 inContext: bool, beforeValue: Value, out: Output)
      requires inContext == EntersContext(hooks, before) && beforeValue == BeforeArg(hooks, before)
      modifies this
      ensures events == old(events) + Closing(fn, hooks, kwargs, before, out)
    {
      var after: seq<Event> := [];
      if hooks.hasAfter {
        after := [AfterHook(fn, out, beforeValue, kwargs + hooks.custom)];
      }
      var exit: seq<Event> := [];
      if inContext {
        exit := [Exit];
      }
      events := events + (after + exit);
    }

    /**
     * One call of the `wrapper` / `wrapper_async` shape of `w`. The wrapped
     * function returns `result`; `before` is what the before-hook returns if there
     * is one. The wrapper returns `result` unchanged.
     */
    method CallValueWrapper(w: PyFunction, kwargs: map<string, Value>, before: BeforeResult, result: Value)
      returns (r: Value)
      requires w.Span? && (w.shape == PlainFunction || w.shape == Coroutine)
      requires (w.hooks.hasBefore || w.hooks.hasAfter) ==> kwargs.Keys !! w.hooks.custom.Keys
      modifies this
      ensures r == result
      ensures events == old(events) + SpanTrace(w.wrapped, w.hooks, kwargs, before, Single(result))
    {
      var fn, hooks := w.wrapped, w.hooks;
      var inContext, beforeValue := Open(fn, hooks, kwargs, before);
      ghost var afterOpen := events;
      r := result;
      Close(fn, hooks, kwargs, before, inContext, beforeValue, Single(r));
      assert events == afterOpen + Closing(fn, hooks, kwargs, before, Single(result));
      SpanTraceParts(fn, hooks, kwargs, before, Single(result));
    }

    /** The body of the generator wrapper: each value of the wrapped generator is collected and yielded. */
    method YieldAll(values: seq<Value>) returns (output: seq<Value>)
      modifies this
      ensures output == values
      ensures events == old(events) + YieldEvents(values)
    {
      output := [];
      for i := 0 to |values|
        invariant output == values[..i]
        invariant events == old(events) + YieldEvents(values[..i])
      {
        output := output + [values[i]];
        events := events + [Yield(values[i])];
        YieldEventsSnoc(values, i);
      }
      assert values[..|values|] == values;
    }

    /**
     * One complete iteration of the `wrapper_generator` / `wrapper_generator_async`
     * shape of `w`, whose wrapped generator yields `values`. Every value is
     * appended to the output list and yielded; `yielded` is what the caller
     * receives.
     */
    method IterateGeneratorWrapper(w: PyFunction, kwargs: map<string, Value>, before: BeforeResult, values: seq<Value>)
      returns (yielded: seq<Value>)
      requires w.Span? && (w.shape == Generator || w.shape == AsyncGenerator)
      requires (w.hooks.hasBefore || w.hooks.hasAfter) ==> kwargs.Keys !! w.hooks.custom.Keys
      modifies this
      ensures yielded == values
      ensures events == old(events) + SpanTrace(w.wrapped, w.hooks, kwargs, before, Collected(values))
    {
      var fn, hooks := w.wrapped, w.hooks;
      var inContext, beforeValue := Open(fn, hooks, kwargs, before);
      ghost var afterOpen := events;
      var output := YieldAll(values);
      yielded := output;
      ghost var afterYields := events;
      Close(fn, hooks, kwargs, before, inContext, beforeValue, Collected(output));
      assert events == afterYields + Closing(fn, hooks, kwargs, before, Collected(values));
      SpanTraceParts(fn, hooks, kwargs, before, Collected(values));
    }
  }
}
