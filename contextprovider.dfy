/**
 * The identity-keyed context registry: a process-wide table from a function's
 * symbol name to the context provided for it, written by Provide, read by
 * Inject and InjectValue from inside the receiver, and emptied entry by entry
 * by the release handle and by FreeContext.
 *
 * Runtime introspection is an oracle here: a function argument arrives already
 * resolved to its symbol name (`Fn(name)`), and the caller of the retrieval
 * surface arrives as the symbol name of the inspected stack frame, or `None`
 * when the stack could not be inspected.
 */
module ContextProvider {
  import opened Wrappers
  import opened Contexts

  /** An argument of Provide or FreeContext: a function value, known by its symbol name, or a value of another kind. */
  datatype Arg = Fn(name: string) | NotFn

  /** The registry's contents: symbol name to the stored context. */
  type Table = map<string, Context>

  /**
   * The error Provide reports. `NotFunctions` stands for the joined list of
   * "not a function" errors, one per offending argument, kept here as the
   * argument positions in the order they were met.
   */
  datatype ProvideError = NilContext | NotFunctions(positions: seq<nat>)

  /** The release handle: the shared no-op, or the closure that deletes one key. */
  datatype Release = NoOp | Delete(key: string)

  datatype Provision = Provision(table: Table, err: Option<ProvideError>)
  datatype Injection = Injection(ctx: Context, ok: bool, free: Release)
  datatype Typed = Typed(value: Value, ok: bool)
  datatype ValueInjection = ValueInjection(value: Value, ok: bool, free: Release)

  /** The key getFuncKey yields; it reports an error exactly for `NotFn`, and the key is then empty. */
  function FuncKey(f: Arg): (r: string)
    ensures r == "" <==> f.NotFn? || f.name == ""
    ensures f.Fn? ==> r == f.name
  {
    match f
    case Fn(name) => name
    case NotFn => ""
  }

  /** The key getInjectKey yields: empty when the stack frame cannot be inspected. */
  function InjectKey(frame: Option<string>): (r: string)
    ensures r == "" <==> frame.None? || frame.value == ""
    ensures frame.Some? ==> r == frame.value
  {
    match frame
    case None => ""
    case Some(name) => name
  }

  /** The table after Provide's loop has written `c` for every function among `funcs`, left to right. */
  function Stored(m: Table, c: Context, funcs: seq<Arg>): Table
    decreases |funcs|
  {
    if funcs == [] then m
    else
      var prev := Stored(m, c, funcs[..|funcs| - 1]);
      var f := funcs[|funcs| - 1];
      if f.NotFn? then prev else prev[FuncKey(f) := c]
  }

  /** The positions of the arguments for which Provide's loop records an error, in order. */
  function NotFunctionPositions(funcs: seq<Arg>): seq<nat>
    decreases |funcs|
  {
    if funcs == [] then []
    else
      NotFunctionPositions(funcs[..|funcs| - 1])
        + (if funcs[|funcs| - 1].NotFn? then [|funcs| - 1] else [])
  }

  /** Provide on a table: the new table and the reported error. */
  function Provided(m: Table, ctx: Option<Context>, funcs: seq<Arg>): Provision
  {
    match ctx
    case None => Provision(m, Some(NilContext))
    case Some(c) =>
      var ps := NotFunctionPositions(funcs);
      Provision(Stored(m, c, funcs), if |ps| > 0 then Some(NotFunctions(ps)) else None)
  }

  /** inject on a table, for the caller found in `frame`. */
  function Injected(m: Table, frame: Option<string>): Injection
  {
    var key := InjectKey(frame);
    if key == "" then Injection(Background, false, NoOp)
    else if key !in m then Injection(Background, false, NoOp)
    else Injection(m[key], true, Delete(key))
  }

  /**
   * ContextValue[T]: the value bound to `key` in `ctx` when its dynamic type is
   * `t`, and otherwise the zero value of `t` with ok false.
   */
  function ContextValue(ctx: Context, key: Value, t: Type): (r: Typed)
    ensures r.ok <==> Lookup(ctx, key).Some? && TypeOf(Lookup(ctx, key).value) == t
    ensures r.ok ==> Lookup(ctx, key) == Some(r.value)
    ensures !r.ok ==> r.value == Zero(t)
    ensures TypeOf(r.value) == t
  {
    match Lookup(ctx, key)
    case Some(v) => if TypeOf(v) == t then Typed(v, true) else Typed(Zero(t), false)
    case None => Typed(Zero(t), false)
  }

  /** InjectValue[T] on a table. */
  function InjectedValue(m: Table, frame: Option<string>, key: Value, t: Type): ValueInjection
  {
    var inj := Injected(m, frame);
    if !inj.ok then ValueInjection(Zero(t), false, inj.free)
    else
      var tv := ContextValue(inj.ctx, key, t);
      ValueInjection(tv.value, tv.ok, inj.free)
  }

  /** The table after a release handle has been called. */
  function Released(m: Table, h: Release): Table
  {
    match h
    case NoOp => m
    case Delete(key) => m - {key}
  }

  /** The table after FreeContext's loop has deleted the key of every argument, left to right. */
  function Freed(m: Table, funcs: seq<Arg>): Table
    decreases |funcs|
  {
    if funcs == [] then m
    else Freed(m, funcs[..|funcs| - 1]) - {FuncKey(funcs[|funcs| - 1])}
  }

  /** Some argument among `funcs` resolves to `key` (a non-function resolves to the empty key). */
  predicate Resolves(funcs: seq<Arg>, key: string)
  {
    exists i :: 0 <= i < |funcs| && FuncKey(funcs[i]) == key
  }

  /** The registry, `contextMap`: created empty, updated in place by Provide and the free operations. */
  class Registry {
    var entries: Table

    constructor ()
      ensures entries == map[]
    {
      entries := map[];
    }

    /**
     * Provide(ctx, first, rest...): stores `ctx` for every function argument,
     * carries on past arguments that are not functions, and reports them all.
     */
    method Provide(ctx: Option<Context>, first: Arg, rest: seq<Arg>) returns (err: Option<ProvideError>)
      modifies this
      ensures Provision(entries, err) == Provided(old(entries), ctx, [first] + rest)
      ensures ctx.None? ==> entries == old(entries) && err == Some(NilContext)
      ensures err.None? <==> ctx.Some? && forall f :: f in [first] + rest ==> f.Fn?
    {
      if ctx.None? {
        return Some(NilContext);
      }
      var c := ctx.value;
      var funcs := [first] + rest;
      var errs: seq<nat> := [];
      var i := 0;
      while i < |funcs|
        invariant 0 <= i <= |funcs|
        invariant entries == Stored(old(entries), c, funcs[..i])
        invariant errs == NotFunctionPositions(funcs[..i])
      {
        var f := funcs[i];
        assert funcs[..i + 1][..i] == funcs[..i];
        if f.NotFn? {
          errs := errs + [i];
        } else {
          entries := entries[FuncKey(f) := c];
        }
        i := i + 1;
      }
      assert funcs[..i] == funcs;
      err := if |errs| > 0 then Some(NotFunctions(errs)) else None;
      ProvideErrorIff(old(entries), ctx, funcs);
    }

    /** Inject (and inject): the caller's stored context, or the background context and the no-op handle. */
    method Inject(frame: Option<string>) returns (ctx: Context, ok: bool, free: Release)
      ensures Injection(ctx, ok, free) == Injected(entries, frame)
      ensures ok <==> InjectKey(frame) != "" && InjectKey(frame) in entries
      ensures ok ==> ctx == entries[InjectKey(frame)] && free == Delete(InjectKey(frame))
      ensures !ok ==> ctx == Background && free == NoOp
    {
      var r := Injected(entries, frame);
      ctx, ok, free := r.ctx, r.ok, r.free;
    }

    /**
     * InjectValue[T](key): the caller's value of type `t` under `key`. A miss on
     * the key or the type still hands back the entry's real release handle.
     */
    method InjectValue(frame: Option<string>, key: Value, t: Type) returns (value: Value, ok: bool, free: Release)
      ensures ValueInjection(value, ok, free) == InjectedValue(entries, frame, key, t)
      ensures free == Injected(entries, frame).free
      ensures TypeOf(value) == t
      ensures ok <==> Injected(entries, frame).ok && ContextValue(entries[InjectKey(frame)], key, t).ok
      ensures ok ==> Lookup(entries[InjectKey(frame)], key) == Some(value)
      ensures !ok ==> value == Zero(t)
    {
      var ctx, injected, handle := Inject(frame);
      free := handle;
      if !injected {
        return Zero(t), false, free;
      }
      var tv := ContextValue(ctx, key, t);
      value, ok := tv.value, tv.ok;
    }

    /** Calls a release handle. */
    method Free(h: Release)
      modifies this
      ensures entries == Released(old(entries), h)
    {
      match h {
        case NoOp =>
        case Delete(key) => FreeFunc(key);
      }
    }

    /** freeFunc: deletes one key, present or not. */
    method FreeFunc(key: string)
      modifies this
      ensures entries == old(entries) - {key}
    {
      entries := entries - {key};
    }

    /** FreeContext(funcs...): deletes the key of every argument, ignoring resolution errors. */
    method FreeContext(funcs: seq<Arg>)
      modifies this
      ensures entries == Freed(old(entries), funcs)
      ensures forall k :: k in entries <==> k in old(entries) && !Resolves(funcs, k)
      ensures forall k :: k in entries ==> entries[k] == old(entries)[k]
    {
      var i := 0;
      while i < |funcs|
        invariant 0 <= i <= |funcs|
        invariant entries == Freed(old(entries), funcs[..i])
      {
        assert funcs[..i + 1][..i] == funcs[..i];
        FreeFunc(FuncKey(funcs[i]));
        i := i + 1;
      }
      assert funcs[..i] == funcs;
      forall k
        ensures k in entries <==> k in old(entries) && !Resolves(funcs, k)
        ensures k in entries ==> entries[k] == old(entries)[k]
      {
        FreedAt(old(entries), funcs, k);
      }
    }
  }

  /** Provide's loop leaves every key named by a function argument mapped to `c`, and every other key as it was. */
  lemma {:induction false} StoredAt(m: Table, c: Context, funcs: seq<Arg>, k: string)
    ensures k in Stored(m, c, funcs) <==> k in m || Fn(k) in funcs
    ensures Fn(k) in funcs ==> Stored(m, c, funcs)[k] == c
    ensures Fn(k) !in funcs && k in m ==> Stored(m, c, funcs)[k] == m[k]
    decreases |funcs|
  {
    if funcs != [] {
      var init, last := funcs[..|funcs| - 1], funcs[|funcs| - 1];
      assert funcs == init + [last];
      StoredAt(m, c, init, k);
    }
  }

  /** The recorded error positions are exactly the positions of the non-function arguments, in increasing order. */
  lemma {:induction false} NotFunctionPositionsExact(funcs: seq<Arg>)
    ensures forall j: nat :: j in NotFunctionPositions(funcs) <==> j < |funcs| && funcs[j].NotFn?
    ensures forall a, b :: 0 <= a < b < |NotFunctionPositions(funcs)| ==>
      NotFunctionPositions(funcs)[a] < NotFunctionPositions(funcs)[b]
    decreases |funcs|
  {
    if funcs != [] {
      var init, last := funcs[..|funcs| - 1], funcs[|funcs| - 1];
      var n := |init|;
      NotFunctionPositionsExact(init);
      var ps := NotFunctionPositions(init);
      var tail: seq<nat> := if last.NotFn? then [n] else [];
      assert NotFunctionPositions(funcs) == ps + tail;
      forall j: nat
        ensures j in ps + tail <==> j < |funcs| && funcs[j].NotFn?
      {
        if j < n {
          assert funcs[j] == init[j];
        }
      }
      forall a, b | 0 <= a < b < |ps + tail|
        ensures (ps + tail)[a] < (ps + tail)[b]
      {
        if |ps| <= b {
          assert (ps + tail)[a] == ps[a];
          assert ps[a] in ps;
        }
      }
    }
  }

  /** No error is recorded exactly when every argument is a function. */
  lemma {:induction false} NoPositionsIffAllFunctions(funcs: seq<Arg>)
    ensures NotFunctionPositions(funcs) == [] <==> forall f :: f in funcs ==> f.Fn?
    decreases |funcs|
  {
    if funcs != [] {
      var init, last := funcs[..|funcs| - 1], funcs[|funcs| - 1];
      assert funcs == init + [last];
      NoPositionsIffAllFunctions(init);
      if last.NotFn? {
        assert last in funcs;
        assert |NotFunctionPositions(funcs)| > 0;
      } else {
        assert NotFunctionPositions(funcs) == NotFunctionPositions(init);
        assert forall f :: f in funcs <==> f in init || f == last;
      }
    }
  }

  /** Provide reports no error exactly when the context is non-nil and every argument is a function. */
  lemma ProvideErrorIff(m: Table, ctx: Option<Context>, funcs: seq<Arg>)
    ensures Provided(m, ctx, funcs).err.None? <==> ctx.Some? && forall f :: f in funcs ==> f.Fn?
    ensures ctx.Some? && Provided(m, ctx, funcs).err.Some? ==>
      Provided(m, ctx, funcs).err.value.NotFunctions? &&
      forall j: nat :: j in Provided(m, ctx, funcs).err.value.positions <==> j < |funcs| && funcs[j].NotFn?
  {
    NoPositionsIffAllFunctions(funcs);
    NotFunctionPositionsExact(funcs);
  }

  /**
   * After Provide with a context: keys of function arguments hold that one
   * context (last write wins), every other key is untouched.
   */
  lemma ProvideFrame(m: Table, c: Context, funcs: seq<Arg>)
    ensures forall k :: k in Provided(m, Some(c), funcs).table <==> k in m || Fn(k) in funcs
    ensures forall k :: Fn(k) in funcs ==> Provided(m, Some(c), funcs).table[k] == c
    ensures forall k :: k in m && Fn(k) !in funcs ==> Provided(m, Some(c), funcs).table[k] == m[k]
  {
    forall k {
      StoredAt(m, c, funcs, k);
    }
  }

  /** A receiver named in Provide finds the context from inside itself, with the handle that deletes its own key. */
  lemma InjectAfterProvide(m: Table, c: Context, funcs: seq<Arg>, name: string)
    requires Fn(name) in funcs && name != ""
    ensures Injected(Provided(m, Some(c), funcs).table, Some(name)) == Injection(c, true, Delete(name))
  {
    StoredAt(m, c, funcs, name);
  }

  /** A caller not named in Provide sees what it saw before; on an empty registry that is nothing. */
  lemma InjectOutsideReceivers(m: Table, c: Context, funcs: seq<Arg>, frame: Option<string>)
    requires Fn(InjectKey(frame)) !in funcs
    ensures Injected(Provided(m, Some(c), funcs).table, frame) == Injected(m, frame)
  {
    StoredAt(m, c, funcs, InjectKey(frame));
  }

  /** A second Provide for the same receiver replaces the first context. */
  lemma ProvideOverwrites(m: Table, c1: Context, c2: Context, funcs1: seq<Arg>, funcs2: seq<Arg>, name: string)
    requires Fn(name) in funcs1 && Fn(name) in funcs2 && name != ""
    ensures Injected(Provided(Provided(m, Some(c1), funcs1).table, Some(c2), funcs2).table, Some(name)).ctx == c2
  {
    InjectAfterProvide(Provided(m, Some(c1), funcs1).table, c2, funcs2, name);
  }

  /** The handle from inject deletes exactly the caller's key, after which the caller finds nothing. */
  lemma ReleaseAfterInject(m: Table, frame: Option<string>)
    ensures Injected(m, frame).ok ==> Released(m, Injected(m, frame).free) == m - {InjectKey(frame)}
    ensures !Injected(m, frame).ok ==> Released(m, Injected(m, frame).free) == m
    ensures !Injected(Released(m, Injected(m, frame).free), frame).ok
  {
  }

  /** Calling one receiver's handle leaves every other receiver's retrieval as it was. */
  lemma ReleaseIndependent(m: Table, frame: Option<string>, other: Option<string>)
    requires InjectKey(other) != InjectKey(frame)
    ensures Injected(Released(m, Injected(m, frame).free), other) == Injected(m, other)
  {
  }

  /** FreeContext removes the key of every argument and nothing else. */
  lemma {:induction false} FreedAt(m: Table, funcs: seq<Arg>, k: string)
    ensures k in Freed(m, funcs) <==> k in m && !Resolves(funcs, k)
    ensures k in Freed(m, funcs) ==> Freed(m, funcs)[k] == m[k]
    decreases |funcs|
  {
    if funcs != [] {
      var init := funcs[..|funcs| - 1];
      FreedAt(m, init, k);
      if Resolves(init, k) {
        var i :| 0 <= i < |init| && FuncKey(init[i]) == k;
        assert FuncKey(funcs[i]) == k;
      }
      if Resolves(funcs, k) && FuncKey(funcs[|funcs| - 1]) != k {
        var i :| 0 <= i < |funcs| && FuncKey(funcs[i]) == k;
        assert FuncKey(init[i]) == k;
      }
    }
  }

  /** After FreeContext(f) the receiver f finds nothing; a receiver not named keeps its entry. */
  lemma FreeContextClears(m: Table, funcs: seq<Arg>, frame: Option<string>)
    ensures Fn(InjectKey(frame)) in funcs ==> !Injected(Freed(m, funcs), frame).ok
    ensures !Resolves(funcs, InjectKey(frame)) ==> Injected(Freed(m, funcs), frame) == Injected(m, frame)
  {
    var key := InjectKey(frame);
    FreedAt(m, funcs, key);
    if Fn(key) in funcs {
      var i :| 0 <= i < |funcs| && funcs[i] == Fn(key);
      assert FuncKey(funcs[i]) == key;
    }
  }

  /** A value bound in a context is extracted at its own type. */
  lemma ContextValueOfBinding(parent: Context, key: Value, v: Value)
    ensures ContextValue(WithValue(parent, key, v), key, TypeOf(v)) == Typed(v, true)
  {
  }

  /** At any other type the innermost binding yields the zero value, even when an outer binding has that type. */
  lemma ContextValueWrongType(parent: Context, key: Value, v: Value, t: Type)
    requires t != TypeOf(v)
    ensures ContextValue(WithValue(parent, key, v), key, t) == Typed(Zero(t), false)
  {
  }
}
