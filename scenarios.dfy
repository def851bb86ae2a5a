/**
 * The behaviours the repository's tests exercise, proved from the registry's
 * method contracts: each method's ensures are the observations the test makes.
 */
module Scenarios {
  import opened Wrappers
  import opened Contexts
  import opened ContextProvider

  /** A key of a user-defined string type, as the tests use, and the answer stored under it. */
  const Question: Value := NamedString("userDefinedType", "question")
  const Answer: Value := Int64(42)

  /**
   * A provider stores the answer for `receiver`. An `intermediate` function
   * cannot see it; `receiver` gets it once, frees it, and then gets nothing.
   */
  method ReceiverScenario() returns (outside: ValueInjection, inside: ValueInjection, afterFree: ValueInjection)
    ensures outside == ValueInjection(Int64(0), false, NoOp)
    ensures inside == ValueInjection(Answer, true, Delete("receiver"))
    ensures afterFree == ValueInjection(Int64(0), false, NoOp)
  {
    var registry := new Registry();
    var ctx := WithValue(Background, Question, Answer);
    var err := registry.Provide(Some(ctx), Fn("receiver"), []);
    ProvideFrame(map[], ctx, [Fn("receiver")]);
    var v, ok, free := registry.InjectValue(Some("intermediate"), Question, Int64Type);
    outside := ValueInjection(v, ok, free);
    v, ok, free := registry.InjectValue(Some("receiver"), Question, Int64Type);
    inside := ValueInjection(v, ok, free);
    registry.Free(free);
    v, ok, free := registry.InjectValue(Some("receiver"), Question, Int64Type);
    afterFree := ValueInjection(v, ok, free);
  }

  /**
   * One Provide for two receivers: the first receiver frees its own entry and
   * the second still gets the answer.
   */
  method TwoReceiversScenario() returns (first: ValueInjection, second: ValueInjection)
    ensures first == ValueInjection(Answer, true, Delete("receiver1"))
    ensures second == ValueInjection(Answer, true, Delete("receiver2"))
  {
    var registry := new Registry();
    var ctx := WithValue(Background, Question, Answer);
    var err := registry.Provide(Some(ctx), Fn("receiver1"), [Fn("receiver2")]);
    assert [Fn("receiver1")] + [Fn("receiver2")] == [Fn("receiver1"), Fn("receiver2")];
    ProvideFrame(map[], ctx, [Fn("receiver1"), Fn("receiver2")]);
    var v, ok, free := registry.InjectValue(Some("receiver1"), Question, Int64Type);
    first := ValueInjection(v, ok, free);
    registry.Free(free);
    v, ok, free := registry.InjectValue(Some("receiver2"), Question, Int64Type);
    second := ValueInjection(v, ok, free);
  }

  /** FreeContext on the receiver empties its entry; a later Inject from it gets the background context. */
  method ExplicitFreeScenario() returns (before: Injection, after: Injection)
    ensures before.ok && before.ctx != Background
    ensures after == Injection(Background, false, NoOp)
  {
    var registry := new Registry();
    var err := registry.Provide(Some(WithValue(Background, Question, Answer)), Fn("receiver"), []);
    var ctx, ok, free := registry.Inject(Some("receiver"));
    before := Injection(ctx, ok, free);
    registry.FreeContext([Fn("receiver")]);
    ctx, ok, free := registry.Inject(Some("receiver"));
    after := Injection(ctx, ok, free);
  }

  /** Provide rejects a non-function receiver and a nil context. */
  method RejectionScenario() returns (notAFunction: Option<ProvideError>, nilContext: Option<ProvideError>)
    ensures notAFunction == Some(NotFunctions([0]))
    ensures nilContext == Some(NilContext)
  {
    var registry := new Registry();
    assert [NotFn] + [] == [NotFn] && [NotFn][..0] == [];
    assert NotFunctionPositions([NotFn]) == [0];
    notAFunction := registry.Provide(Some(Background), NotFn, []);
    nilContext := registry.Provide(None, Fn("receiver"), []);
  }

  /** When the stack cannot be inspected, Inject reports no context even though one is stored. */
  method StubbedCallerScenario() returns (stubbed: Injection)
    ensures stubbed == Injection(Background, false, NoOp)
  {
    var registry := new Registry();
    var _ := registry.Provide(Some(Background), Fn("receiver"), []);
    var ctx, ok, free := registry.Inject(None);
    stubbed := Injection(ctx, ok, free);
  }

  /** ContextValue finds the answer at its own type and refuses it at the string type. */
  method ContextValueScenario() returns (asInt: Typed, asString: Typed)
    ensures asInt == Typed(Answer, true)
    ensures asString == Typed(String(""), false)
  {
    var ctx := WithValue(Background, Question, Answer);
    asInt := ContextValue(ctx, Question, Int64Type);
    asString := ContextValue(ctx, Question, StringType);
  }
}
