// The cases of the argument-check test, replayed on the model: two handler
// signatures and the JSON objects sent to them.

module ArgumentScenarios {
  import opened JsonMiddleware

  /** `handler_a(request: Any, a: int, b: str, c: float, d: bool, e: type(None)) -> int` */
  function HandlerA(): Handler
  {
    Handler(
      ["request", "a", "b", "c", "d", "e"],
      [("request", "Any"), ("a", "int"), ("b", "str"), ("c", "float"), ("d", "bool"), ("e", "NoneType"), ("return", "int")])
  }

  /** `handler_b(request: Any, a: list, b: dict)` */
  function HandlerB(): Handler
  {
    Handler(["request", "a", "b"], [("request", "Any"), ("a", "list"), ("b", "dict")])
  }

  /** The members handler_a accepts, as the successful test sends them. */
  function GoodJsonA(): JsonObject
  {
    [Entry("a", "int"), Entry("b", "str"), Entry("c", "float"), Entry("d", "bool"), Entry("e", "NoneType")]
  }

  lemma MessagesOfOne(e: ArgError)
    ensures Messages([e]) == [e.Message()]
  {
    assert [e][1..] == [];
  }

  /** The rendering the second case of the test expects. */
  lemma MissingMessage()
    ensures Messages([Missing("a")]) == ["a is required but it is missing"]
  {
    MessagesOfOne(Missing("a"));
    assert Missing("a").Message() == "a is required but it is missing";
  }

  /** The rendering the third case of the test expects. */
  lemma WrongTypeMessage()
    ensures Messages([WrongType("a", "int", "str")]) == ["Expected type of a is int, but str was passed"]
  {
    MessagesOfOne(WrongType("a", "int", "str"));
    assert WrongType("a", "int", "str").Message() == "Expected type of a is int, but str was passed";
  }

  /** The rendering the fourth case of the test expects. */
  lemma RedundantMessage()
    ensures Messages([Redundant("f")]) == ["Redundant arg f"]
  {
    MessagesOfOne(Redundant("f"));
    assert Redundant("f").Message() == "Redundant arg f";
  }

  lemma SwappedMessageA()
    ensures WrongType("a", "list", "dict").Message() == "Expected type of a is list, but dict was passed"
  {
  }

  lemma SwappedMessageB()
    ensures WrongType("b", "dict", "list").Message() == "Expected type of b is dict, but list was passed"
  {
  }

  /** The rendering the last case of the test expects. */
  lemma SwappedMessages()
    ensures Messages([WrongType("a", "list", "dict"), WrongType("b", "dict", "list")])
            == ["Expected type of a is list, but dict was passed", "Expected type of b is dict, but list was passed"]
  {
    var errors := [WrongType("a", "list", "dict"), WrongType("b", "dict", "list")];
    assert errors[1..] == [errors[1]];
    MessagesOfOne(errors[1]);
    SwappedMessageA();
    SwappedMessageB();
  }

  /** The annotations of handler_a after `a`. */
  function TailA(): seq<(string, TypeName)>
  {
    [("b", "str"), ("c", "float"), ("d", "bool"), ("e", "NoneType"), ("return", "int")]
  }

  /** Every annotation of handler_a after `a` is satisfied by these members. */
  lemma TailOfHandlerAHolds(json: JsonObject)
    requires DistinctKeys(json)
    requires Entry("b", "str") in json && Entry("c", "float") in json
    requires Entry("d", "bool") in json && Entry("e", "NoneType") in json
    ensures AnnotationErrors(TailA(), json) == []
  {
    LookupFinds(json, "b");
    LookupFinds(json, "c");
    LookupFinds(json, "d");
    LookupFinds(json, "e");
    assert ParamErrors("b", "str", json) == [];
    assert ParamErrors("c", "float", json) == [];
    assert ParamErrors("d", "bool", json) == [];
    assert ParamErrors("e", "NoneType", json) == [];
    assert ParamErrors("return", "int", json) == [];
    NoAnnotationErrors(TailA(), json);
  }

  /** For a handler whose first parameters are `request` and one more, the
      errors are those about that parameter, then those about the rest, then the
      redundant members. */
  lemma ErrorsAfterRequest(h: Handler, json: JsonObject, arg: string, t: TypeName, rest: seq<(string, TypeName)>)
    requires h.annotations == [("request", "Any"), (arg, t)] + rest
    ensures Errors(h, json)
            == ParamErrors(arg, t, json) + AnnotationErrors(rest, json) + RedundantErrors(json, h.args)
  {
    var request := ("request", "Any");
    var head := [request, (arg, t)];
    assert AnnotationErrors([request], json) == [] by { assert [request][..0] == []; }
    assert head[..1] == [request];
    assert AnnotationErrors(head, json) == ParamErrors(arg, t, json);
    AnnotationErrorsAppend(head, rest, json);
  }

  /** handler_a's errors: those about `a`, then those about the rest, then the
      redundant members. */
  lemma HandlerAErrors(json: JsonObject)
    ensures Errors(HandlerA(), json)
            == ParamErrors("a", "int", json) + AnnotationErrors(TailA(), json) + RedundantErrors(json, HandlerA().args)
  {
    assert HandlerA().annotations == [("request", "Any"), ("a", "int")] + TailA();
    ErrorsAfterRequest(HandlerA(), json, "a", "int", TailA());
  }

  /** test_check_args, first case: every argument present with its type. */
  lemma HandlerAAcceptsGoodJson(json: JsonObject)
    requires json == GoodJsonA()
    ensures Errors(HandlerA(), json) == []
  {
    HandlerAErrors(json);
    GoodJsonAIsComplete(json);
    NoRedundantErrors(json, HandlerA().args);
  }

  /** Every annotation of handler_a is satisfied by the members of GoodJsonA. */
  lemma GoodJsonAIsComplete(json: JsonObject)
    requires json == GoodJsonA() || json == GoodJsonA() + [Entry("f", "str")]
    ensures ParamErrors("a", "int", json) == []
    ensures AnnotationErrors(TailA(), json) == []
  {
    TailOfHandlerAHolds(json);
    LookupFinds(json, "a");
  }

  /** test_check_args, second case: `a` left out. */
  lemma HandlerAReportsMissing(json: JsonObject)
    requires json == [Entry("b", "str"), Entry("c", "float"), Entry("d", "bool"), Entry("e", "NoneType")]
    ensures Errors(HandlerA(), json) == [Missing("a")]
  {
    HandlerAErrors(json);
    TailOfHandlerAHolds(json);
    LookupFinds(json, "a");
    assert !HasKey(json, "a");
    assert ParamErrors("a", "int", json) == [Missing("a")];
    NoRedundantErrors(json, HandlerA().args);
  }

  /** test_check_args, third case: `a` sent as a string. */
  lemma HandlerAReportsWrongType(json: JsonObject)
    requires json == [Entry("a", "str"), Entry("b", "str"), Entry("c", "float"), Entry("d", "bool"), Entry("e", "NoneType")]
    ensures Errors(HandlerA(), json) == [WrongType("a", "int", "str")]
  {
    HandlerAErrors(json);
    TailOfHandlerAHolds(json);
    assert ParamErrors("a", "int", json) == [WrongType("a", "int", "str")];
    NoRedundantErrors(json, HandlerA().args);
  }

  /** test_check_args, fourth case: an extra member `f`. */
  lemma HandlerAReportsRedundant(json: JsonObject)
    requires json == GoodJsonA() + [Entry("f", "str")]
    ensures Errors(HandlerA(), json) == [Redundant("f")]
  {
    HandlerAErrors(json);
    GoodJsonAIsComplete(json);
    OnlyFIsRedundant(json);
  }

  lemma OnlyFIsRedundant(json: JsonObject)
    requires json == GoodJsonA() + [Entry("f", "str")]
    ensures RedundantErrors(json, HandlerA().args) == [Redundant("f")]
  {
    var sent := json[..|json| - 1];
    assert sent == GoodJsonA();
    assert json[|json| - 1] == Entry("f", "str");
    assert "f" !in HandlerA().args;
    NoRedundantErrors(sent, HandlerA().args);
  }

  /** handler_b's errors: those about `a`, then `b`, then the redundant members. */
  lemma HandlerBErrors(json: JsonObject)
    ensures Errors(HandlerB(), json)
            == ParamErrors("a", "list", json) + ParamErrors("b", "dict", json) + RedundantErrors(json, HandlerB().args)
  {
    var rest := [("b", "dict")];
    assert HandlerB().annotations == [("request", "Any"), ("a", "list")] + rest;
    ErrorsAfterRequest(HandlerB(), json, "a", "list", rest);
    assert rest[..0] == [];
  }

  /** test_check_args, handler_b: both member orders are accepted. */
  lemma HandlerBAcceptsEitherOrder(json: JsonObject)
    requires json == [Entry("a", "list"), Entry("b", "dict")] || json == [Entry("b", "dict"), Entry("a", "list")]
    ensures Errors(HandlerB(), json) == []
  {
    HandlerBErrors(json);
    LookupFinds(json, "a");
    LookupFinds(json, "b");
    assert ParamErrors("a", "list", json) == [] && ParamErrors("b", "dict", json) == [];
    NoRedundantErrors(json, HandlerB().args);
  }

  /** test_check_args, handler_b: swapped types are reported in declaration order. */
  lemma HandlerBReportsSwappedTypes(json: JsonObject)
    requires json == [Entry("a", "dict"), Entry("b", "list")]
    ensures Errors(HandlerB(), json) == [WrongType("a", "list", "dict"), WrongType("b", "dict", "list")]
  {
    HandlerBErrors(json);
    LookupFinds(json, "a");
    LookupFinds(json, "b");
    assert ParamErrors("a", "list", json) == [WrongType("a", "list", "dict")];
    assert ParamErrors("b", "dict", json) == [WrongType("b", "dict", "list")];
    NoRedundantErrors(json, HandlerB().args);
  }
}
