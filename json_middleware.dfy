// The argument check of the JSON middleware: before a POST handler runs, the
// keys of the request's JSON object are compared with the handler's
// annotated parameters. Types are abstract tags standing for Python type
// names; a value is an instance of a type exactly when their tags agree.

module JsonMiddleware {

  datatype Option<T> = None | Some(value: T)

  /** A Python type's `__name__`. */
  type TypeName = string

  /** The parts of a handler's signature the check reads: the positional
      parameter names and the annotations in declaration order (which may
      include `request` and `return`). */
  datatype Handler = Handler(args: seq<string>, annotations: seq<(string, TypeName)>)

  /** One member of the request's JSON object and the type name of its value. */
  datatype Entry = Entry(key: string, typeName: TypeName)

  /** A JSON object, in the order its members were sent. */
  type JsonObject = seq<Entry>

  predicate DistinctKeys(json: JsonObject)
  {
    forall i, j :: 0 <= i < j < |json| ==> json[i].key != json[j].key
  }

  predicate HasKey(json: JsonObject, key: string)
  {
    exists e :: e in json && e.key == key
  }

  /** The type name of `json[key]`, or None when the key is absent. */
  function Lookup(json: JsonObject, key: string): Option<TypeName>
  {
    if json == [] then None
    else if json[0].key == key then Some(json[0].typeName)
    else Lookup(json[1..], key)
  }

  /** Lookup finds a member exactly when the key is present, and in a JSON
      object (whose keys are distinct) it finds that member's type. */
  lemma {:induction false} LookupFinds(json: JsonObject, key: string)
    ensures Lookup(json, key).None? <==> !HasKey(json, key)
    ensures Lookup(json, key).Some? ==> Entry(key, Lookup(json, key).value) in json
    ensures DistinctKeys(json) ==>
              forall e :: e in json && e.key == key ==> Lookup(json, key) == Some(e.typeName)
    decreases |json|
  {
    if json != [] {
      LookupFinds(json[1..], key);
      assert json == [json[0]] + json[1..];
      if DistinctKeys(json) && json[0].key != key {
        assert DistinctKeys(json[1..]) by {
          forall i, j | 0 <= i < j < |json[1..]|
            ensures json[1..][i].key != json[1..][j].key
          {
            assert json[1..][i] == json[i + 1] && json[1..][j] == json[j + 1];
          }
        }
      }
      if DistinctKeys(json) && json[0].key == key {
        forall i | 0 < i < |json|
          ensures json[i].key != key
        {
          assert json[0].key != json[i].key;
        }
      }
    }
  }

  datatype ArgError =
    | Missing(arg: string)
    | WrongType(arg: string, expected: TypeName, passed: TypeName)
    | Redundant(arg: string)
  {
    function Message(): string
    {
      match this
      case Missing(arg) => arg + " is required but it is missing"
      case WrongType(arg, expected, passed) =>
        "Expected type of " + arg + " is " + expected + ", but " + passed + " was passed"
      case Redundant(arg) => "Redundant arg " + arg
    }
  }

  /** What the middleware does with the request: call the handler with the JSON
      members as keyword arguments, or answer 400 with the joined messages. */
  datatype Dispatch = Invoke | BadRequest(description: string)

  predicate Skipped(arg: string)
  {
    arg == "request" || arg == "return"
  }

  /** The errors one annotation contributes. */
  function ParamErrors(arg: string, expected: TypeName, json: JsonObject): seq<ArgError>
  {
    if Skipped(arg) then []
    else match Lookup(json, arg)
      case None => [Missing(arg)]
      case Some(passed) => if passed == expected then [] else [WrongType(arg, expected, passed)]
  }

  /** The errors of the first loop, over the annotations in declaration order. */
  function AnnotationErrors(annotations: seq<(string, TypeName)>, json: JsonObject): seq<ArgError>
  {
    if annotations == [] then []
    else
      var last := annotations[|annotations| - 1];
      AnnotationErrors(annotations[..|annotations| - 1], json) + ParamErrors(last.0, last.1, json)
  }

  /** The errors of the second loop, over the JSON members in order. */
  function RedundantErrors(json: JsonObject, args: seq<string>): seq<ArgError>
  {
    if json == [] then []
    else
      var last := json[|json| - 1];
      RedundantErrors(json[..|json| - 1], args) + (if last.key in args then [] else [Redundant(last.key)])
  }

  function Errors(h: Handler, json: JsonObject): seq<ArgError>
  {
    AnnotationErrors(h.annotations, json) + RedundantErrors(json, h.args)
  }

  function Messages(errors: seq<ArgError>): seq<string>
  {
    if errors == [] then [] else [errors[0].Message()] + Messages(errors[1..])
  }

  /** Python's `sep.join(parts)`. */
  function Join(parts: seq<string>, sep: string): string
  {
    if parts == [] then ""
    else if |parts| == 1 then parts[0]
    else parts[0] + sep + Join(parts[1..], sep)
  }

  /** The body of json_middleware after the JSON has been parsed. */
  method CheckArguments(h: Handler, json: JsonObject) returns (errors: seq<ArgError>, d: Dispatch)
    ensures errors == Errors(h, json)
    ensures d == if errors == [] then Invoke else BadRequest(Join(Messages(errors), "; "))
  {
    errors := [];
    for i := 0 to |h.annotations|
      invariant errors == AnnotationErrors(h.annotations[..i], json)
    {
      assert h.annotations[..i + 1][..i] == h.annotations[..i];
      var (arg, expected) := h.annotations[i];
      if arg == "request" || arg == "return" {
        continue;
      }
      var value := Lookup(json, arg);
      if value.None? {
        errors := errors + [Missing(arg)];
        continue;
      }
      if value.value != expected {
        errors := errors + [WrongType(arg, expected, value.value)];
      }
    }
    assert h.annotations[..|h.annotations|] == h.annotations;
    ghost var fromAnnotations := errors;
    for i := 0 to |json|
      invariant errors == fromAnnotations + RedundantErrors(json[..i], h.args)
    {
      assert json[..i + 1][..i] == json[..i];
      if json[i].key !in h.args {
        errors := errors + [Redundant(json[i].key)];
      }
    }
    assert json[..|json|] == json;
    if errors == [] {
      d := Invoke;
    } else {
      d := BadRequest(Join(Messages(errors), "; "));
    }
  }

  /** The first loop reports the annotations in declaration order: the errors of
      a signature split in two are the errors of its halves, in that order. */
  lemma {:induction false} AnnotationErrorsAppend(a: seq<(string, TypeName)>, b: seq<(string, TypeName)>, json: JsonObject)
    ensures AnnotationErrors(a + b, json) == AnnotationErrors(a, json) + AnnotationErrors(b, json)
    decreases |b|
  {
    if b == [] {
      assert a + b == a;
    } else {
      var n := |b| - 1;
      var ab := a + b;
      assert ab[..|ab| - 1] == a + b[..n];
      assert ab[|ab| - 1] == b[n];
      AnnotationErrorsAppend(a, b[..n], json);
      var last := ParamErrors(b[n].0, b[n].1, json);
      calc {
        AnnotationErrors(ab, json);
        AnnotationErrors(a + b[..n], json) + last;
        AnnotationErrors(a, json) + AnnotationErrors(b[..n], json) + last;
        AnnotationErrors(a, json) + (AnnotationErrors(b[..n], json) + last);
        AnnotationErrors(a, json) + AnnotationErrors(b, json);
      }
    }
  }

  /** The second loop reports the JSON members in the order they were sent. */
  lemma {:induction false} RedundantErrorsAppend(a: JsonObject, b: JsonObject, args: seq<string>)
    ensures RedundantErrors(a + b, args) == RedundantErrors(a, args) + RedundantErrors(b, args)
    decreases |b|
  {
    if b == [] {
      assert a + b == a;
    } else {
      var n := |b| - 1;
      var ab := a + b;
      assert ab[..|ab| - 1] == a + b[..n];
      assert ab[|ab| - 1] == b[n];
      RedundantErrorsAppend(a, b[..n], args);
      var tail := if b[n].key in args then [] else [Redundant(b[n].key)];
      calc {
        RedundantErrors(ab, args);
        RedundantErrors(a + b[..n], args) + tail;
        RedundantErrors(a, args) + RedundantErrors(b[..n], args) + tail;
        RedundantErrors(a, args) + RedundantErrors(b, args);
      }
    }
  }

  /** An error comes from the first loop exactly when one annotation produces it. */
  lemma {:induction false} AnnotationErrorsMember(annotations: seq<(string, TypeName)>, json: JsonObject, e: ArgError)
    ensures e in AnnotationErrors(annotations, json) <==>
              exists p :: p in annotations && e in ParamErrors(p.0, p.1, json)
    decreases |annotations|
  {
    if annotations != [] {
      var n := |annotations| - 1;
      var front := annotations[..n];
      AnnotationErrorsMember(front, json, e);
      assert annotations == front + [annotations[n]];
      if e in ParamErrors(annotations[n].0, annotations[n].1, json) {
        assert annotations[n] in annotations;
      }
      forall p | p in annotations && e in ParamErrors(p.0, p.1, json)
        ensures e in AnnotationErrors(annotations, json)
      {
        if p != annotations[n] {
          assert p in front;
        }
      }
    }
  }

  /** An error comes from the second loop exactly when it names a member the
      handler has no parameter for. */
  lemma {:induction false} RedundantErrorsMember(json: JsonObject, args: seq<string>, e: ArgError)
    ensures e in RedundantErrors(json, args) <==>
              e.Redundant? && HasKey(json, e.arg) && e.arg !in args
    decreases |json|
  {
    if json != [] {
      var n := |json| - 1;
      var front := json[..n];
      RedundantErrorsMember(front, args, e);
      assert json == front + [json[n]];
      if e.Redundant? && HasKey(json, e.arg) && e.arg !in args {
        var x :| x in json && x.key == e.arg;
        if x != json[n] {
          assert x in front;
        }
      }
    }
  }

  /** "<arg> is required but it is missing" is reported exactly for an annotated
      parameter other than request and return that the JSON lacks. */
  lemma MissingIff(h: Handler, json: JsonObject, arg: string)
    ensures Missing(arg) in Errors(h, json) <==>
              !Skipped(arg) && (exists t :: (arg, t) in h.annotations) && !HasKey(json, arg)
  {
    AnnotationErrorsMember(h.annotations, json, Missing(arg));
    RedundantErrorsMember(json, h.args, Missing(arg));
    LookupFinds(json, arg);
    if !Skipped(arg) && (exists t :: (arg, t) in h.annotations) && !HasKey(json, arg) {
      var t :| (arg, t) in h.annotations;
      assert Missing(arg) in ParamErrors(arg, t, json);
    }
  }

  /** A type error is reported exactly for an annotated parameter whose value is
      present with another type; so a missing parameter never gets one. */
  lemma WrongTypeIff(h: Handler, json: JsonObject, arg: string, expected: TypeName, passed: TypeName)
    ensures WrongType(arg, expected, passed) in Errors(h, json) <==>
              && !Skipped(arg)
              && (arg, expected) in h.annotations
              && Lookup(json, arg) == Some(passed)
              && passed != expected
  {
    AnnotationErrorsMember(h.annotations, json, WrongType(arg, expected, passed));
    RedundantErrorsMember(json, h.args, WrongType(arg, expected, passed));
    if !Skipped(arg) && (arg, expected) in h.annotations && Lookup(json, arg) == Some(passed) && passed != expected {
      assert WrongType(arg, expected, passed) in ParamErrors(arg, expected, json);
    }
  }

  /** "Redundant arg <key>" is reported exactly for a JSON member that is not a
      parameter of the handler. */
  lemma RedundantIff(h: Handler, json: JsonObject, key: string)
    ensures Redundant(key) in Errors(h, json) <==> HasKey(json, key) && key !in h.args
  {
    AnnotationErrorsMember(h.annotations, json, Redundant(key));
    RedundantErrorsMember(json, h.args, Redundant(key));
  }

  /** Every missing or type error is listed before every redundant-argument error. */
  lemma RedundantErrorsComeLast(h: Handler, json: JsonObject, i: nat, j: nat)
    requires i < j < |Errors(h, json)|
    requires Errors(h, json)[i].Redundant?
    ensures Errors(h, json)[j].Redundant?
  {
    var a := AnnotationErrors(h.annotations, json);
    var r := RedundantErrors(json, h.args);
    var e := Errors(h, json)[i];
    AnnotationErrorsMember(h.annotations, json, e);
    assert i >= |a|;
    assert Errors(h, json)[j] == r[j - |a|];
    assert r[j - |a|] in r;
    RedundantErrorsMember(json, h.args, r[j - |a|]);
  }

  /** The handler is called exactly when every annotated parameter is present
      with its declared type and every JSON member is a parameter. */
  lemma InvokeIff(h: Handler, json: JsonObject)
    ensures Errors(h, json) == [] <==>
              && (forall p :: p in h.annotations && !Skipped(p.0) ==> Lookup(json, p.0) == Some(p.1))
              && (forall e :: e in json ==> e.key in h.args)
  {
    var errors := Errors(h, json);
    if errors == [] {
      forall p | p in h.annotations && !Skipped(p.0)
        ensures Lookup(json, p.0) == Some(p.1)
      {
        LookupFinds(json, p.0);
        match Lookup(json, p.0)
        case None =>
          MissingIff(h, json, p.0);
        case Some(passed) =>
          WrongTypeIff(h, json, p.0, p.1, passed);
      }
      forall e | e in json
        ensures e.key in h.args
      {
        RedundantIff(h, json, e.key);
      }
    } else {
      var e := errors[0];
      assert e in errors;
      AnnotationErrorsMember(h.annotations, json, e);
      RedundantErrorsMember(json, h.args, e);
    }
  }

  /** A signature none of whose annotations fails contributes no error. */
  lemma {:induction false} NoAnnotationErrors(annotations: seq<(string, TypeName)>, json: JsonObject)
    requires forall p :: p in annotations ==> ParamErrors(p.0, p.1, json) == []
    ensures AnnotationErrors(annotations, json) == []
    decreases |annotations|
  {
    if annotations != [] {
      var n := |annotations| - 1;
      assert annotations[n] in annotations;
      NoAnnotationErrors(annotations[..n], json);
    }
  }

  /** A JSON object whose members are all parameters contributes no error. */
  lemma {:induction false} NoRedundantErrors(json: JsonObject, args: seq<string>)
    requires forall e :: e in json ==> e.key in args
    ensures RedundantErrors(json, args) == []
    decreases |json|
  {
    if json != [] {
      var n := |json| - 1;
      assert json[n] in json;
      NoRedundantErrors(json[..n], args);
    }
  }
}
