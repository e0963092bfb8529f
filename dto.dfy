/**
 * The validation gate of src/config/dto.ts. `validate` and `plainToInstance` belong to
 * class-validator and class-transformer; their results (the error tree and the
 * transformed body) are inputs here.
 */
module Dto {
  import opened Wrappers
  import opened Json
  import opened HttpResponses
  import opened Metadata
  import opened Seqs

  /** class-validator's `ValidationError`: the failed constraints' messages and the nested errors. */
  datatype ValidationError = ValidationError(constraints: Option<seq<string>>, children: seq<ValidationError>)

  function OwnMessages(e: ValidationError): seq<string> {
    e.constraints.GetOr([])
  }

  /** Reference order: each error's own messages, then its children's, then the next sibling's. */
  function Flatten(errors: seq<ValidationError>): seq<string>
    decreases errors
  {
    if errors == [] then []
    else OwnMessages(errors[0]) + Flatten(errors[0].children) + Flatten(errors[1..])
  }

  /** The number of constraint messages anywhere in the forest. */
  function MessageCount(errors: seq<ValidationError>): nat
    decreases errors
  {
    if errors == [] then 0
    else |OwnMessages(errors[0])| + MessageCount(errors[0].children) + MessageCount(errors[1..])
  }

  /** Flattening distributes over concatenation of sibling lists. */
  lemma {:induction false} FlattenAppend(a: seq<ValidationError>, b: seq<ValidationError>)
    ensures Flatten(a + b) == Flatten(a) + Flatten(b)
    decreases |a|
  {
    if a == [] {
      assert a + b == b;
    } else {
      assert (a + b)[0] == a[0];
      assert (a + b)[1..] == a[1..] + b;
      FlattenAppend(a[1..], b);
    }
  }

  /** Nothing is lost or invented: the output has one entry per constraint message of the forest. */
  lemma {:induction false} FlattenLength(errors: seq<ValidationError>)
    ensures |Flatten(errors)| == MessageCount(errors)
    decreases errors
  {
    if errors != [] {
      FlattenLength(errors[0].children);
      FlattenLength(errors[1..]);
    }
  }

  /**
   * A node without constraints contributes only its children's messages, so a leaf without
   * constraints contributes nothing.
   */
  lemma NodeWithoutConstraints(children: seq<ValidationError>, rest: seq<ValidationError>)
    ensures Flatten([ValidationError(None, children)] + rest) == Flatten(children) + Flatten(rest)
    ensures Flatten([ValidationError(None, [])]) == []
  {
    assert ([ValidationError(None, children)] + rest)[1..] == rest;
    assert [ValidationError(None, [])][1..] == [];
  }

  lemma FlattenSingle(e: ValidationError)
    ensures Flatten([e]) == OwnMessages(e) + Flatten(e.children)
  {
    assert [e][1..] == [];
  }

  /** `extractErrorMessages`, accumulating into a local list with a loop and recursion. */
  method ExtractErrorMessages(errors: seq<ValidationError>) returns (messages: seq<string>)
    ensures messages == Flatten(errors)
    decreases errors
  {
    messages := [];
    var i := 0;
    while i < |errors|
      invariant 0 <= i <= |errors|
      invariant messages == Flatten(errors[..i])
    {
      var error := errors[i];
      ghost var before := messages;
      if error.constraints.Some? {
        messages := messages + error.constraints.value;
      }
      assert messages == before + OwnMessages(error);
      if |error.children| > 0 {
        var nested := ExtractErrorMessages(error.children);
        messages := messages + nested;
      }
      assert messages == before + OwnMessages(error) + Flatten(error.children);
      assert errors[..i + 1] == errors[..i] + [error];
      FlattenAppend(errors[..i], [error]);
      FlattenSingle(error);
      Associative(before, OwnMessages(error), Flatten(error.children));
      i := i + 1;
    }
    assert errors[..|errors|] == errors;
  }

  const InvalidDataMessage := "Dados inválidos"

  function Strings(ss: seq<string>): (vs: seq<Value>)
    ensures |vs| == |ss| && forall i :: 0 <= i < |ss| ==> vs[i] == Str(ss[i])
  {
    if ss == [] then [] else [Str(ss[0])] + Strings(ss[1..])
  }

  /** The 400 payload `{message: "Dados inválidos", errors: messages}`. */
  function RejectionPayload(messages: seq<string>): Value {
    Obj(map["message" := Str(InvalidDataMessage), "errors" := Arr(Strings(messages))])
  }

  /** The request; the gate replaces its body. */
  class Request {
    var body: Value

    constructor (body: Value)
      ensures this.body == body
    {
      this.body := body;
    }
  }

  /** Whether the gate answered itself or hands the request to the decorated handler. */
  datatype GateOutcome = Rejected | Delegated(handler: Handler)

  /**
   * The wrapper `ValidatedDTO` installs, run on one request: any validation error (counted
   * as errors, not messages) gives a 400 with the flattened messages and the handler is
   * not called; otherwise the body becomes the transformed instance and the original
   * handler is called, exactly once, with the same request and response.
   */
  method RunValidated(original: Handler, req: Request, res: Response, dtoInstance: Value,
                      errors: seq<ValidationError>, date: string)
    returns (outcome: GateOutcome)
    modifies req, res
    ensures |errors| > 0 ==>
      && outcome == Rejected
      && res.reply == Some(Respond(BadRequest, Some(RejectionPayload(Flatten(errors))), date))
      && req.body == old(req.body)
    ensures |errors| == 0 ==>
      outcome == Delegated(original) && req.body == dtoInstance && res.reply == old(res.reply)
  {
    if |errors| > 0 {
      var errorMessages := ExtractErrorMessages(errors);
      SendBadRequest(res, RejectionPayload(errorMessages), date);
      return Rejected;
    }
    req.body := dtoInstance;
    return Delegated(original);
  }

  /** A 400 can carry an empty `errors` list: one error with no messages anywhere is enough. */
  lemma RejectionWithoutMessages()
    ensures |[ValidationError(None, [])]| > 0 && Flatten([ValidationError(None, [])]) == []
  {
    NodeWithoutConstraints([], []);
  }

  /**
   * The decorator `ValidatedDTO(dto)` on `(cls, key)`: the property's handler is wrapped;
   * route, verb and middleware metadata are untouched.
   */
  method ApplyValidatedDTO(store: MetadataStore, dto: string, cls: string, key: string)
    modifies store
    ensures store.View() == old(store.View()).(handlers :=
      old(store.handlers)[(cls, key) := Validated(dto, HandlerOf(old(store.View()), (cls, key)))])
  {
    var original := if (cls, key) in store.handlers then store.handlers[(cls, key)] else Method(cls, key);
    store.handlers := store.handlers[(cls, key) := Validated(dto, original)];
  }
}
