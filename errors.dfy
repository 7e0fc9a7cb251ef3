/** The error taxonomy of the logger package: each kind of error has a
    fixed name, an HTTP-like status code and a message template. */
module Errors {
  import opened Wrappers
  import opened JsValues

  /** One constructor per subclass of the base error class, holding the
      subclass's constructor arguments. */
  datatype Kind =
    | NotFound(desiredResource: string)
    | MissingArgument(argumentName: string)
    | InvalidArgument(argumentName: string, argumentValue: JsValue)
    | Unknown(text: string)
    | ActionFailed(actionName: string)

  /** An error's stack: the one captured when it was constructed, or one
      assigned afterwards by `setStack` (possibly `undefined`). */
  datatype StackTrace = OwnTrace | Assigned(trace: Option<string>)

  datatype MSError = MSError(kind: Kind, stack: StackTrace)

  /** `name`: the class name of the subclass. */
  function Name(k: Kind): (n: string)
    ensures |n| > 5 && n[|n| - 5..] == "Error"
    ensures k.NotFound? <==> n == "NotFoundError"
    ensures k.Unknown? <==> n == "UnknownError"
  {
    match k
    case NotFound(_) => "NotFoundError"
    case MissingArgument(_) => "MissingArgumentError"
    case InvalidArgument(_, _) => "InvalidArgumentError"
    case Unknown(_) => "UnknownError"
    case ActionFailed(_) => "ActionFailedError"
  }

  /** `statusCode`: the request errors are in the 400s, the server-side
      failures (unknown, action failed) from 500 on. */
  function StatusCode(k: Kind): (c: nat)
    ensures 400 <= c < 600
    ensures c >= 500 <==> k.Unknown? || k.ActionFailed?
    ensures k.NotFound? <==> c == 401
  {
    match k
    case NotFound(_) => 401
    case MissingArgument(_) => 450
    case InvalidArgument(_, _) => 451
    case Unknown(_) => 500
    case ActionFailed(_) => 550
  }

  /** The message each constructor passes to `super`. */
  function Message(k: Kind): (m: string)
    ensures k.Unknown? ==> m == k.text
    ensures k.NotFound? ==>
              |m| > 14 + |k.desiredResource| && m[..14] == "The resource '" && m[14..14 + |k.desiredResource|] == k.desiredResource
    ensures k.MissingArgument? ==>
              |m| > 14 + |k.argumentName| && m[..14] == "The argument '" && m[14..14 + |k.argumentName|] == k.argumentName
    ensures k.InvalidArgument? ==>
              |m| > 14 + |k.argumentName| && m[..14] == "The argument '" && m[14..14 + |k.argumentName|] == k.argumentName
    ensures k.ActionFailed? ==>
              |m| > 12 + |k.actionName| && m[..12] == "The action '" && m[12..12 + |k.actionName|] == k.actionName
  {
    match k
    case NotFound(r) => "The resource '" + r + "' cannot be found"
    case MissingArgument(a) => "The argument '" + a + "' is missing."
    case InvalidArgument(a, v) => "The argument '" + a + "' with value '" + ToJsString(v) + "' is invalid."
    case Unknown(t) => t
    case ActionFailed(a) => "The action '" + a + "' couldn't be performed successfully, try again."
  }

  /** `new XError(...)`: a fresh error carries its own construction trace. */
  function New(k: Kind): (e: MSError)
    ensures e.kind == k && e.stack == OwnTrace
  {
    MSError(k, OwnTrace)
  }

  /** `setStack`: replaces the stack and nothing else. */
  function SetStack(e: MSError, stack: Option<string>): (r: MSError)
    ensures r.kind == e.kind
    ensures r.stack == Assigned(stack)
  {
    e.(stack := Assigned(stack))
  }

  /** What `UnknownError.fromError` may be handed: an `Error` instance
      (its message and stack) or any other JavaScript value. */
  datatype Thrown = ErrorInstance(message: string, stack: Option<string>) | Value(v: JsValue)

  const UNKNOWN_TEXT := "An unknown error occured"

  /** `UnknownError.fromError`: an Error keeps its message and stack, a string
      becomes the message, anything else gets a fixed text. */
  function FromError(t: Thrown): (r: MSError)
    ensures r.kind.Unknown? && StatusCode(r.kind) == 500
    ensures t.ErrorInstance? ==> Message(r.kind) == t.message && r.stack == Assigned(t.stack)
    ensures t.Value? && t.v.Str? ==> Message(r.kind) == t.v.s && r.stack == OwnTrace
    ensures t.Value? && !t.v.Str? ==> Message(r.kind) == UNKNOWN_TEXT && r.stack == OwnTrace
  {
    match t
    case ErrorInstance(m, s) => SetStack(New(Unknown(m)), s)
    case Value(Str(s)) => New(Unknown(s))
    case Value(_) => New(Unknown(UNKNOWN_TEXT))
  }

  /** Names and status codes tell the five kinds apart. */
  lemma KindsDistinguishable(k1: Kind, k2: Kind)
    ensures Name(k1) == Name(k2) <==> StatusCode(k1) == StatusCode(k2)
    ensures StatusCode(k1) == StatusCode(k2) <==>
      (k1.NotFound? && k2.NotFound?) || (k1.MissingArgument? && k2.MissingArgument?) ||
      (k1.InvalidArgument? && k2.InvalidArgument?) || (k1.Unknown? && k2.Unknown?) ||
      (k1.ActionFailed? && k2.ActionFailed?)
  {
  }

  /** A text placed between a fixed prefix and suffix can be read back. */
  lemma WrappedInjective(prefix: string, suffix: string, a: string, b: string)
    requires prefix + a + suffix == prefix + b + suffix
    ensures a == b
  {
    var wa, wb := prefix + a + suffix, prefix + b + suffix;
    assert |a| == |b|;
    assert a == wa[|prefix|..|prefix| + |a|];
    assert b == wb[|prefix|..|prefix| + |b|];
  }

  /** The message of a NotFoundError, MissingArgumentError or ActionFailedError
      determines the resource, argument or action it names. */
  lemma MessageNamesItsSubject(k1: Kind, k2: Kind)
    requires (k1.NotFound? && k2.NotFound?) || (k1.MissingArgument? && k2.MissingArgument?) ||
             (k1.ActionFailed? && k2.ActionFailed?)
    requires Message(k1) == Message(k2)
    ensures k1 == k2
  {
    match k1
    case NotFound(r1) =>
      WrappedInjective("The resource '", "' cannot be found", r1, k2.desiredResource);
    case MissingArgument(a1) =>
      WrappedInjective("The argument '", "' is missing.", a1, k2.argumentName);
    case ActionFailed(a1) =>
      WrappedInjective("The action '", "' couldn't be performed successfully, try again.", a1, k2.actionName);
  }

  /** An InvalidArgumentError's message starts with the argument's name,
      quoted, and contains the value's string form. */
  lemma InvalidArgumentMessageShape(a: string, v: JsValue)
    ensures var msg := Message(InvalidArgument(a, v));
      var p := "The argument '" + a + "' with value '";
      msg[..|p|] == p && msg[|p|..|p| + |ToJsString(v)|] == ToJsString(v)
  {
  }
}
