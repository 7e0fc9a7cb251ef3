/** The request-body validator: the body is cut down to the listed
    arguments, then the arguments are checked in list order and the first
    missing or invalid one is reported. */
module Validation {
  import opened Wrappers
  import opened JsValues
  import opened Errors

  /** An argument's `type`: a `typeof` name, or an enum object, given by its keys. */
  datatype ArgType = Primitive(typeName: string) | EnumType(keys: set<string>)

  /** A list element: a bare argument name, or an object with a name and
      optional `type` and `required`. */
  datatype Arg = ArgName(name: string) | ArgSpec(name: string, argType: Option<ArgType>, required: Option<bool>)

  datatype Resolved = Resolved(name: string, argType: ArgType, required: bool)

  const DEFAULT_TYPE := Primitive("string")

  /** `{ type: 'string', required: false, ...arg }`: the defaults, overridden
      by what the argument gives. */
  function Resolve(arg: Arg): (r: Resolved)
    ensures r.name == arg.name
    ensures (arg.ArgName? || arg.argType.None?) ==> r.argType == DEFAULT_TYPE
    ensures (arg.ArgName? || arg.required.None?) ==> !r.required
    ensures arg.ArgSpec? && arg.argType.Some? ==> r.argType == arg.argType.value
    ensures arg.ArgSpec? && arg.required.Some? ==> r.required == arg.required.value
  {
    match arg
    case ArgName(n) => Resolved(n, DEFAULT_TYPE, false)
    case ArgSpec(n, t, req) => Resolved(n, t.GetOr(DEFAULT_TYPE), req.GetOr(false))
  }

  /** `body[key]`: a missing property reads as `undefined`. */
  function Get(body: map<string, JsValue>, key: string): JsValue {
    if key in body then body[key] else Undefined
  }

  /** `args.map(arg => typeof arg === 'string' ? arg : arg.name)`. */
  function Names(args: seq<Arg>): (names: seq<string>)
    ensures |names| == |args| && forall i :: 0 <= i < |args| ==> names[i] == args[i].name
  {
    seq(|args|, i requires 0 <= i < |args| => args[i].name)
  }

  /** The three checks of one argument against the (already projected) body. */
  function CheckArg(arg: Arg, body: map<string, JsValue>, allRequired: bool): (r: Option<Kind>)
    ensures var a, v := Resolve(arg), Get(body, arg.name);
      && (r == Some(MissingArgument(arg.name)) <==> IsNullish(v) && (allRequired || a.required))
      && (IsNullish(v) && !(allRequired || a.required) ==> r.None?)
      && (!IsNullish(v) && a.argType.EnumType? ==>
            r == (if ToJsString(v) in a.argType.keys then None else Some(InvalidArgument(arg.name, v))))
      && (!IsNullish(v) && a.argType.Primitive? ==>
            r == (if TypeOf(v) == a.argType.typeName then None else Some(InvalidArgument(arg.name, v))))
  {
    var a := Resolve(arg);
    var value := Get(body, a.name);
    if IsNullish(value) && (allRequired || a.required) then
      Some(MissingArgument(a.name))
    else if !IsNullish(value) && a.argType.EnumType? &&
            (TypeOf(value) != "number" || TypeOf(value) != "string") &&
            ToJsString(value) !in a.argType.keys then
      Some(InvalidArgument(a.name, value))
    else if !IsNullish(value) && !a.argType.EnumType? && TypeOf(value) != a.argType.typeName then
      Some(InvalidArgument(a.name, value))
    else
      None
  }

  /** The argument at index `i` is the first to fail, with error `e`. */
  ghost predicate FailsFirstAt(args: seq<Arg>, body: map<string, JsValue>, allRequired: bool, i: int, e: Kind) {
    0 <= i < |args| && CheckArg(args[i], body, allRequired) == Some(e) &&
    forall j :: 0 <= j < i ==> CheckArg(args[j], body, allRequired).None?
  }

  /** The error the validator reports: that of the first argument that fails,
      or none when all pass. */
  function FirstFailure(args: seq<Arg>, body: map<string, JsValue>, allRequired: bool): (r: Option<Kind>)
    ensures r.None? <==> forall i :: 0 <= i < |args| ==> CheckArg(args[i], body, allRequired).None?
    ensures r.Some? ==> exists i :: FailsFirstAt(args, body, allRequired, i, r.value)
    decreases |args|
  {
    if |args| == 0 then None
    else match CheckArg(args[0], body, allRequired)
      case Some(e) =>
        assert FailsFirstAt(args, body, allRequired, 0, e);
        Some(e)
      case None =>
        var r := FirstFailure(args[1..], body, allRequired);
        assert forall i :: 1 <= i < |args| ==> args[i] == args[1..][i - 1];
        assert r.Some? ==> exists i :: FailsFirstAt(args, body, allRequired, i, r.value) by {
          if r.Some? {
            var k :| FailsFirstAt(args[1..], body, allRequired, k, r.value);
            assert FailsFirstAt(args, body, allRequired, k + 1, r.value);
          }
        }
        r
  }

  /** Later arguments are never examined once one fails: the report depends
      only on the arguments up to the first failing one. */
  lemma {:induction false} FailureIgnoresLaterArgs(args: seq<Arg>, more: seq<Arg>, body: map<string, JsValue>,
                                                   allRequired: bool)
    requires FirstFailure(args, body, allRequired).Some?
    ensures FirstFailure(args + more, body, allRequired) == FirstFailure(args, body, allRequired)
    decreases |args|
  {
    assert (args + more)[0] == args[0];
    if CheckArg(args[0], body, allRequired).None? {
      assert (args + more)[1..] == args[1..] + more;
      FailureIgnoresLaterArgs(args[1..], more, body, allRequired);
    }
  }

  /** The reduce that rebuilds the body from the listed keys: each listed key
      holds the original value (possibly `undefined`), and no other key is kept. */
  method ProjectBody(body: map<string, JsValue>, names: seq<string>) returns (r: map<string, JsValue>)
    ensures forall k :: k in r <==> k in names
    ensures forall k :: k in r ==> r[k] == Get(body, k)
  {
    r := map[];
    var i := 0;
    while i < |names|
      invariant 0 <= i <= |names|
      invariant forall k :: k in r <==> k in names[..i]
      invariant forall k :: k in r ==> r[k] == Get(body, k)
    {
      assert names[..i + 1] == names[..i] + [names[i]];
      r := r[names[i] := Get(body, names[i])];
      i := i + 1;
    }
    assert names[..i] == names;
  }

  /** The `for` loop over the arguments, returning at the first failure. */
  method CheckArgs(args: seq<Arg>, body: map<string, JsValue>, allRequired: bool) returns (err: Option<Kind>)
    ensures err == FirstFailure(args, body, allRequired)
  {
    var i := 0;
    while i < |args|
      invariant 0 <= i <= |args|
      invariant FirstFailure(args, body, allRequired) == FirstFailure(args[i..], body, allRequired)
    {
      assert args[i..][0] == args[i] && args[i..][1..] == args[i + 1..];
      var failure := CheckArg(args[i], body, allRequired);
      if failure.Some? {
        return failure;
      }
      i := i + 1;
    }
    err := None;
  }

  /** The incoming request, whose body the validator replaces. */
  class Request {
    var body: map<string, JsValue>

    constructor (body: map<string, JsValue>)
      ensures this.body == body
    {
      this.body := body;
    }
  }

  /** The handler `validation(args, allRequired)` returns: `request.body`
      becomes the projection onto the listed names, and the error passed to
      `next` is the first argument's failure, or none. */
  method Validate(request: Request, args: seq<Arg>, allRequired: bool) returns (err: Option<Kind>)
    modifies request
    ensures forall k :: k in request.body <==> k in Names(args)
    ensures forall k :: k in request.body ==> request.body[k] == Get(old(request.body), k)
    ensures err == FirstFailure(args, request.body, allRequired)
  {
    var projected := ProjectBody(request.body, Names(args));
    request.body := projected;
    err := CheckArgs(args, request.body, allRequired);
  }

  /** Checking against the projected body gives the same answers as checking
      against the original one, since each argument only reads its own key. */
  lemma ProjectionPreservesChecks(args: seq<Arg>, body: map<string, JsValue>, projected: map<string, JsValue>,
                                  allRequired: bool)
    requires forall k :: k in projected <==> k in Names(args)
    requires forall k :: k in projected ==> projected[k] == Get(body, k)
    ensures FirstFailure(args, projected, allRequired) == FirstFailure(args, body, allRequired)
  {
    assert forall i :: 0 <= i < |args| ==> Get(projected, args[i].name) == Get(body, args[i].name) by {
      forall i | 0 <= i < |args| ensures Get(projected, args[i].name) == Get(body, args[i].name) {
        assert Names(args)[i] == args[i].name;
      }
    }
    FirstFailureDependsOnNamedValues(args, body, projected, allRequired);
  }

  lemma {:induction false} FirstFailureDependsOnNamedValues(args: seq<Arg>, b1: map<string, JsValue>,
                                                            b2: map<string, JsValue>, allRequired: bool)
    requires forall i :: 0 <= i < |args| ==> Get(b1, args[i].name) == Get(b2, args[i].name)
    ensures FirstFailure(args, b1, allRequired) == FirstFailure(args, b2, allRequired)
    decreases |args|
  {
    if |args| > 0 {
      assert CheckArg(args[0], b1, allRequired) == CheckArg(args[0], b2, allRequired);
      assert forall i :: 1 <= i < |args| ==> args[i] == args[1..][i - 1];
      FirstFailureDependsOnNamedValues(args[1..], b1, b2, allRequired);
    }
  }

  /** A value of the right primitive type, or a null or undefined value of an
      argument that is not required, passes; with every argument passing,
      the validator reports nothing. */
  lemma AllPassingReportsNothing(args: seq<Arg>, body: map<string, JsValue>, allRequired: bool)
    requires forall i :: 0 <= i < |args| ==>
      var a, v := Resolve(args[i]), Get(body, args[i].name);
      (IsNullish(v) && !(allRequired || a.required)) ||
      (!IsNullish(v) && a.argType.Primitive? && TypeOf(v) == a.argType.typeName) ||
      (!IsNullish(v) && a.argType.EnumType? && ToJsString(v) in a.argType.keys)
    ensures FirstFailure(args, body, allRequired).None?
  {
  }

  /** An enum argument accepts a numeric value whose decimal form is a key,
      as for a numeric enum's value keys. */
  lemma EnumAcceptsNumericKey(name: string, keys: set<string>, n: ExactInt, required: Option<bool>, allRequired: bool)
    requires IntToString(n) in keys
    ensures CheckArg(ArgSpec(name, Some(EnumType(keys)), required), map[name := Num(n)], allRequired).None?
  {
  }
}
