/**
 * The API's argument sanitiser and the decorator that turns what an API
 * method raises into an HTTP status and a JSON envelope.
 *
 * JSON request bodies are `Value`s; Python types are the tags of `TypeTag`.
 * A rule's transformer and validator are arbitrary callables, carried by the
 * rule as functions that either return or raise.
 */
module ApiHelper {
  import opened Common
  import Decimal

  /** A decoded JSON value, as Python holds it. */
  datatype Value =
    | PyNone
    | PyBool(b: bool)
    | PyInt(i: int)
    | PyStr(s: string)
    | PyList(items: seq<Value>)
    | PyDict(fields: map<string, Value>)

  /** The Python type of a value, as `type(value)` reports it. */
  datatype TypeTag = NoneType | BoolType | IntType | StrType | ListType | DictType

  function TypeOf(v: Value): TypeTag {
    match v
    case PyNone => NoneType
    case PyBool(_) => BoolType
    case PyInt(_) => IntType
    case PyStr(_) => StrType
    case PyList(_) => ListType
    case PyDict(_) => DictType
  }

  /** `type.__name__`. */
  function TypeName(t: TypeTag): string {
    match t
    case NoneType => "NoneType"
    case BoolType => "bool"
    case IntType => "int"
    case StrType => "str"
    case ListType => "list"
    case DictType => "dict"
  }

  /**
   * Python's `==` on decoded JSON: `True == 1` and `False == 0`; lists
   * compare element-wise and dictionaries key by key.
   */
  function PyEq(a: Value, b: Value): bool
    decreases a
  {
    match a
    case PyNone => b.PyNone?
    case PyBool(x) =>
      (b.PyBool? && b.b == x) || (b.PyInt? && b.i == (if x then 1 else 0))
    case PyInt(i) =>
      (b.PyInt? && b.i == i) || (b.PyBool? && i == (if b.b then 1 else 0))
    case PyStr(s) => b.PyStr? && b.s == s
    case PyList(xs) =>
      b.PyList? && |xs| == |b.items| && forall k :: 0 <= k < |xs| ==> PyEq(xs[k], b.items[k])
    case PyDict(m) =>
      b.PyDict? && m.Keys == b.fields.Keys && forall k :: k in m ==> PyEq(m[k], b.fields[k])
  }

  /** `value in candidates` on a Python list. */
  predicate PyIn(v: Value, candidates: seq<Value>) {
    exists k :: 0 <= k < |candidates| && PyEq(v, candidates[k])
  }

  /** What an API callable (transformer, validator or handler) may raise. */
  datatype Raised =
    | ArgumentValidationError(reason: string)
    | ArgumentSanitizationError(message: string)
    | HTTPException(code: int, name: string, description: string)
    | OtherException(message: string)

  /** `str(ex)` for the exceptions the wrapper renders with `str`. */
  function ExceptionText(ex: Raised): string {
    match ex
    case ArgumentValidationError(reason) => reason
    case ArgumentSanitizationError(message) => message
    case HTTPException(code, name, description) => Decimal.IntToString(code) + " " + name + ": " + description
    case OtherException(message) => message
  }

  /** A validator's answer: `None` when it returns, the exception when it raises. */
  type Verdict = Option<Raised>

  /**
   * The rule for one argument; an empty `allowedTypes`, `allowedValues` or
   * `arguments` stands for a key that is absent or holds a falsy value.
   */
  datatype Rule = Rule(
    optional: bool,
    allowedTypes: seq<TypeTag>,
    transformer: Option<Value -> Result<Value, Raised>>,
    validator: Option<Value -> Verdict>,
    allowedValues: seq<Value>,
    arguments: seq<ArgumentRule>)

  /** An entry of a rule dictionary, in its insertion order. */
  datatype ArgumentRule = ArgumentRule(name: string, rule: Rule)

  /** Why sanitisation rejected the client's arguments (an `ArgumentSanitizationError`). */
  datatype Issue =
    | MissingArgument(name: string, path: seq<string>)
    | UnsupportedType(name: string, path: seq<string>, actual: TypeTag, allowedTypes: seq<TypeTag>)
    | ValidationFailed(name: string, path: seq<string>, reason: string)
    | UnsupportedValue(name: string, path: seq<string>, value: Value, allowedValues: seq<Value>)

  /** Sanitisation stops either with an `ArgumentSanitizationError` or with anything else raised. */
  datatype Failure = Sanitization(issue: Issue) | Propagated(ex: Raised)

  /** `sep.join(parts)`. */
  function Join(sep: string, parts: seq<string>): string {
    if parts == [] then ""
    else if |parts| == 1 then parts[0]
    else parts[0] + sep + Join(sep, parts[1..])
  }

  /** `str(value)`; dictionaries and lists are rendered only by their brackets. */
  function Str(v: Value): string {
    match v
    case PyNone => "None"
    case PyBool(b) => if b then "True" else "False"
    case PyInt(i) => Decimal.IntToString(i)
    case PyStr(s) => s
    case PyList(_) => "[...]"
    case PyDict(_) => "{...}"
  }

  /** `[t.__name__ for t in ts]`. */
  function TypeNames(ts: seq<TypeTag>): (r: seq<string>)
    ensures |r| == |ts| && forall k :: 0 <= k < |ts| ==> r[k] == TypeName(ts[k])
  {
    if ts == [] then [] else [TypeName(ts[0])] + TypeNames(ts[1..])
  }

  /** `[f"'{v}'" for v in vs]`. */
  function QuotedValues(vs: seq<Value>): (r: seq<string>)
    ensures |r| == |vs| && forall k :: 0 <= k < |vs| ==> r[k] == "'" + Str(vs[k]) + "'"
  {
    if vs == [] then [] else ["'" + Str(vs[0]) + "'"] + QuotedValues(vs[1..])
  }

  /** The text of the `ArgumentSanitizationError` raised for an issue. */
  function Message(issue: Issue): (r: string)
    ensures issue.MissingArgument? ==> "Missing required argument '" + issue.name + "' at '" <= r
    ensures issue.UnsupportedType? ==> "Unsupported type for argument '" + issue.name + "' at '" <= r
    ensures issue.ValidationFailed? ==>
      "Validation for argument '" + issue.name + "' at '" <= r
      && |issue.reason| <= |r| && r[|r| - |issue.reason|..] == issue.reason
    ensures issue.UnsupportedValue? ==> "Unsupported value for argument '" + issue.name + "' at '" <= r
  {
    var path := Join(".", issue.path);
    match issue
    case MissingArgument(name, _) =>
      ("Missing required argument '" + name + "' at '") + (path + "'.")
    case UnsupportedType(name, _, actual, allowed) =>
      ("Unsupported type for argument '" + name + "' at '")
        + (path + "': " + TypeName(actual) + ". Allowed type(s): " + Join(", ", TypeNames(allowed)))
    case ValidationFailed(name, _, reason) =>
      var head := "Validation for argument '" + name + "' at '";
      var middle := path + "' failed: ";
      assert (head + middle + reason)[..|head|] == head;
      head + middle + reason
    case UnsupportedValue(name, _, value, allowed) =>
      ("Unsupported value for argument '" + name + "' at '")
        + (path + "': '" + Str(value) + "'. Allowed value(s): " + Join(", ", QuotedValues(allowed)))
  }

  /** The `AttributeError` of calling `.keys()` on a value that is not a dictionary. */
  function NoKeysError(v: Value): Raised {
    OtherException("'" + TypeName(TypeOf(v)) + "' object has no attribute 'keys'")
  }

  /** The names, among `rules`, of the arguments that `root` provides. */
  function PresentNames(root: Value, rules: seq<ArgumentRule>): set<string>
    requires root.PyDict?
  {
    if rules == [] then {}
    else (if rules[0].name in root.fields then {rules[0].name} else {}) + PresentNames(root, rules[1..])
  }

  /** The value after the rule's transformer, if it has one. */
  function Transform(rule: Rule, given: Value): Result<Value, Raised> {
    if rule.transformer.Some? then rule.transformer.value(given) else Success(given)
  }

  /** What the rule's validator raises on a value, if it has one. */
  function Validate(rule: Rule, value: Value): Verdict {
    if rule.validator.Some? then rule.validator.value(value) else None
  }

  /**
   * `_sanitize_argument_recursive`: the target dictionary `obj` after
   * sanitising argument `name` of `root` under `rule`, or why it failed.
   * Success adds exactly `name` when `root` holds it and changes no other
   * entry; a required argument is always present on success; a sanitisation
   * error points at a path that extends `path`.
   */
  function Sanitize(root: Value, rule: Rule, name: string, path: seq<string>, obj: map<string, Value>)
    : (r: Result<map<string, Value>, Failure>)
    ensures r.Success? ==> root.PyDict?
    ensures r.Success? ==> r.value.Keys == obj.Keys + (if name in root.fields then {name} else {})
    ensures r.Success? ==> forall k :: k in obj && k != name ==> r.value[k] == obj[k]
    ensures r.Success? && !rule.optional ==> name in root.fields
    ensures r.Failure? && r.error.Sanitization? ==> path <= r.error.issue.path
    decreases rule, 1
  {
    if !root.PyDict? then Failure(Propagated(NoKeysError(root)))
    else if name !in root.fields then
      if rule.optional then Success(obj) else Failure(Sanitization(MissingArgument(name, path)))
    else
      var given := root.fields[name];
      if rule.allowedTypes != [] && TypeOf(given) !in rule.allowedTypes then
        Failure(Sanitization(UnsupportedType(name, path, TypeOf(given), rule.allowedTypes)))
      else
        var transformed := Transform(rule, given);
        if transformed.Failure? then Failure(Propagated(transformed.error))
        else
          var value := transformed.value;
          var verdict := Validate(rule, value);
          if verdict.Some? && verdict.value.ArgumentValidationError? then
            Failure(Sanitization(ValidationFailed(name, path, verdict.value.reason)))
          else if verdict.Some? then Failure(Propagated(verdict.value))
          else if rule.allowedValues != [] && !PyIn(value, rule.allowedValues) then
            Failure(Sanitization(UnsupportedValue(name, path, value, rule.allowedValues)))
          else if rule.arguments != [] then
            var nested := SanitizeEach(value, rule.arguments, path + [name], map[]);
            if nested.Failure? then Failure(nested.error)
            else Success(obj[name := PyDict(nested.value)])
          else Success(obj[name := value])
  }

  /**
   * The loop over a rule dictionary: each entry in order sanitised into the
   * same target. Success adds exactly the names `root` provides, and every
   * required argument was provided.
   */
  function SanitizeEach(root: Value, rules: seq<ArgumentRule>, path: seq<string>, obj: map<string, Value>)
    : (r: Result<map<string, Value>, Failure>)
    ensures r.Success? && rules != [] ==> root.PyDict?
    ensures r.Success? && root.PyDict? ==> r.value.Keys == obj.Keys + PresentNames(root, rules)
    ensures r.Success? ==> forall k :: 0 <= k < |rules| && !rules[k].rule.optional ==>
                             root.PyDict? && rules[k].name in root.fields
    ensures r.Failure? && r.error.Sanitization? ==> path <= r.error.issue.path
    decreases rules, 0
  {
    if rules == [] then Success(obj)
    else
      var first := Sanitize(root, rules[0].rule, rules[0].name, path, obj);
      if first.Failure? then first
      else
        var rest := SanitizeEach(root, rules[1..], path, first.value);
        assert rest.Success? ==> forall k :: 1 <= k < |rules| ==> rules[k] == rules[1..][k - 1];
        rest
  }

  /** `_sanitize_arguments`: the rule dictionary applied to the request body, from path `root`. */
  function SanitizeArguments(rules: seq<ArgumentRule>, arguments: Value): Result<map<string, Value>, Failure> {
    SanitizeEach(arguments, rules, ["root"], map[])
  }

  /**
   * `_sanitize_argument_recursive` as the source runs it: a chain of checks,
   * then the nested rules in order, filling a fresh dictionary for them.
   */
  method SanitizeArgumentRecursive(root: Value, rule: Rule, name: string, path: seq<string>,
                                   obj: map<string, Value>)
    returns (r: Result<map<string, Value>, Failure>)
    ensures r == Sanitize(root, rule, name, path, obj)
    decreases rule, 1
  {
    if !root.PyDict? {
      return Failure(Propagated(NoKeysError(root)));
    }
    if name !in root.fields {
      if rule.optional {
        return Success(obj);
      }
      return Failure(Sanitization(MissingArgument(name, path)));
    }
    var value := root.fields[name];
    if rule.allowedTypes != [] && TypeOf(value) !in rule.allowedTypes {
      return Failure(Sanitization(UnsupportedType(name, path, TypeOf(value), rule.allowedTypes)));
    }
    if rule.transformer.Some? {
      var transformed := rule.transformer.value(value);
      if transformed.Failure? {
        return Failure(Propagated(transformed.error));
      }
      value := transformed.value;
    }
    if rule.validator.Some? {
      var verdict := rule.validator.value(value);
      if verdict.Some? {
        if verdict.value.ArgumentValidationError? {
          return Failure(Sanitization(ValidationFailed(name, path, verdict.value.reason)));
        }
        return Failure(Propagated(verdict.value));
      }
    }
    if rule.allowedValues != [] && !PyIn(value, rule.allowedValues) {
      return Failure(Sanitization(UnsupportedValue(name, path, value, rule.allowedValues)));
    }
    if rule.arguments != [] {
      var nested := SanitizeNested(value, rule.arguments, path + [name]);
      if nested.Failure? {
        return Failure(nested.error);
      }
      return Success(obj[name := PyDict(nested.value)]);
    }
    return Success(obj[name := value]);
  }

  /** The loop over nested rules: a fresh dictionary filled rule by rule from `root`. */
  method SanitizeNested(root: Value, rules: seq<ArgumentRule>, path: seq<string>)
    returns (r: Result<map<string, Value>, Failure>)
    ensures r == SanitizeEach(root, rules, path, map[])
    decreases rules, 0
  {
    var nested: map<string, Value> := map[];
    for j := 0 to |rules|
      invariant SanitizeEach(root, rules, path, map[]) == SanitizeEach(root, rules[j..], path, nested)
    {
      assert rules[j..][1..] == rules[j + 1..];
      var sub := SanitizeArgumentRecursive(root, rules[j].rule, rules[j].name, path, nested);
      if sub.Failure? {
        return Failure(sub.error);
      }
      nested := sub.value;
    }
    assert rules[|rules|..] == [];
    return Success(nested);
  }

  /** `_sanitize_arguments` as the source runs it: a fresh dictionary filled rule by rule. */
  method SanitizeArgumentsLoop(rules: seq<ArgumentRule>, arguments: Value)
    returns (r: Result<map<string, Value>, Failure>)
    ensures r == SanitizeArguments(rules, arguments)
  {
    var sanitized: map<string, Value> := map[];
    for j := 0 to |rules|
      invariant SanitizeArguments(rules, arguments) == SanitizeEach(arguments, rules[j..], ["root"], sanitized)
    {
      assert rules[j..][1..] == rules[j + 1..];
      var step := SanitizeArgumentRecursive(arguments, rules[j].rule, rules[j].name, ["root"], sanitized);
      if step.Failure? {
        return Failure(step.error);
      }
      sanitized := step.value;
    }
    assert rules[|rules|..] == [];
    return Success(sanitized);
  }

  /**
   * Every key of a sanitised dictionary is the name of one of `rules`, and
   * under a nested rule the value is a dictionary that conforms to the
   * nested rules in turn.
   */
  ghost predicate Conforms(out: map<string, Value>, rules: seq<ArgumentRule>)
    decreases rules
  {
    forall key :: key in out ==>
      exists k :: (0 <= k < |rules| && rules[k].name == key &&
        (rules[k].rule.arguments != [] ==>
           out[key].PyDict? && Conforms(out[key].fields, rules[k].rule.arguments)))
  }

  /** Sanitising one argument of `all` keeps the target conforming to `all`. */
  lemma {:induction false} SanitizeConforms(root: Value, all: seq<ArgumentRule>, i: nat, path: seq<string>,
                                            obj: map<string, Value>)
    requires i < |all| && Conforms(obj, all)
    ensures var r := Sanitize(root, all[i].rule, all[i].name, path, obj);
      r.Success? ==> Conforms(r.value, all)
    decreases all, 0
  {
    var rule, name := all[i].rule, all[i].name;
    var r := Sanitize(root, rule, name, path, obj);
    if r.Success? && name in root.fields {
      var given := root.fields[name];
      var value := Transform(rule, given).value;
      if rule.arguments != [] {
        var nested := SanitizeEach(value, rule.arguments, path + [name], map[]);
        SanitizeEachConforms(value, rule.arguments, 0, path + [name], map[]);
        assert r.value == obj[name := PyDict(nested.value)];
      } else {
        assert r.value == obj[name := value];
      }
      forall key | key in r.value
        ensures exists k :: (0 <= k < |all| && all[k].name == key &&
          (all[k].rule.arguments != [] ==>
             r.value[key].PyDict? && Conforms(r.value[key].fields, all[k].rule.arguments)))
      {
        if key != name {
          assert key in obj && r.value[key] == obj[key];
        }
      }
    }
  }

  /** Sanitising the entries of `all` from `m` on keeps the target conforming to `all`. */
  lemma {:induction false} SanitizeEachConforms(root: Value, all: seq<ArgumentRule>, m: nat, path: seq<string>,
                                                obj: map<string, Value>)
    requires m <= |all| && Conforms(obj, all)
    ensures var r := SanitizeEach(root, all[m..], path, obj);
      r.Success? ==> Conforms(r.value, all)
    decreases all, 1, |all| - m
  {
    if m < |all| {
      var first := Sanitize(root, all[m].rule, all[m].name, path, obj);
      assert all[m..][0] == all[m] && all[m..][1..] == all[m + 1..];
      SanitizeConforms(root, all, m, path, obj);
      if first.Success? {
        SanitizeEachConforms(root, all, m + 1, path, first.value);
      }
    }
  }

  /**
   * Keys the client sends without a rule are dropped at every level: the
   * sanitised arguments conform to the rule dictionary.
   */
  lemma SanitizedArgumentsConform(rules: seq<ArgumentRule>, arguments: Value)
    ensures SanitizeArguments(rules, arguments).Success? ==>
      Conforms(SanitizeArguments(rules, arguments).value, rules)
  {
    assert rules[0..] == rules;
    SanitizeEachConforms(arguments, rules, 0, ["root"], map[]);
  }

  /** A sanitisation error always points below `root`. */
  lemma ErrorPathsStartAtRoot(rules: seq<ArgumentRule>, arguments: Value)
    ensures var r := SanitizeArguments(rules, arguments);
      r.Failure? && r.error.Sanitization? ==> |r.error.issue.path| >= 1 && r.error.issue.path[0] == "root"
  {
  }

  /** A missing required argument is an error naming it and its path. */
  lemma MissingRequiredArgument(root: Value, rule: Rule, name: string, path: seq<string>, obj: map<string, Value>)
    requires root.PyDict? && name !in root.fields && !rule.optional
    ensures Sanitize(root, rule, name, path, obj) == Failure(Sanitization(MissingArgument(name, path)))
  {
  }

  /** A missing optional argument leaves the target as it was, so it is absent from it. */
  lemma MissingOptionalArgument(root: Value, rule: Rule, name: string, path: seq<string>, obj: map<string, Value>)
    requires root.PyDict? && name !in root.fields && rule.optional
    ensures Sanitize(root, rule, name, path, obj) == Success(obj)
  {
  }

  /**
   * A value whose type is not among non-empty `allowedTypes` is rejected
   * before anything else runs; with no allowed types, no type error is ever
   * reported for the argument itself.
   */
  lemma TypeCheck(root: Value, rule: Rule, name: string, path: seq<string>, obj: map<string, Value>)
    requires root.PyDict? && name in root.fields
    ensures var given := root.fields[name];
      rule.allowedTypes != [] && TypeOf(given) !in rule.allowedTypes ==>
        Sanitize(root, rule, name, path, obj)
          == Failure(Sanitization(UnsupportedType(name, path, TypeOf(given), rule.allowedTypes)))
    ensures var r := Sanitize(root, rule, name, path, obj);
      rule.allowedTypes == [] && r.Failure? && r.error.Sanitization? && r.error.issue.UnsupportedType? ==>
        r.error.issue.path != path
  {
    var r := Sanitize(root, rule, name, path, obj);
    if rule.allowedTypes == [] && r.Failure? && r.error.Sanitization? && r.error.issue.UnsupportedType? {
      var value := Transform(rule, root.fields[name]).value;
      assert r == SanitizeEach(value, rule.arguments, path + [name], map[]);
    }
  }

  /**
   * The validator and the allowed-values check both see the transformed
   * value: a validation error becomes a sanitisation error, anything else
   * the validator raises propagates unchanged, and a value outside the
   * allowed list is reported as transformed.
   */
  lemma ChecksSeeTransformedValue(root: Value, rule: Rule, name: string, path: seq<string>,
                                  obj: map<string, Value>, value: Value)
    requires root.PyDict? && name in root.fields
    requires rule.allowedTypes == [] || TypeOf(root.fields[name]) in rule.allowedTypes
    requires Transform(rule, root.fields[name]) == Success(value)
    ensures var r := Sanitize(root, rule, name, path, obj);
      && (Validate(rule, value).Some? && Validate(rule, value).value.ArgumentValidationError? ==>
            r == Failure(Sanitization(ValidationFailed(name, path, Validate(rule, value).value.reason))))
      && (Validate(rule, value).Some? && !Validate(rule, value).value.ArgumentValidationError? ==>
            r == Failure(Propagated(Validate(rule, value).value)))
      && (Validate(rule, value).None? && rule.allowedValues != [] && !PyIn(value, rule.allowedValues) ==>
            r == Failure(Sanitization(UnsupportedValue(name, path, value, rule.allowedValues))))
  {
  }

  /**
   * A provided argument that survives sanitisation holds the transformed
   * value, which the validator accepted and the allowed list contains; under
   * nested rules it holds instead a fresh dictionary sanitised from the
   * transformed value with the path extended by the argument's name.
   */
  lemma SanitizedValue(root: Value, rule: Rule, name: string, path: seq<string>, obj: map<string, Value>)
    requires root.PyDict? && name in root.fields
    requires Sanitize(root, rule, name, path, obj).Success?
    ensures var value := Transform(rule, root.fields[name]);
      var out := Sanitize(root, rule, name, path, obj).value;
      && value.Success?
      && Validate(rule, value.value).None?
      && (rule.allowedValues != [] ==> PyIn(value.value, rule.allowedValues))
      && (rule.arguments == [] ==> out[name] == value.value)
      && (rule.arguments != [] ==>
            SanitizeEach(value.value, rule.arguments, path + [name], map[]) == Success(out[name].fields))
  {
  }

  /** The JSON envelope of a response. */
  datatype Envelope = Envelope(status: int, data: Value)

  /** An HTTP response: its status and the envelope it carries. */
  datatype Response = Response(status: int, envelope: Envelope)

  /** A response whose envelope carries `{'error': message}`. */
  function ErrorResponse(status: int, message: string): (r: Response)
    ensures r.status == status && r.envelope.status == status
    ensures r.envelope.data == PyDict(map["error" := PyStr(message)])
  {
    Response(status, Envelope(status, PyDict(map["error" := PyStr(message)])))
  }

  /**
   * The three `except` clauses of the wrapper: a sanitisation error, the
   * sanitiser's own or one raised by a callable, is a 400; an HTTP
   * exception keeps its code; anything else is a 500 whose detail is shown
   * only in debug mode.
   */
  function FailureResponse(failure: Failure, debug: bool): (r: Response)
    ensures r.status == r.envelope.status
    ensures failure.Sanitization? ==> r.status == 400
    ensures failure.Propagated? && failure.ex.ArgumentSanitizationError? ==> r.status == 400
    ensures failure.Propagated? && failure.ex.HTTPException? ==> r.status == failure.ex.code
    ensures failure.Propagated? && !failure.ex.HTTPException? && !failure.ex.ArgumentSanitizationError?
            ==> r.status == 500
  {
    match failure
    case Sanitization(issue) => ErrorResponse(400, "400 Bad Request: " + Message(issue))
    case Propagated(ex) =>
      if ex.ArgumentSanitizationError? then ErrorResponse(400, "400 Bad Request: " + ex.message)
      else if ex.HTTPException? then
        ErrorResponse(ex.code, Decimal.IntToString(ex.code) + " " + ex.name + ": " + ex.description)
      else if debug then ErrorResponse(500, "500 Internal Server Error: " + ExceptionText(ex))
      else ErrorResponse(500, "500 Internal Server Error")
  }

  /**
   * What the decorated method is called with: the sanitised arguments, or
   * the request body as it is when sanitising is off.
   */
  function HandlerArguments(rules: seq<ArgumentRule>, sanitize: bool, body: Value): (r: Result<Value, Failure>)
    ensures !sanitize ==> r == Success(body)
    ensures sanitize ==> (r.Failure? <==> SanitizeArguments(rules, body).Failure?)
    ensures sanitize && r.Success? ==> r.value == PyDict(SanitizeArguments(rules, body).value)
  {
    if !sanitize then Success(body)
    else
      var sanitized := SanitizeArguments(rules, body);
      if sanitized.Failure? then Failure(sanitized.error) else Success(PyDict(sanitized.value))
  }

  /**
   * `api_method`'s wrapper: reads the JSON body (which may raise), builds
   * the arguments, calls the method, and maps whatever was raised to a
   * response. The envelope's status is always the HTTP status. The method
   * is called exactly when the body was read and the arguments were built,
   * and then on those arguments; its `(status, data)` is the response, and
   * whatever it, `get_json` or the sanitiser raised goes through
   * `FailureResponse`.
   */
  function Wrapper(rules: seq<ArgumentRule>, sanitize: bool, body: Result<Value, Raised>,
                   handler: Value -> Result<(int, Value), Raised>, debug: bool): (r: Response)
    ensures r.status == r.envelope.status
    ensures body.Failure? ==> r == FailureResponse(Propagated(body.error), debug)
    ensures body.Success? && HandlerArguments(rules, sanitize, body.value).Failure? ==>
              r == FailureResponse(HandlerArguments(rules, sanitize, body.value).error, debug)
    ensures body.Success? && HandlerArguments(rules, sanitize, body.value).Success? ==>
              var answer := handler(HandlerArguments(rules, sanitize, body.value).value);
              r == if answer.Success? then Response(answer.value.0, Envelope(answer.value.0, answer.value.1))
                   else FailureResponse(Propagated(answer.error), debug)
  {
    if body.Failure? then FailureResponse(Propagated(body.error), debug)
    else
      var arguments := HandlerArguments(rules, sanitize, body.value);
      if arguments.Failure? then FailureResponse(arguments.error, debug)
      else
        var answer := handler(arguments.value);
        if answer.Failure? then FailureResponse(Propagated(answer.error), debug)
        else Response(answer.value.0, Envelope(answer.value.0, answer.value.1))
  }

  /** With sanitising on, the method only ever sees keys its rules name, at every level. */
  lemma HandlerSeesOnlyRuledKeys(rules: seq<ArgumentRule>, body: Value)
    ensures var arguments := HandlerArguments(rules, true, body);
      arguments.Success? ==> arguments.value.PyDict? && Conforms(arguments.value.fields, rules)
  {
    SanitizedArgumentsConform(rules, body);
  }

  /**
   * The method runs only on sanitised arguments: two methods that agree on
   * every dictionary whose keys the rules name, at every level, give the
   * same response to every request.
   */
  lemma HandlerSeesOnlySanitizedArguments(rules: seq<ArgumentRule>, body: Result<Value, Raised>,
                                          h1: Value -> Result<(int, Value), Raised>,
                                          h2: Value -> Result<(int, Value), Raised>, debug: bool)
    requires forall v: Value :: v.PyDict? && Conforms(v.fields, rules) ==> h1(v) == h2(v)
    ensures Wrapper(rules, true, body, h1, debug) == Wrapper(rules, true, body, h2, debug)
  {
    if body.Success? {
      HandlerSeesOnlyRuledKeys(rules, body.value);
    }
  }

  /**
   * An `ArgumentSanitizationError` raised by a transformer, a validator or
   * the method itself is answered exactly as the sanitiser's own error
   * with the same text.
   */
  lemma RaisedSanitizationErrorsAreBadRequests(issue: Issue, debug: bool)
    ensures FailureResponse(Propagated(ArgumentSanitizationError(Message(issue))), debug)
         == FailureResponse(Sanitization(issue), debug)
    ensures FailureResponse(Sanitization(issue), debug) == ErrorResponse(400, "400 Bad Request: " + Message(issue))
  {
  }

  /** Arguments the client got wrong are answered with 400 and the sanitiser's message. */
  lemma ClientErrorsAreBadRequests(rules: seq<ArgumentRule>, body: Value,
                                   handler: Value -> Result<(int, Value), Raised>, debug: bool)
    requires SanitizeArguments(rules, body).Failure? && SanitizeArguments(rules, body).error.Sanitization?
    ensures Wrapper(rules, true, Success(body), handler, debug)
         == ErrorResponse(400, "400 Bad Request: " + Message(SanitizeArguments(rules, body).error.issue))
  {
  }

  /**
   * Any other exception is a 500, and its text reaches the client only in
   * debug mode.
   */
  lemma InternalErrorDetail(ex: Raised, debug: bool)
    requires !ex.HTTPException? && !ex.ArgumentSanitizationError?
    ensures FailureResponse(Propagated(ex), debug).status == 500
    ensures FailureResponse(Propagated(ex), debug).envelope.data.fields["error"]
         == PyStr(if debug then "500 Internal Server Error: " + ExceptionText(ex) else "500 Internal Server Error")
  {
  }
}
