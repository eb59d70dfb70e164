/** Test expressions: cfg-like boolean filters over the host platform
    (`os`, `arch`, `family`) that gate individual image-comparison checks.
    The expression arrives already parsed (or known to be unparsable); the
    host attributes are a parameter instead of process-wide constants. */
module TestExpressions {
  import opened Common

  /** One predicate of a parsed expression. `KeyValue` is `key = "val"`;
      `Other` stands for every other predicate form the parser produces
      (a bare flag such as `unix`, `feature = "..."`, `target_os = "..."`),
      none of which the evaluator recognises. */
  datatype Predicate = KeyValue(key: string, val: string) | Other(name: string)

  /** The parsed expression tree: `not(e)`, `all(e, ...)` and `any(e, ...)`. */
  datatype Expr =
    | Pred(p: Predicate)
    | Not(arg: Expr)
    | All(args: seq<Expr>)
    | Any(args: seq<Expr>)

  /** A configured filter: the outcome of parsing its text. */
  datatype TestExpression = Parsed(expr: Expr) | Unparsable(message: string)

  /** The host's `std::env::consts::{OS, ARCH, FAMILY}`. */
  datatype Host = Host(os: string, arch: string, family: string)

  datatype EvalError =
    | ParseError(message: string)
    | UnknownPredicate(pred: Predicate)

  /** The three keys the evaluator understands. */
  predicate Recognised(p: Predicate) {
    p.KeyValue? && (p.key == "os" || p.key == "arch" || p.key == "family")
  }

  /** The value the evaluation callback gives one predicate: exact string
      equality against the host for a recognised key, `false` otherwise. */
  function PredicateValue(p: Predicate, host: Host): (b: bool)
    ensures Recognised(p) && p.key == "os" ==> (b <==> p.val == host.os)
    ensures Recognised(p) && p.key == "arch" ==> (b <==> p.val == host.arch)
    ensures Recognised(p) && p.key == "family" ==> (b <==> p.val == host.family)
    ensures !Recognised(p) ==> !b
  {
    match p
    case KeyValue(key, val) =>
      if key == "os" then val == host.os
      else if key == "arch" then val == host.arch
      else if key == "family" then val == host.family
      else false
    case Other(_) => false
  }

  /** The boolean value of an expression, every predicate given its callback value. */
  function Holds(e: Expr, host: Host): bool
    decreases e
  {
    match e
    case Pred(p) => PredicateValue(p, host)
    case Not(a) => !Holds(a, host)
    case All(args) => AllHold(args, host)
    case Any(args) => AnyHolds(args, host)
  }

  /** `all()` of no arguments is true. */
  function AllHold(args: seq<Expr>, host: Host): bool
    decreases args
  {
    if args == [] then true else Holds(args[0], host) && AllHold(args[1..], host)
  }

  /** `any()` of no arguments is false. */
  function AnyHolds(args: seq<Expr>, host: Host): bool
    decreases args
  {
    if args == [] then false else Holds(args[0], host) || AnyHolds(args[1..], host)
  }

  /** Every predicate of the expression, in the order the evaluator visits them
      (left to right; the evaluator does not short-circuit). */
  function Predicates(e: Expr): seq<Predicate>
    decreases e
  {
    match e
    case Pred(p) => [p]
    case Not(a) => Predicates(a)
    case All(args) => PredicatesOfList(args)
    case Any(args) => PredicatesOfList(args)
  }

  function PredicatesOfList(args: seq<Expr>): seq<Predicate>
    decreases args
  {
    if args == [] then [] else Predicates(args[0]) + PredicatesOfList(args[1..])
  }

  /** The last unrecognised predicate of a visiting order: the one the
      evaluator's `unknown_pred` holds at the end, since each unrecognised
      predicate overwrites it. */
  function LastUnrecognised(ps: seq<Predicate>): Option<Predicate> {
    if ps == [] then None
    else if !Recognised(ps[|ps| - 1]) then Some(ps[|ps| - 1])
    else LastUnrecognised(ps[..|ps| - 1])
  }

  /** Nothing is recorded exactly when every predicate is recognised; what is
      recorded is an unrecognised predicate with only recognised ones after it. */
  lemma {:induction false} LastUnrecognisedSpec(ps: seq<Predicate>)
    ensures LastUnrecognised(ps).None? <==> forall i :: 0 <= i < |ps| ==> Recognised(ps[i])
    ensures LastUnrecognised(ps).Some? ==>
              exists i :: 0 <= i < |ps| && ps[i] == LastUnrecognised(ps).value && !Recognised(ps[i])
                          && forall j :: i < j < |ps| ==> Recognised(ps[j])
  {
    if ps != [] && Recognised(ps[|ps| - 1]) {
      var init := ps[..|ps| - 1];
      LastUnrecognisedSpec(init);
      assert forall i :: 0 <= i < |init| ==> init[i] == ps[i];
      if LastUnrecognised(init).Some? {
        var i :| 0 <= i < |init| && init[i] == LastUnrecognised(init).value && !Recognised(init[i])
                 && forall j :: i < j < |init| ==> Recognised(init[j]);
        assert forall j :: i < j < |ps| ==> Recognised(ps[j]);
      }
    } else if ps != [] {
      assert ps[|ps| - 1] == LastUnrecognised(ps).value;
    }
  }

  /** The outcome `TestExpression::evaluate` promises: a parse error, else an
      unknown-predicate error if any predicate is unrecognised, else the value. */
  function Evaluation(t: TestExpression, host: Host): Result<bool, EvalError> {
    match t
    case Unparsable(message) => Err(ParseError(message))
    case Parsed(e) =>
      match LastUnrecognised(Predicates(e))
      case Some(p) => Err(UnknownPredicate(p))
      case None => Ok(Holds(e, host))
  }

  /** `TestExpression::evaluate`: the callback runs once per predicate and
      records each unrecognised one in `unknownPred`. */
  method Evaluate(t: TestExpression, host: Host) returns (r: Result<bool, EvalError>)
    ensures r == Evaluation(t, host)
  {
    if t.Unparsable? {
      return Err(ParseError(t.message));
    }
    var preds := Predicates(t.expr);
    var unknownPred: Option<Predicate> := None;
    var i := 0;
    while i < |preds|
      invariant 0 <= i <= |preds|
      invariant unknownPred == LastUnrecognised(preds[..i])
    {
      assert preds[..i + 1][..i] == preds[..i];
      if !Recognised(preds[i]) {
        unknownPred := Some(preds[i]);
      }
      i := i + 1;
    }
    assert preds[..i] == preds;
    var cfgMatches := Holds(t.expr, host);
    if unknownPred.Some? {
      return Err(UnknownPredicate(unknownPred.value));
    }
    return Ok(cfgMatches);
  }

  /** Some predicate is recorded exactly when some predicate is unrecognised. */
  lemma SomeUnrecognisedIff(ps: seq<Predicate>)
    ensures LastUnrecognised(ps).Some? <==> exists i :: 0 <= i < |ps| && !Recognised(ps[i])
  {
    LastUnrecognisedSpec(ps);
  }

  /** A parsed expression fails to evaluate exactly when one of its predicates
      is unrecognised, and otherwise yields its boolean value; this does not
      depend on the host. */
  lemma EvaluationErrIffUnrecognised(e: Expr, host: Host)
    ensures Evaluation(Parsed(e), host).Err?
            ==> exists i :: 0 <= i < |Predicates(e)| && !Recognised(Predicates(e)[i])
    ensures (exists i :: 0 <= i < |Predicates(e)| && !Recognised(Predicates(e)[i])) ==> Evaluation(Parsed(e), host).Err?
    ensures Evaluation(Parsed(e), host).Ok? ==> Evaluation(Parsed(e), host).value == Holds(e, host)
  {
    var ps := Predicates(e);
    SomeUnrecognisedIff(ps);
    if LastUnrecognised(ps).Some? {
      var i :| 0 <= i < |ps| && !Recognised(ps[i]);
      assert Evaluation(Parsed(e), host).Err?;
      assert 0 <= i < |Predicates(e)| && !Recognised(Predicates(e)[i]);
    } else {
      assert Evaluation(Parsed(e), host) == Ok(Holds(e, host));
      assert !exists i :: 0 <= i < |Predicates(e)| && !Recognised(Predicates(e)[i]);
    }
  }

  /** Every predicate of an argument is visited when its `all`/`any` parent is. */
  lemma {:induction false} PredicatesOfArgument(args: seq<Expr>, k: nat, p: Predicate)
    requires k < |args| && p in Predicates(args[k])
    ensures p in PredicatesOfList(args)
    decreases args
  {
    if k > 0 {
      PredicatesOfArgument(args[1..], k - 1, p);
    }
  }

  /** An unknown predicate anywhere below `not`, `all` or `any` makes the whole
      expression an error, whatever the boolean values of its siblings. */
  lemma ErrorPropagatesToParent(args: seq<Expr>, k: nat, host: Host)
    requires k < |args| && Evaluation(Parsed(args[k]), host).Err?
    ensures Evaluation(Parsed(All(args)), host).Err?
    ensures Evaluation(Parsed(Any(args)), host).Err?
    ensures Evaluation(Parsed(Not(args[k])), host).Err?
  {
    EvaluationErrIffUnrecognised(args[k], host);
    var i :| 0 <= i < |Predicates(args[k])| && !Recognised(Predicates(args[k])[i]);
    var p := Predicates(args[k])[i];
    PredicatesOfArgument(args, k, p);
    var j :| 0 <= j < |PredicatesOfList(args)| && PredicatesOfList(args)[j] == p;
    EvaluationErrIffUnrecognised(All(args), host);
    EvaluationErrIffUnrecognised(Any(args), host);
  }

  /** The documented example: `not(os = "aarch64")` holds on a Linux x86-64 host. */
  lemma NotAarch64OnLinux()
    ensures Evaluation(Parsed(Not(Pred(KeyValue("os", "aarch64")))), Host("linux", "x86_64", "unix")) == Ok(true)
  {
  }

  /** An unknown key is an error even where the expression would be true:
      `any(os = <host os>, foo = "bar")`. */
  lemma UnknownKeyIsErrorNotFalse(host: Host)
    ensures Holds(Any([Pred(KeyValue("os", host.os)), Pred(KeyValue("foo", "bar"))]), host)
    ensures Evaluation(Parsed(Any([Pred(KeyValue("os", host.os)), Pred(KeyValue("foo", "bar"))])), host)
            == Err(UnknownPredicate(KeyValue("foo", "bar")))
  {
    var e := Any([Pred(KeyValue("os", host.os)), Pred(KeyValue("foo", "bar"))]);
    assert e.args[1..] == [Pred(KeyValue("foo", "bar"))];
    assert e.args[1..][1..] == [];
    assert PredicatesOfList(e.args[1..]) == [KeyValue("foo", "bar")] + [];
    assert PredicatesOfList(e.args) == [KeyValue("os", host.os)] + [KeyValue("foo", "bar")];
    assert Predicates(e) == [KeyValue("os", host.os), KeyValue("foo", "bar")];
  }
}
