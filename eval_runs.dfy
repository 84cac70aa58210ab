/**
  What the LangSmith evaluators read and return. The evaluators get a run,
  whose outputs hold the final answer, the plan, the tool result and an
  error, and an example, whose outputs hold what the test case expects;
  each returns its key, a score (None when the case sets no expectation for
  it) and a comment.
 */
module EvalRuns {
  import opened Wrappers
  import opened PyValue
  import opened Airports

  type Dict = seq<(string, Value)>

  datatype Evaluation = Evaluation(key: string, score: Option<real>, comment: string)

  /**
    The `plan` entry of the run's outputs: absent or falsy other than `{}`, a
    dict (`{}` included, which `HasPlan` reads as no plan), or an object read
    with `getattr` (any other truthy value reads like an object without
    attributes).
   */
  datatype Plan = NoPlan | PlanDict(entries: Dict) | PlanObject(attributes: Dict)

  /** `not plan` fails: the plan is present and is not an empty dict. */
  predicate HasPlan(plan: Plan) {
    !plan.NoPlan? && !(plan.PlanDict? && plan.entries == [])
  }

  /** `run.outputs or {}` with its `plan` entry apart. */
  datatype Run = Run(outputs: Dict, plan: Plan)

  /** `plan.get(k, d) if isinstance(plan, dict) else getattr(plan, k, d)` */
  function PlanField(plan: Plan, k: string, default: Value): (r: Value)
    ensures plan.NoPlan? ==> r == default
    ensures plan.PlanDict? ==> r == Get(plan.entries, k, default)
    ensures plan.PlanObject? ==> r == Get(plan.attributes, k, default)
  {
    match plan
    case NoPlan => default
    case PlanDict(es) => Get(es, k, default)
    case PlanObject(attrs) => Get(attrs, k, default)
  }

  /** `example.outputs.get("expected", {})`, which must be a dict for the next `.get`. */
  function ExpectedOf(example: Dict): (r: Query<Dict>)
    ensures r.Found? <==> Get(example, "expected", VDict([])).VDict?
  {
    var e := Get(example, "expected", VDict([]));
    if e.VDict? then Found(e.entries) else Raises
  }

  /**
    The items a `for` loop or a comprehension visits: a list's elements, a
    string's characters, a dict's keys; None for a value Python cannot
    iterate. `len` counts the same items.
   */
  function Iterable(v: Value): (r: Option<seq<Value>>)
    ensures v.VList? ==> r == Some(v.items)
    ensures v.VNone? || v.VBool? || v.VInt? || v.VFloat? ==> r.None?
    ensures v.VStr? ==> r.Some? && |r.value| == |v.s| && forall i :: 0 <= i < |v.s| ==> r.value[i] == VStr([v.s[i]])
    ensures v.VDict? ==>
      r.Some? && |r.value| == |v.entries| &&
      forall i :: 0 <= i < |v.entries| ==> r.value[i] == VStr(v.entries[i].0)
  {
    match v
    case VList(xs) => Some(xs)
    case VStr(s) => Some(seq(|s|, i requires 0 <= i < |s| => VStr([s[i]])))
    case VDict(es) => Some(seq(|es|, i requires 0 <= i < |es| => VStr(es[i].0)))
    case _ => None
  }

  /** A count of hits over a nonzero total is a ratio in [0, 1], and 1 exactly when all hit. */
  lemma Ratio(hits: nat, total: nat)
    requires hits <= total && total > 0
    ensures 0.0 <= hits as real / total as real <= 1.0
    ensures hits as real / total as real == 1.0 <==> hits == total
    ensures hits < total ==> hits as real / total as real < 1.0
  {
    assert hits as real / total as real * total as real == hits as real;
  }
}
