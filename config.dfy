/**
 * Hyperparameter expansion (`expand_parameters` in nfvtcp/config.py): a
 * configuration value becomes the explicit list of values to sweep.
 */
module Config {
  import opened Values
  import PyRange

  /** The ValueError raised for a value that cannot be expanded; it names the value. */
  datatype ExpandError = CannotExpand(p: Value)

  /**
   * A `{min, max, step}` dict that `range(min, max + 1, step)` accepts: all
   * three keys present, all three integers (or bools), and a non-zero step.
   */
  predicate IsRangeDict(d: map<string, Value>)
  {
    && "min" in d && "max" in d && "step" in d
    && AsInt(d["min"]).Some? && AsInt(d["max"]).Some? && AsInt(d["step"]).Some?
    && AsInt(d["step"]).value != 0
  }

  /** The integers a range dict stands for, as Python ints. */
  function RangeOf(d: map<string, Value>): seq<Value>
    requires IsRangeDict(d)
  {
    var xs := PyRange.Range(AsInt(d["min"]).value, AsInt(d["max"]).value + 1, AsInt(d["step"]).value);
    seq(|xs|, i requires 0 <= i < |xs| => Int(xs[i]))
  }

  /**
   * `expand_parameters(p)`. `None` becomes `[None]`; an int, bool or float
   * becomes a one-element list; a list is returned as it is; a range dict
   * becomes `list(range(min, max + 1, step))`. A dict that lacks a key or that
   * `range` rejects, and every other value, raises ValueError naming `p`.
   */
  function Expand(p: Value): (r: Result<seq<Value>, ExpandError>)
    ensures r.Err? ==> r.error == CannotExpand(p)
    ensures r.Err? <==> p.Str? || (p.Dict? && !IsRangeDict(p.entries))
    ensures p.Dict? && !("min" in p.entries && "max" in p.entries && "step" in p.entries) ==> r.Err?
    ensures (p.NoneV? || p.Int? || p.Bool? || p.Float?) ==> r.Ok? && |r.value| == 1
    ensures p.List? ==> r == Ok(p.items)
  {
    match p
    case NoneV => Ok([NoneV])
    case Int(_) => Ok([p])
    case Bool(_) => Ok([p])
    case Float(_) => Ok([p])
    case List(items) => Ok(items)
    case Dict(d) => if IsRangeDict(d) then Ok(RangeOf(d)) else Err(CannotExpand(p))
    case Str(_) => Err(CannotExpand(p))
  }

  /** A scalar expands to the one-element list holding it, `None` to `[None]`. */
  lemma ExpandScalar(p: Value)
    requires p.NoneV? || p.Int? || p.Bool? || p.Float?
    ensures Expand(p) == Ok([p])
  {
  }

  /**
   * A range dict `{min: lo, max: hi, step: st}` with a positive step expands to
   * the integers `lo, lo + st, ...` up to and including `hi` when reachable:
   * element `i` is `lo + i * st`, the list is strictly increasing, every element
   * is at most `hi`, the last one is more than `hi - st`, and the length is
   * `max(0, ceil((hi + 1 - lo) / st))`.
   */
  lemma ExpandRangeUp(d: map<string, Value>, lo: int, hi: int, st: int)
    requires "min" in d && "max" in d && "step" in d
    requires d["min"] == Int(lo) && d["max"] == Int(hi) && d["step"] == Int(st)
    requires st > 0
    ensures Expand(Dict(d)).Ok?
    ensures var r := Expand(Dict(d)).value;
      && |r| == PyRange.Length(lo, hi + 1, st)
      && (forall i :: 0 <= i < |r| ==> r[i] == Int(lo + i * st))
      && (forall i, j :: 0 <= i < j < |r| ==> r[i].i < r[j].i)
      && (forall i :: 0 <= i < |r| ==> r[i].i <= hi)
      && (r != [] ==> r[|r| - 1].i > hi - st)
  {
    var xs := PyRange.Range(lo, hi + 1, st);
    PyRange.RangeLength(lo, hi + 1, st);
    PyRange.RangeAt(lo, hi + 1, st);
    PyRange.RangeBounds(lo, hi + 1, st);
    PyRange.RangeIncreasing(lo, hi + 1, st);
    var r := Expand(Dict(d)).value;
    assert r == RangeOf(d);
    assert forall i :: 0 <= i < |r| ==> r[i] == Int(xs[i]);
  }

  /** A range dict whose `min` is above its `max` expands to the empty list. */
  lemma ExpandRangeEmpty(d: map<string, Value>, lo: int, hi: int, st: int)
    requires "min" in d && "max" in d && "step" in d
    requires d["min"] == Int(lo) && d["max"] == Int(hi) && d["step"] == Int(st)
    requires st > 0 && lo > hi
    ensures Expand(Dict(d)) == Ok([])
  {
    PyRange.RangeLength(lo, hi + 1, st);
  }

  /**
   * A negative step counts down: element `i` is `lo + i * st`, the list is
   * strictly decreasing and every element is above `hi + 1`.
   */
  lemma ExpandRangeDown(d: map<string, Value>, lo: int, hi: int, st: int)
    requires "min" in d && "max" in d && "step" in d
    requires d["min"] == Int(lo) && d["max"] == Int(hi) && d["step"] == Int(st)
    requires st < 0
    ensures Expand(Dict(d)).Ok?
    ensures var r := Expand(Dict(d)).value;
      && |r| == PyRange.Length(lo, hi + 1, st)
      && (forall i :: 0 <= i < |r| ==> r[i] == Int(lo + i * st))
      && (forall i, j :: 0 <= i < j < |r| ==> r[i].i > r[j].i)
      && (forall i :: 0 <= i < |r| ==> r[i].i > hi + 1)
  {
    var xs := PyRange.Range(lo, hi + 1, st);
    PyRange.RangeLength(lo, hi + 1, st);
    PyRange.RangeAt(lo, hi + 1, st);
    PyRange.RangeBounds(lo, hi + 1, st);
    PyRange.RangeDecreasing(lo, hi + 1, st);
    var r := Expand(Dict(d)).value;
    assert r == RangeOf(d);
    assert forall i :: 0 <= i < |r| ==> r[i] == Int(xs[i]);
  }

  /** A zero step is rejected by `range`, which surfaces as the ValueError. */
  lemma ExpandZeroStep(d: map<string, Value>)
    requires "step" in d && AsInt(d["step"]) == Some(0)
    ensures Expand(Dict(d)) == Err(CannotExpand(Dict(d)))
  {
  }
}
