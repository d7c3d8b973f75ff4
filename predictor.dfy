/**
 * The predictor base class of nfvtcp/predictor.py: construction with
 * defaulted parameters, training and prediction up to the engine boundary,
 * the per-repetition hook, and the result row.
 */
module Predictors {
  import opened Values
  import opened Registry
  import opened Naming
  import opened Engines
  import Config

  /** The parameters every predictor starts from before the caller's keyword arguments. */
  const Defaults: Params := map[
    "degree" := Int(2),
    "epsilon" := Float(0.1),
    "max_tree_depth" := Int(2),
    "alpha" := Float(0.1),
    "scale_x" := Bool(true)
  ]

  /** The constructor's parameter merge, `p = defaults; p.update(kwargs)`. */
  function InitialParams(kwargs: Params): Params
  {
    Defaults + kwargs
  }

  /**
   * After the merge every default key is present, a key the caller supplied
   * takes the caller's value, and any other default key keeps its default.
   */
  lemma InitialParamsMerge(kwargs: Params)
    ensures InitialParams(kwargs).Keys == Defaults.Keys + kwargs.Keys
    ensures forall key :: key in kwargs ==> InitialParams(kwargs)[key] == kwargs[key]
    ensures forall key :: key in Defaults && key !in kwargs ==> InitialParams(kwargs)[key] == Defaults[key]
  {
  }

  /** A feature matrix: one row of feature values per sample. */
  type Matrix = seq<seq<real>>

  /** The data an estimator was last fitted on. */
  datatype Sample = Sample(x: Matrix, y: seq<real>)

  /** An estimator object: what it was built with and what it was fitted on, if anything. */
  datatype Estimator = Estimator(spec: EngineSpec, fittedOn: Option<Sample>)

  /**
   * `self.m` right after construction: every adapter but the polynomial one
   * builds its (unfitted) estimator at once; the polynomial one sets it to None.
   */
  function InitialEngine(k: Kind, params: Params): (m: Option<Estimator>)
    ensures m.Some? <==> k != PolynomialRegression
    ensures m.Some? ==> m.value.spec == EngineFor(k, params) && m.value.fittedOn.None?
  {
    if k == PolynomialRegression then None else Some(Estimator(EngineFor(k, params), None))
  }

  /**
   * The input handed to the engine by `train` and `predict`: the min-max
   * rescaled matrix when `scale_x` is truthy, the matrix itself otherwise.
   * The rescaling is a parameter; it is not modelled.
   */
  function ScaledInput(params: Params, x: Matrix, scale: Matrix -> Matrix): Matrix
  {
    if Truthy(Get(params, "scale_x", NoneV)) then scale(x) else x
  }

  /** With the default parameters the input is rescaled. */
  lemma DefaultsScale(x: Matrix, scale: Matrix -> Matrix)
    ensures ScaledInput(Defaults, x, scale) == scale(x)
  {
  }

  /** `compress_keys` and `dict_to_short_str` from nfvtcp.helper, which this model does not define. */
  datatype Helpers = Helpers(compressKeys: Params -> Params, dictToShortStr: Params -> string)

  /** The KeyError raised by `del d[key]` for a missing key. */
  datatype KeyError = KeyError(key: string)

  /**
   * `short_config`: the short name, an underscore, and the short string of
   * the compressed parameters without `scale_x` and `name`. Deleting
   * `scale_x` raises KeyError when compression has not kept it.
   */
  function ShortConfig(k: Kind, params: Params, h: Helpers): (r: Result<string, KeyError>)
    ensures r.Err? <==> "scale_x" !in h.compressKeys(params)
    ensures r.Err? ==> r.error == KeyError("scale_x")
    ensures r.Ok? ==> |r.value| > |ShortName(k)| && r.value[..|ShortName(k)| + 1] == ShortName(k) + "_"
  {
    var cparams := h.compressKeys(params);
    if "scale_x" !in cparams then Err(KeyError("scale_x"))
    else Ok(ShortName(k) + "_" + h.dictToShortStr(cparams - {"scale_x", "name"}))
  }

  /**
   * The result row of `get_results`: never `scale_x`; every other parameter
   * with its value; `predictor` and `predictor_conf` are the short name and
   * the short configuration unless the parameters themselves hold those keys,
   * since the parameters are merged in after them. Building the short
   * configuration, or deleting a missing `scale_x`, raises KeyError.
   */
  function ResultRow(k: Kind, params: Params, h: Helpers): (r: Result<Params, KeyError>)
    ensures r.Err? <==> ShortConfig(k, params, h).Err? || "scale_x" !in params
    ensures r.Err? ==> r.error == KeyError("scale_x")
    ensures r.Ok? ==> "scale_x" !in r.value
    ensures r.Ok? ==> r.value.Keys == (params.Keys - {"scale_x"}) + {"predictor", "predictor_conf"}
    ensures r.Ok? ==> forall key :: key in params && key != "scale_x" ==> r.value[key] == params[key]
    ensures r.Ok? ==> r.value["predictor"] == Get(params, "predictor", Str(ShortName(k)))
    ensures r.Ok? ==> r.value["predictor_conf"] == Get(params, "predictor_conf", Str(ShortConfig(k, params, h).value))
  {
    var conf := ShortConfig(k, params, h);
    if conf.Err? then Err(conf.error)
    else if "scale_x" !in params then Err(KeyError("scale_x"))
    else Ok((map["predictor" := Str(ShortName(k)), "predictor_conf" := Str(conf.value)] + params) - {"scale_x"})
  }

  /** `predict` on a polynomial predictor that was never trained fails on its missing feature expansion. */
  datatype PredictError = NoFeatureExpansion

  /** One predictor instance: an adapter of kind `kind` with its parameters, flag and estimator. */
  class Predictor {
    const kind: Kind
    var params: Params
    var trained: bool
    var m: Option<Estimator>

    /** Every default key stays present, and the estimator is the one the adapter builds. */
    ghost predicate Valid()
      reads this
    {
      && Defaults.Keys <= params.Keys
      && (kind != PolynomialRegression ==> m.Some?)
      && (m.Some? ==> m.value.spec == EngineFor(kind, params))
    }

    /** `cls(**kwargs)`: the base constructor, then the adapter's choice of estimator. */
    constructor (kind: Kind, kwargs: Params)
      ensures Valid()
      ensures this.kind == kind && params == InitialParams(kwargs) && !trained
      ensures m == InitialEngine(kind, params)
    {
      this.kind := kind;
      var p := Defaults;
      p := p + kwargs;
      params := p;
      trained := false;
      m := InitialEngine(kind, p);
    }

    /** `reinitialize(repetition_id)`: a no-op hook. */
    method Reinitialize(repetitionId: int)
      ensures params == old(params) && trained == old(trained) && m == old(m)
    {
    }

    /**
     * `train(c, r)`: the input is rescaled when `scale_x` is truthy and the
     * estimator is fitted on it. The base `_train` sets `trained`; the
     * polynomial adapter's `_train` builds a new feature expansion and linear
     * model from `degree` and never sets it.
     */
    method Train(x: Matrix, y: seq<real>, scale: Matrix -> Matrix)
      requires Valid()
      modifies this
      ensures Valid() && params == old(params)
      ensures trained == (old(trained) || kind != PolynomialRegression)
      ensures m == Some(Estimator(EngineFor(kind, params), Some(Sample(ScaledInput(params, x, scale), y))))
    {
      var xs := if Truthy(Get(params, "scale_x", NoneV)) then scale(x) else x;
      if kind == PolynomialRegression {
        m := Some(Estimator(PolyLinear(Get(params, "degree", NoneV)), Some(Sample(xs, y))));
      } else {
        m := Some(m.value.(fittedOn := Some(Sample(xs, y))));
        trained := true;
      }
    }

    /**
     * `predict(c)` up to the engine boundary: `query` is the batch handed to
     * the estimator (rescaled from the batch itself when `scale_x` is truthy),
     * and `warned` says whether "Model not trained!" is logged. The call goes
     * ahead after the warning, except that an untrained polynomial predictor
     * has no feature expansion to apply and fails.
     */
    method Predict(x: Matrix, scale: Matrix -> Matrix) returns (query: Result<Matrix, PredictError>, warned: bool)
      requires Valid()
      ensures warned == (if kind == PolynomialRegression then m.None? else !trained)
      ensures query.Err? <==> kind == PolynomialRegression && m.None?
      ensures query.Ok? ==> query.value == ScaledInput(params, x, scale)
    {
      var xs := if Truthy(Get(params, "scale_x", NoneV)) then scale(x) else x;
      if kind == PolynomialRegression {
        warned := m.None?;
        if m.None? {
          query := Err(NoFeatureExpansion);
        } else {
          query := Ok(xs);
        }
      } else {
        warned := m.None? || !trained;
        query := Ok(xs);
      }
    }

    /**
     * `get_results()`: build the row from the short name and the short
     * configuration, merge the parameters in, delete `scale_x`.
     */
    method GetResults(h: Helpers) returns (r: Result<Params, KeyError>)
      requires Valid()
      ensures r == ResultRow(kind, params, h)
      ensures r.Err? <==> "scale_x" !in h.compressKeys(params)
    {
      var conf := ShortConfig(kind, params, h);
      if conf.Err? {
        return Err(conf.error);
      }
      var row := map["predictor" := Str(ShortName(kind)), "predictor_conf" := Str(conf.value)];
      row := row + params;
      assert "scale_x" in Defaults;
      row := row - {"scale_x"};
      r := Ok(row);
    }
  }

  /*
   * `Predictor.generate(conf)`: one predictor per point of the sweep over
   * `degree` and `epsilon`.
   */

  /** The degree specification of a configuration, 2 when it names none. */
  function DegreeSpec(conf: Params): Value
  {
    Get(conf, "degree", Int(2))
  }

  /** The epsilon specification of a configuration, 0.1 when it names none. */
  function EpsilonSpec(conf: Params): Value
  {
    Get(conf, "epsilon", Float(0.1))
  }

  /** One point of the sweep. */
  datatype Point = Point(degree: Value, epsilon: Value)

  /** The points of one outer iteration: degree `d` with each epsilon in turn. */
  function Row(d: Value, es: seq<Value>): (r: seq<Point>)
    ensures |r| == |es|
    ensures forall j :: 0 <= j < |es| ==> r[j] == Point(d, es[j])
  {
    if es == [] then [] else Row(d, es[..|es| - 1]) + [Point(d, es[|es| - 1])]
  }

  /** The nested iteration: every degree in order, each with every epsilon in order. */
  function Grid(ds: seq<Value>, es: seq<Value>): seq<Point>
  {
    if ds == [] then [] else Grid(ds[..|ds| - 1], es) + Row(ds[|ds| - 1], es)
  }

  /** Taking one more degree appends that degree's row to the grid. */
  lemma GridExtend(ds: seq<Value>, i: int, es: seq<Value>)
    requires 0 <= i < |ds|
    ensures Grid(ds[..i + 1], es) == Grid(ds[..i], es) + Row(ds[i], es)
  {
    assert ds[..i + 1][..i] == ds[..i];
  }

  /** Index `i * m + j` of a block of `n` rows of `m` lies before row `n`. */
  lemma BlockIndex(i: int, j: int, n: int, m: int)
    requires 0 <= i < n && 0 <= j < m
    ensures 0 <= i * m + j < n * m
  {
    assert n * m == (i + 1) * m + (n - i - 1) * m;
    assert (n - i - 1) * m >= 0;
  }

  /** The grid has one point per pair of a degree and an epsilon. */
  lemma {:induction false} GridLength(ds: seq<Value>, es: seq<Value>)
    ensures |Grid(ds, es)| == |ds| * |es|
  {
    if ds != [] {
      GridLength(ds[..|ds| - 1], es);
      assert |ds| * |es| == (|ds| - 1) * |es| + |es|;
    }
  }

  /** The grid is degree-major: point `i * |es| + j` pairs degree `i` with epsilon `j`. */
  lemma {:induction false} GridAt(ds: seq<Value>, es: seq<Value>, i: int, j: int)
    requires 0 <= i < |ds| && 0 <= j < |es|
    ensures |Grid(ds, es)| == |ds| * |es|
    ensures 0 <= i * |es| + j < |Grid(ds, es)|
    ensures Grid(ds, es)[i * |es| + j] == Point(ds[i], es[j])
  {
    GridLength(ds, es);
    var init := ds[..|ds| - 1];
    var n := |init|;
    GridLength(init, es);
    if i < n {
      BlockIndex(i, j, n, |es|);
      GridAt(init, es, i, j);
    } else {
      assert i * |es| + j == n * |es| + j;
    }
  }

  /**
   * The grid is the degree-major product: `|ds| * |es|` points, and point
   * `i * |es| + j` pairs degree `i` with epsilon `j`.
   */
  lemma GridShape(ds: seq<Value>, es: seq<Value>)
    ensures |Grid(ds, es)| == |ds| * |es|
    ensures forall i, j :: 0 <= i < |ds| && 0 <= j < |es| ==>
              Grid(ds, es)[i * |es| + j] == Point(ds[i], es[j])
  {
    GridLength(ds, es);
    forall i, j | 0 <= i < |ds| && 0 <= j < |es|
      ensures 0 <= i * |es| + j < |Grid(ds, es)| && Grid(ds, es)[i * |es| + j] == Point(ds[i], es[j])
    {
      BlockIndex(i, j, |ds|, |es|);
      GridAt(ds, es, i, j);
    }
  }

  /**
   * The sweep over an expansion of the degrees and one of the epsilons:
   * degree-major. The epsilons are expanded inside the outer iteration, so
   * their expansion is never looked at, and never rejected, when the degrees
   * expand to nothing; a failed degree expansion is reported first.
   */
  function Sweep(dr: Result<seq<Value>, Config.ExpandError>, er: Result<seq<Value>, Config.ExpandError>)
    : (r: Result<seq<Point>, Config.ExpandError>)
    ensures r.Err? <==> dr.Err? || (dr.value != [] && er.Err?)
    ensures r.Err? ==> r.error == (if dr.Err? then dr.error else er.error)
  {
    if dr.Err? then Err(dr.error)
    else if dr.value == [] then Ok([])
    else if er.Err? then Err(er.error)
    else Ok(Grid(dr.value, er.value))
  }

  /** The points `generate` builds predictors for, from the configuration as it is passed in. */
  function Points(conf: Params): Result<seq<Point>, Config.ExpandError>
  {
    Sweep(Config.Expand(DegreeSpec(conf)), Config.Expand(EpsilonSpec(conf)))
  }

  /**
   * A successful sweep has one point per pair of an expanded degree and an
   * expanded epsilon, degree-major.
   */
  lemma SweepShape(dr: Result<seq<Value>, Config.ExpandError>, er: Result<seq<Value>, Config.ExpandError>)
    requires Sweep(dr, er).Ok?
    ensures dr.Ok?
    ensures dr.value == [] ==> Sweep(dr, er).value == []
    ensures dr.value != [] ==>
              && er.Ok?
              && |Sweep(dr, er).value| == |dr.value| * |er.value|
              && forall i, j :: 0 <= i < |dr.value| && 0 <= j < |er.value| ==>
                   Sweep(dr, er).value[i * |er.value| + j] == Point(dr.value[i], er.value[j])
  {
    if dr.value != [] {
      var ds, es := dr.value, er.value;
      assert Sweep(dr, er).value == Grid(ds, es);
      GridShape(ds, es);
    }
  }

  /** An empty configuration sweeps exactly the default point, degree 2 and epsilon 0.1. */
  lemma PointsOfEmpty()
    ensures Points(map[]) == Ok([Point(Int(2), Float(0.1))])
  {
    assert DegreeSpec(map[]) == Int(2) && EpsilonSpec(map[]) == Float(0.1);
    assert Config.Expand(Int(2)) == Ok([Int(2)]);
    assert Config.Expand(Float(0.1)) == Ok([Float(0.1)]);
    var g := Grid([Int(2)], [Float(0.1)]);
    assert [Int(2)][..0] == [];
    assert g == Row(Int(2), [Float(0.1)]);
    assert |g| == 1 && g[0] == Point(Int(2), Float(0.1));
    assert g == [Point(Int(2), Float(0.1))];
    assert Points(map[]) == Ok(g);
  }

  /** The keyword arguments of one instance, `degree=d, epsilon=e, **rest`. */
  function Kwargs(rest: Params, pt: Point): Params
  {
    rest["degree" := pt.degree]["epsilon" := pt.epsilon]
  }

  /**
   * The parameters of an instance built from the configuration without
   * `degree` and `epsilon`: the point's degree and epsilon, the configuration's
   * other values, and the defaults for whatever else.
   */
  lemma InstanceParams(conf: Params, pt: Point)
    ensures var p := InitialParams(Kwargs(conf - {"degree", "epsilon"}, pt));
      && p.Keys == Defaults.Keys + conf.Keys
      && p["degree"] == pt.degree && p["epsilon"] == pt.epsilon
      && (forall key :: key in conf && key != "degree" && key != "epsilon" ==> p[key] == conf[key])
      && (forall key :: key in Defaults && key !in conf && key != "degree" && key != "epsilon" ==>
            p[key] == Defaults[key])
  {
    var rest := conf - {"degree", "epsilon"};
    var kw := Kwargs(rest, pt);
    assert kw.Keys == rest.Keys + {"degree", "epsilon"};
    assert Defaults.Keys + kw.Keys == Defaults.Keys + conf.Keys;
  }

  /** A predictor of kind `kind` just built from keyword arguments `kwargs`. */
  ghost predicate NewInstance(p: Predictor, kind: Kind, kwargs: Params)
    reads p
  {
    && p.Valid() && p.kind == kind && !p.trained
    && p.params == InitialParams(kwargs) && p.m == InitialEngine(kind, p.params)
  }

  /** The inner loop of `generate`: one new predictor per epsilon, with degree `d` and the remaining configuration `rest`. */
  method GenerateRow(kind: Kind, rest: Params, d: Value, es: seq<Value>) returns (row: seq<Predictor>)
    ensures |row| == |es|
    ensures forall j :: 0 <= j < |row| ==> fresh(row[j]) && NewInstance(row[j], kind, Kwargs(rest, Point(d, es[j])))
    ensures forall a, b :: 0 <= a < b < |row| ==> row[a] != row[b]
  {
    row := [];
    var j := 0;
    while j < |es|
      invariant 0 <= j <= |es| && |row| == j
      invariant forall n :: 0 <= n < j ==> fresh(row[n]) && NewInstance(row[n], kind, Kwargs(rest, Point(d, es[n])))
      invariant forall a, b :: 0 <= a < b < j ==> row[a] != row[b]
    {
      var p := new Predictor(kind, Kwargs(rest, Point(d, es[j])));
      row := row + [p];
      j := j + 1;
    }
  }

  /** One outer iteration of `generate`: the row for degree `d` appended to the predictors built so far. */
  method AppendRow(kind: Kind, rest: Params, out: seq<Predictor>, ghost done: seq<Point>, d: Value, es: seq<Value>)
    returns (out': seq<Predictor>, ghost done': seq<Point>)
    requires |out| == |done|
    requires forall n :: 0 <= n < |out| ==> NewInstance(out[n], kind, Kwargs(rest, done[n]))
    requires forall a, b :: 0 <= a < b < |out| ==> out[a] != out[b]
    ensures done' == done + Row(d, es) && |out'| == |done'|
    ensures out'[..|out|] == out
    ensures forall n :: |out| <= n < |out'| ==> fresh(out'[n])
    ensures forall n :: 0 <= n < |out'| ==> NewInstance(out'[n], kind, Kwargs(rest, done'[n]))
    ensures forall a, b :: 0 <= a < b < |out'| ==> out'[a] != out'[b]
  {
    var row := GenerateRow(kind, rest, d, es);
    out' := out + row;
    done' := done + Row(d, es);
    assert out'[..|out|] == out;
  }

  /**
   * The nested loops of `generate` over the expanded degrees `ds`, where `er`
   * is the expansion of the epsilon specification. `generate` in
   * nfvtcp/predictor.py expands the epsilons afresh inside each outer
   * iteration; expansion is a pure function of the specification, so
   * consulting its one result inside the outer loop behaves the same: with
   * no degrees it is never looked at, otherwise its error is reported before
   * any predictor is returned.
   */
  method GenerateSweep(kind: Kind, rest: Params, ds: seq<Value>, er: Result<seq<Value>, Config.ExpandError>)
    returns (r: Result<seq<Predictor>, Config.ExpandError>)
    ensures var pts := Sweep(Ok(ds), er);
      && (r.Ok? <==> pts.Ok?)
      && (r.Err? ==> r.error == pts.error)
      && (r.Ok? ==> |r.value| == |pts.value|)
      && (r.Ok? ==> forall n :: 0 <= n < |r.value| ==>
            fresh(r.value[n]) && NewInstance(r.value[n], kind, Kwargs(rest, pts.value[n])))
    ensures r.Ok? ==> forall a, b :: 0 <= a < b < |r.value| ==> r.value[a] != r.value[b]
  {
    var out: seq<Predictor> := [];
    ghost var done: seq<Point> := [];
    var i := 0;
    while i < |ds|
      invariant 0 <= i <= |ds|
      invariant i == 0 ==> done == []
      invariant i > 0 ==> er.Ok? && done == Grid(ds[..i], er.value)
      invariant |out| == |done|
      invariant forall n :: 0 <= n < |out| ==> fresh(out[n]) && NewInstance(out[n], kind, Kwargs(rest, done[n]))
      invariant forall a, b :: 0 <= a < b < |out| ==> out[a] != out[b]
    {
      if er.Err? {
        return Err(er.error);
      }
      var es := er.value;
      GridExtend(ds, i, es);
      ghost var before := out;
      out, done := AppendRow(kind, rest, out, done, ds[i], es);
      assert forall n :: 0 <= n < |before| ==> out[n] == before[n];
      i := i + 1;
    }
    assert ds[..i] == ds;
    r := Ok(out);
  }

  /**
   * `Predictor.generate(conf)` for the class of `kind`. The caller's dict
   * loses `degree` and `epsilon` before anything is expanded, so it loses
   * them even when expansion fails. On success there is one new, untrained
   * predictor per point of the sweep, in sweep order, each built from the
   * point's degree and epsilon and the rest of the configuration.
   */
  method Generate(kind: Kind, conf: DictRef) returns (r: Result<seq<Predictor>, Config.ExpandError>)
    modifies conf
    ensures conf.items == old(conf.items) - {"degree", "epsilon"}
    ensures var pts := Points(old(conf.items));
      && (r.Ok? <==> pts.Ok?)
      && (r.Err? ==> r.error == pts.error)
      && (r.Ok? ==> |r.value| == |pts.value|)
      && (r.Ok? ==> forall n :: 0 <= n < |r.value| ==>
            fresh(r.value[n]) && NewInstance(r.value[n], kind, Kwargs(conf.items, pts.value[n])))
    ensures r.Ok? ==> forall a, b :: 0 <= a < b < |r.value| ==> r.value[a] != r.value[b]
  {
    var degrees := Get(conf.items, "degree", Int(2));
    var epsilons := Get(conf.items, "epsilon", Float(0.1));
    if "degree" in conf.items {
      conf.items := conf.items - {"degree"};
    }
    if "epsilon" in conf.items {
      conf.items := conf.items - {"epsilon"};
    }
    var ds := Config.Expand(degrees);
    if ds.Err? {
      return Err(ds.error);
    }
    r := GenerateSweep(kind, conf.items, ds.value, Config.Expand(epsilons));
  }
}
