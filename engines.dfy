/**
 * The regression engine each adapter wraps, recorded only as the parameters
 * its constructor receives; the numerics of the engines are not modelled.
 */
module Engines {
  import opened Values
  import opened Registry

  datatype Kernel = Rbf | Linear | Poly

  /** The estimator an adapter builds, with the arguments it passes in. */
  datatype EngineSpec =
    | PolyLinear(degree: Value)   // PolynomialFeatures(degree=...) feeding LinearRegression()
    | SVR(kernel: Kernel, c: real, epsilon: Value, polyDegree: Option<Value>)
    | DecisionTree(maxDepth: Value)
    | Lasso(alpha: Value)
    | LassoLars(alpha: Value)
    | ElasticNet(alpha: Value)
    | Ridge(alpha: Value)
    | SGD(alpha: Value, maxIter: int, tol: real)

  /**
   * The estimator each adapter builds from its parameters, with each
   * adapter's own fallback for a missing key (`self.params.get(key, fallback)`).
   * The polynomial adapter builds its estimator only when it is trained. The
   * generic SVR adapter leaves the kernel at its default, which is the RBF
   * kernel: the RBF adapter is documented as the same estimator.
   */
  function EngineFor(k: Kind, params: Params): (e: EngineSpec)
    ensures EngineParams(e).Keys == ConsumedKeys(k)
  {
    match k
    case PolynomialRegression => PolyLinear(Get(params, "degree", NoneV))
    case SupportVectorRegression => SVR(Rbf, 1.0, Get(params, "epsilon", NoneV), None)
    case SVRRbfKernel => SVR(Rbf, 1.0, Get(params, "epsilon", NoneV), None)
    case SVRLinearKernel => SVR(Linear, 1.0, Get(params, "epsilon", NoneV), None)
    case SVRPolyKernel => SVR(Poly, 1.0, Get(params, "epsilon", NoneV), Some(Get(params, "degree", NoneV)))
    case DecisionTreeRegression => DecisionTree(Get(params, "max_tree_depth", Int(2)))
    case LassoRegression => Lasso(Get(params, "alpha", Float(0.1)))
    case LassoLARSRegression => LassoLars(Get(params, "alpha", Float(1.0)))
    case ElasticNetRegression => ElasticNet(Get(params, "alpha", Float(1.0)))
    case RidgeRegression => Ridge(Get(params, "alpha", Float(1.0)))
    case SGDRegression => SGD(Get(params, "alpha", Float(0.0001)), 1000, 0.001)
  }

  /** Which configuration keys feed each adapter's engine. */
  function ConsumedKeys(k: Kind): set<string>
  {
    match k
    case PolynomialRegression => {"degree"}
    case SupportVectorRegression => {"epsilon"}
    case SVRRbfKernel => {"epsilon"}
    case SVRLinearKernel => {"epsilon"}
    case SVRPolyKernel => {"epsilon", "degree"}
    case DecisionTreeRegression => {"max_tree_depth"}
    case LassoRegression => {"alpha"}
    case LassoLARSRegression => {"alpha"}
    case ElasticNetRegression => {"alpha"}
    case RidgeRegression => {"alpha"}
    case SGDRegression => {"alpha"}
  }

  /** The configuration values an estimator was given, by configuration key. */
  function EngineParams(e: EngineSpec): Params
  {
    match e
    case PolyLinear(d) => map["degree" := d]
    case SVR(_, _, eps, deg) =>
      if deg.Some? then map["epsilon" := eps, "degree" := deg.value] else map["epsilon" := eps]
    case DecisionTree(d) => map["max_tree_depth" := d]
    case Lasso(a) => map["alpha" := a]
    case LassoLars(a) => map["alpha" := a]
    case ElasticNet(a) => map["alpha" := a]
    case Ridge(a) => map["alpha" := a]
    case SGD(a, _, _) => map["alpha" := a]
  }

  /** Two configurations that agree on an adapter's consumed keys give it the same estimator. */
  lemma EngineReadsOnlyConsumedKeys(k: Kind, p1: Params, p2: Params)
    requires forall key :: key in ConsumedKeys(k) ==> (key in p1 <==> key in p2)
    requires forall key :: key in ConsumedKeys(k) && key in p1 && key in p2 ==> p1[key] == p2[key]
    ensures EngineFor(k, p1) == EngineFor(k, p2)
  {
    match k
    case SVRPolyKernel =>
      assert Get(p1, "epsilon", NoneV) == Get(p2, "epsilon", NoneV);
      assert Get(p1, "degree", NoneV) == Get(p2, "degree", NoneV);
    case _ =>
  }

  /**
   * When the configuration holds every consumed key, the estimator receives
   * exactly the configured values: the adapter's fallback is never used.
   */
  lemma EngineTakesConfiguredValues(k: Kind, p: Params)
    requires ConsumedKeys(k) <= p.Keys
    ensures EngineParams(EngineFor(k, p)).Keys == ConsumedKeys(k)
    ensures forall key :: key in ConsumedKeys(k) ==> EngineParams(EngineFor(k, p))[key] == p[key]
  {
  }

  /** The generic SVR adapter and the RBF-kernel adapter build the same estimator. */
  lemma DefaultKernelIsRbf(p: Params)
    ensures EngineFor(SupportVectorRegression, p) == EngineFor(SVRRbfKernel, p)
    ensures EngineFor(SupportVectorRegression, p).kernel == Rbf
  {
  }
}
