/**
 * The predictor registry (`get_by_name`) and the class names it resolves
 * (`name`), from nfvtcp/predictor.py.
 */
module Registry {
  import opened Values

  /** The eleven predictor classes, one per regression engine adapter. */
  datatype Kind =
    | PolynomialRegression
    | SupportVectorRegression
    | SVRRbfKernel
    | SVRLinearKernel
    | SVRPolyKernel
    | DecisionTreeRegression
    | LassoRegression
    | LassoLARSRegression
    | ElasticNetRegression
    | RidgeRegression
    | SGDRegression

  /** `name`: the Python class name of each kind. */
  function ClassName(k: Kind): string
  {
    match k
    case PolynomialRegression => "PolynomialRegressionPredictor"
    case SupportVectorRegression => "SupportVectorRegressionPredictor"
    case SVRRbfKernel => "SVRPredictorRbfKernel"
    case SVRLinearKernel => "SVRPredictorLinearKernel"
    case SVRPolyKernel => "SVRPredictorPolyKernel"
    case DecisionTreeRegression => "DecisionTreeRegressionPredictor"
    case LassoRegression => "LassoRegressionPredictor"
    case LassoLARSRegression => "LassoLARSRegressionPredictor"
    case ElasticNetRegression => "ElasticNetRegressionPredictor"
    case RidgeRegression => "RidgeRegressionPredictor"
    case SGDRegression => "SGDRegressionPredictor"
  }

  /** The NotImplementedError raised for an unknown name; it carries the name. */
  datatype RegistryError = NotImplemented(name: string)

  /**
   * `get_by_name(name)`: an exact, case-sensitive comparison against each
   * supported class name in turn.
   */
  function GetByName(name: string): (r: Result<Kind, RegistryError>)
    ensures r.Ok? ==> ClassName(r.value) == name
    ensures r.Err? ==> r.error == NotImplemented(name) && forall k :: ClassName(k) != name
  {
    if name == "PolynomialRegressionPredictor" then Ok(PolynomialRegression)
    else if name == "SupportVectorRegressionPredictor" then Ok(SupportVectorRegression)
    else if name == "SVRPredictorRbfKernel" then Ok(SVRRbfKernel)
    else if name == "SVRPredictorLinearKernel" then Ok(SVRLinearKernel)
    else if name == "SVRPredictorPolyKernel" then Ok(SVRPolyKernel)
    else if name == "DecisionTreeRegressionPredictor" then Ok(DecisionTreeRegression)
    else if name == "LassoRegressionPredictor" then Ok(LassoRegression)
    else if name == "LassoLARSRegressionPredictor" then Ok(LassoLARSRegression)
    else if name == "ElasticNetRegressionPredictor" then Ok(ElasticNetRegression)
    else if name == "RidgeRegressionPredictor" then Ok(RidgeRegression)
    else if name == "SGDRegressionPredictor" then Ok(SGDRegression)
    else Err(NotImplemented(name))
  }

  /** Three characters that tell the class names apart. */
  function Fingerprint(name: string): (char, char, char)
  {
    if |name| <= 12 then (' ', ' ', ' ') else (name[0], name[5], name[12])
  }

  /** The kind whose class name has a given fingerprint, if any. */
  function KindOfFingerprint(f: (char, char, char)): Option<Kind>
  {
    if f == ('P', 'o', 'g') then Some(PolynomialRegression)
    else if f == ('S', 'r', 'r') then Some(SupportVectorRegression)
    else if f == ('S', 'e', 'R') then Some(SVRRbfKernel)
    else if f == ('S', 'e', 'L') then Some(SVRLinearKernel)
    else if f == ('S', 'e', 'P') then Some(SVRPolyKernel)
    else if f == ('D', 'i', 'R') then Some(DecisionTreeRegression)
    else if f == ('L', 'R', 'i') then Some(LassoRegression)
    else if f == ('L', 'L', 'r') then Some(LassoLARSRegression)
    else if f.0 == 'E' then Some(ElasticNetRegression)
    else if f.0 == 'R' then Some(RidgeRegression)
    else if f.0 == 'S' && f.1 == 'g' then Some(SGDRegression)
    else None
  }

  /** The fingerprint of a class name identifies its kind. */
  lemma FingerprintIdentifies(k: Kind)
    ensures KindOfFingerprint(Fingerprint(ClassName(k))) == Some(k)
  {
    if k.PolynomialRegression? || k.SupportVectorRegression? || k.SVRRbfKernel? || k.SVRLinearKernel? {
      FingerprintsFirst(k);
    } else if k.SVRPolyKernel? || k.DecisionTreeRegression? || k.LassoRegression? || k.LassoLARSRegression? {
      FingerprintsMiddle(k);
    } else {
      FingerprintsLast(k);
    }
  }

  /** `FingerprintIdentifies` for the first four kinds. */
  lemma FingerprintsFirst(k: Kind)
    requires k.PolynomialRegression? || k.SupportVectorRegression? || k.SVRRbfKernel? || k.SVRLinearKernel?
    ensures KindOfFingerprint(Fingerprint(ClassName(k))) == Some(k)
  {
    match k
    case PolynomialRegression =>
    case SupportVectorRegression =>
    case SVRRbfKernel =>
    case SVRLinearKernel =>
  }

  /** `FingerprintIdentifies` for the next four kinds. */
  lemma FingerprintsMiddle(k: Kind)
    requires k.SVRPolyKernel? || k.DecisionTreeRegression? || k.LassoRegression? || k.LassoLARSRegression?
    ensures KindOfFingerprint(Fingerprint(ClassName(k))) == Some(k)
  {
    match k
    case SVRPolyKernel =>
    case DecisionTreeRegression =>
    case LassoRegression =>
    case LassoLARSRegression =>
  }

  /** `FingerprintIdentifies` for the last three kinds. */
  lemma FingerprintsLast(k: Kind)
    requires k.ElasticNetRegression? || k.RidgeRegression? || k.SGDRegression?
    ensures KindOfFingerprint(Fingerprint(ClassName(k))) == Some(k)
  {
    match k
    case ElasticNetRegression =>
    case RidgeRegression =>
    case SGDRegression =>
  }

  /** Distinct kinds have distinct class names. */
  lemma ClassNameInjective(k1: Kind, k2: Kind)
    requires ClassName(k1) == ClassName(k2)
    ensures k1 == k2
  {
    FingerprintIdentifies(k1);
    FingerprintIdentifies(k2);
  }

  /** Every class name resolves to its own kind. */
  lemma GetByNameRoundTrip(k: Kind)
    ensures GetByName(ClassName(k)) == Ok(k)
  {
    var r := GetByName(ClassName(k));
    ClassNameInjective(r.value, k);
  }

  /**
   * The registry accepts exactly the eleven class names: a name resolves if
   * and only if it is the class name of some kind, and distinct kinds have
   * distinct names.
   */
  lemma RegistryExact(name: string)
    ensures GetByName(name).Ok? <==> exists k :: ClassName(k) == name
    ensures forall k1, k2 :: ClassName(k1) == ClassName(k2) ==> k1 == k2
  {
    var r := GetByName(name);
    if r.Ok? {
      assert ClassName(r.value) == name;
    }
    forall k1, k2 | ClassName(k1) == ClassName(k2)
      ensures k1 == k2
    {
      ClassNameInjective(k1, k2);
    }
  }
}
