/**
 * The risk models of src/modules/risk_assessment/risk_model.py. A model is an immutable
 * configuration (nothing, a weight dict, or a scoring function), and `calculate_risk` is a
 * dict check followed by one expression, so each model is a value of `RiskModel` and
 * `CalculateRisk` a function of the model and the data.
 */
module RiskModels {
  import opened Wrappers
  import opened Exceptions
  import opened Dicts

  /** What a caller passes as `data`: a dict of numeric risk factors, or any other Python value. */
  datatype Value = Dict(entries: RealDict) | NotDict

  const NotADictMessage := "Data must be a dictionary."
  const LengthMismatchMessage := "Data and weights must have the same length."
  const AbstractMessage := "Subclasses should implement this method."

  /**
   * The four classes: `RiskModel` itself and its three subclasses, plus any subclass a
   * caller defines, whose `calculate_risk` (overridden or inherited) is whatever it is.
   */
  datatype RiskModel =
    | Base
    | Simple
    | Advanced(weights: RealDict)
    | Custom(calculation: RealDict -> Result<real, Exception>)
    | UserDefined(calculate: Value -> Result<real, Exception>)

  /** The weights of the "advanced" model both registries are seeded with. */
  const DefaultWeights: RealDict := [("factor1", 0.5), ("factor2", 1.5), ("factor3", 2.0)]

  /**
   * `validate_data`: every model requires a dict; the advanced model also requires as many
   * entries as it has weights (only the count is compared, not the keys).
   */
  function ValidateData(m: RiskModel, data: Value): (r: Option<Exception>)
    ensures r.None? <==> data.Dict? && (m.Advanced? ==> |data.entries| == |m.weights|)
    ensures data.NotDict? ==> r == Some(ValueError(NotADictMessage))
    ensures data.Dict? && r.Some? ==> r == Some(ValueError(LengthMismatchMessage))
  {
    match data
    case NotDict => Some(ValueError(NotADictMessage))
    case Dict(entries) =>
      if m.Advanced? && |entries| != |m.weights| then Some(ValueError(LengthMismatchMessage)) else None
  }

  /** The simple score: the sum of the values over their number, and 0 for an empty dict. */
  function Mean(entries: RealDict): real {
    if |entries| == 0 then 0.0 else Total(entries) / (|entries| as real)
  }

  /** `weights.get(k, 0)`, used only to state what the advanced score is. */
  function WeightOf(weights: RealDict, k: string): real {
    match Get(weights, k)
    case Some(w) => w
    case None => 0.0
  }

  /** The term `data[k] * weights[k]` contributed by the entry `(k, data[k])`. */
  function WeightedTerm(weights: RealDict): Entry -> real {
    (e: Entry) => e.1 * WeightOf(weights, e.0)
  }

  /** The weighted sum Σ data[k] * weights[k] over the keys of `data`. */
  ghost function Dot(entries: seq<Entry>, weights: RealDict): real {
    SumBy(entries, WeightedTerm(weights))
  }

  /**
   * `sum([data[key] * weights[key] for key in data])`: the comprehension walks `data` in
   * insertion order and raises `KeyError` at the first key that has no weight.
   */
  function WeightedSum(entries: seq<Entry>, weights: RealDict): (r: Result<real, Exception>)
    ensures r.Ok? <==> forall i :: 0 <= i < |entries| ==> entries[i].0 in Keys(weights)
    ensures r.Ok? ==> r.value == Dot(entries, weights)
    ensures r.Err? ==> exists i :: 0 <= i < |entries| && r.error == KeyError(entries[i].0)
                                   && entries[i].0 !in Keys(weights)
                                   && forall j :: 0 <= j < i ==> entries[j].0 in Keys(weights)
  {
    if entries == [] then Ok(0.0)
    else
      match Get(weights, entries[0].0)
      case None => Err(KeyError(entries[0].0))
      case Some(w) =>
        match WeightedSum(entries[1..], weights)
        case Err(e) =>
          assert forall j :: 0 <= j < |entries| - 1 ==> entries[1..][j] == entries[j + 1];
          Err(e)
        case Ok(s) => Ok(entries[0].1 * w + s)
  }

  /** `calculate_risk(data)` of each class. */
  function CalculateRisk(m: RiskModel, data: Value): (r: Result<real, Exception>)
    // the base class has no scoring of its own and does not look at the data
    ensures m.Base? ==> r == Err(NotImplementedError(AbstractMessage))
    // the three subclasses reject a non-dict before any arithmetic
    ensures (m.Simple? || m.Advanced? || m.Custom?) && data.NotDict? ==> r == Err(ValueError(NotADictMessage))
    // simple: the arithmetic mean, and 0 for the empty dict
    ensures m.Simple? && data.Dict? ==> r.Ok? && r.value * (|data.entries| as real) == Total(data.entries)
    ensures m.Simple? && data == Dict([]) ==> r == Ok(0.0)
    // advanced: a count mismatch fails whatever the values are
    ensures m.Advanced? && data.Dict? && |data.entries| != |m.weights| ==>
              r == Err(ValueError(LengthMismatchMessage))
    // advanced: a score is the weighted sum over the sum of the weights, which is not zero
    ensures m.Advanced? && r.Ok? ==> Total(m.weights) != 0.0
                                     && r.value * Total(m.weights) == Dot(data.entries, m.weights)
    ensures m.Advanced? && Total(m.weights) == 0.0 ==> r.Err?
    // custom: exactly what the supplied function returns or raises
    ensures m.Custom? && data.Dict? ==> r == m.calculation(data.entries)
    // a caller's own subclass: its own method, on any data
    ensures m.UserDefined? ==> r == m.calculate(data)
  {
    match m
    case Base => Err(NotImplementedError(AbstractMessage))
    case Simple =>
      (match ValidateData(m, data)
       case Some(e) => Err(e)
       case None => Ok(Mean(data.entries)))
    case Advanced(weights) =>
      (match ValidateData(m, data)
       case Some(e) => Err(e)
       case None =>
         match WeightedSum(data.entries, weights)
         case Err(e) => Err(e)
         case Ok(s) => if Total(weights) == 0.0 then Err(ZeroDivisionError) else Ok(s / Total(weights)))
    case Custom(calculation) =>
      (match ValidateData(m, data)
       case Some(e) => Err(e)
       case None => calculation(data.entries))
    case UserDefined(calculate) => calculate(data)
  }

  /** When the data has exactly the weights' keys, the advanced score is the weighted average. */
  lemma AdvancedWeightedAverage(weights: RealDict, entries: RealDict)
    requires Keys(entries) == Keys(weights)
    ensures CalculateRisk(Advanced(weights), Dict(entries))
            == if Total(weights) == 0.0 then Err(ZeroDivisionError)
               else Ok(Dot(entries, weights) / Total(weights))
  {
    KeysCount(entries);
    KeysCount(weights);
    assert forall i :: 0 <= i < |entries| ==> entries[i].0 in Keys(weights);
  }

  /**
   * Equal counts do not mean equal keys: a data key without a weight raises `KeyError`,
   * and it is the first such key in insertion order.
   */
  lemma AdvancedMissingKey(weights: RealDict, entries: RealDict, i: nat)
    requires |entries| == |weights| && i < |entries|
    requires entries[i].0 !in Keys(weights)
    requires forall j :: 0 <= j < i ==> entries[j].0 in Keys(weights)
    ensures CalculateRisk(Advanced(weights), Dict(entries)) == Err(KeyError(entries[i].0))
  {
    var r := WeightedSum(entries, weights);
    assert r.Err?;
    var k :| 0 <= k < |entries| && r.error == KeyError(entries[k].0) && entries[k].0 !in Keys(weights)
              && forall j :: 0 <= j < k ==> entries[j].0 in Keys(weights);
    assert k == i;
  }

  /** Empty data against an empty weight dict passes validation and then divides by zero. */
  lemma AdvancedEmptyDividesByZero()
    ensures CalculateRisk(Advanced([]), Dict([])) == Err(ZeroDivisionError)
  {
  }

  /** The default "advanced" model on factors 5, 10, 10: (2.5 + 15 + 20) / 4. */
  lemma AdvancedDefaultExample()
    ensures CalculateRisk(Advanced(DefaultWeights), Dict([("factor1", 5.0), ("factor2", 10.0), ("factor3", 10.0)]))
            == Ok(9.375)
  {
    var data: RealDict := [("factor1", 5.0), ("factor2", 10.0), ("factor3", 10.0)];
    assert Total(DefaultWeights) == 4.0;
    assert WeightedSum(data, DefaultWeights) == Ok(37.5);
  }

  lemma {:induction false} TotalBounds(d: seq<Entry>, lo: real, hi: real)
    requires forall i :: 0 <= i < |d| ==> lo <= d[i].1 <= hi
    ensures (|d| as real) * lo <= Total(d) <= (|d| as real) * hi
  {
    if d != [] {
      TotalBounds(d[1..], lo, hi);
    }
  }

  /** The simple score of a non-empty dict lies between its smallest and its largest value. */
  lemma SimpleWithinBounds(entries: RealDict, lo: real, hi: real)
    requires entries != []
    requires forall i :: 0 <= i < |entries| ==> lo <= entries[i].1 <= hi
    ensures CalculateRisk(Simple, Dict(entries)).Ok?
    ensures lo <= CalculateRisk(Simple, Dict(entries)).value <= hi
  {
    TotalBounds(entries, lo, hi);
    var n := |entries| as real;
    var r := CalculateRisk(Simple, Dict(entries)).value;
    assert r * n == Total(entries);
  }

  lemma WeightedSumPermutation(a: RealDict, b: RealDict, weights: RealDict)
    requires multiset(a) == multiset(b)
    ensures WeightedSum(a, weights).Ok? == WeightedSum(b, weights).Ok?
    ensures WeightedSum(a, weights).Ok? ==> WeightedSum(a, weights) == WeightedSum(b, weights)
  {
    if WeightedSum(a, weights).Ok? {
      AllWeighted(a, b, weights);
    }
    if WeightedSum(b, weights).Ok? {
      AllWeighted(b, a, weights);
    }
    SumByPermutation(a, b, WeightedTerm(weights));
  }

  lemma AllWeighted(a: seq<Entry>, b: seq<Entry>, weights: RealDict)
    requires multiset(a) == multiset(b)
    requires forall i :: 0 <= i < |a| ==> a[i].0 in Keys(weights)
    ensures forall j :: 0 <= j < |b| ==> b[j].0 in Keys(weights)
  {
    forall j | 0 <= j < |b| ensures b[j].0 in Keys(weights) {
      assert b[j] in multiset(a);
    }
  }

  /**
   * Dicts with the same items score the same under the simple and the advanced model,
   * whatever order the items were inserted in.
   */
  lemma ScoreIgnoresInsertionOrder(m: RiskModel, a: RealDict, b: RealDict)
    requires m.Simple? || m.Advanced?
    requires multiset(a) == multiset(b)
    ensures CalculateRisk(m, Dict(a)).Ok? == CalculateRisk(m, Dict(b)).Ok?
    ensures CalculateRisk(m, Dict(a)).Ok? ==> CalculateRisk(m, Dict(a)) == CalculateRisk(m, Dict(b))
  {
    assert |a| == |multiset(a)| == |multiset(b)| == |b|;
    SumByPermutation(a, b, ValueOf);
    if m.Advanced? {
      WeightedSumPermutation(a, b, m.weights);
    }
  }
}
