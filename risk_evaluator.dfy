/**
 * src/modules/risk_assessment/risk_evaluator.py: a registry of named risk models that
 * evaluates one entity, or a batch of entities with each failure recorded as `None`.
 */
module RiskEvaluation {
  import opened Wrappers
  import opened Exceptions
  import opened RiskModels

  /**
   * An object stored under a model name. Python registries hold any object: a risk model,
   * `None`, or some other object whose `calculate_risk` (if it has one) does whatever it does.
   */
  datatype Instance =
    | Model(model: RiskModel)
    | NoneObject
    | Foreign(calculateRisk: Value -> Result<real, Exception>)

  /** `instance.calculate_risk(data)`. */
  function CallCalculateRisk(instance: Instance, data: Value): (r: Result<real, Exception>)
    ensures instance.Model? ==> r == CalculateRisk(instance.model, data)
    ensures instance.Foreign? ==> r == instance.calculateRisk(data)
    ensures instance.NoneObject? ==> r == Err(AttributeError("calculate_risk"))
  {
    match instance
    case Model(m) => CalculateRisk(m, data)
    case NoneObject => Err(AttributeError("calculate_risk"))
    case Foreign(calculate) => calculate(data)
  }

  function NotFound(name: string): Exception {
    ValueError("Model '" + name + "' not found.")
  }

  /** `models.get(name)`, failing with `ValueError` when that is `None`. */
  function FindModel(models: map<string, Instance>, name: string): (r: Result<Instance, Exception>)
    ensures r.Ok? <==> name in models && !models[name].NoneObject?
    ensures r.Ok? ==> r.value == models[name]
    ensures r.Err? ==> r.error == NotFound(name)
  {
    if name in models && !models[name].NoneObject? then Ok(models[name]) else Err(NotFound(name))
  }

  /** The models every registry starts with. */
  function DefaultModels(): (models: map<string, Instance>)
    ensures models.Keys == {"simple", "advanced"}
    ensures models["simple"] == Model(Simple)
    ensures models["advanced"] == Model(Advanced(DefaultWeights))
  {
    map["simple" := Model(Simple), "advanced" := Model(Advanced(DefaultWeights))]
  }

  /** A batch entry: the score, or `None` for an evaluation that raised. */
  function BatchEntry(r: Result<real, Exception>): (entry: Option<real>)
    ensures entry.Some? <==> r.Ok?
    ensures r.Ok? ==> entry.value == r.value
  {
    match r
    case Ok(score) => Some(score)
    case Err(_) => None
  }

  class RiskEvaluator {
    /** Stored as given and read by nothing. */
    var config: map<string, string>
    var models: map<string, Instance>

    constructor (config: map<string, string> := map[])
      ensures this.config == config
      ensures models == DefaultModels()
    {
      this.config := config;
      models := DefaultModels();
    }

    /** Installs `instance` under `name`, replacing (with a warning) any model already there. */
    method RegisterModel(name: string, instance: Instance)
      modifies this`models
      ensures models == old(models)[name := instance]
      ensures models.Keys == old(models).Keys + {name}
      ensures forall n :: n in old(models) && n != name ==> models[n] == old(models)[n]
    {
      models := models[name := instance];
    }

    function GetModel(name: string): (r: Result<Instance, Exception>)
      reads this
      ensures r.Ok? <==> name in models && !models[name].NoneObject?
      ensures r.Ok? ==> r.value == models[name]
      ensures r.Err? ==> r.error == NotFound(name)
    {
      FindModel(models, name)
    }

    /**
     * Looks the model up and scores `data` with it; every error of either step reaches the
     * caller. `entityId` only labels log lines, so the result does not depend on it.
     */
    function EvaluateRisk(entityId: string, name: string, data: Value): (r: Result<real, Exception>)
      reads this
      ensures GetModel(name).Err? ==> r == Err(NotFound(name))
      ensures GetModel(name).Ok? ==> r == CallCalculateRisk(models[name], data)
    {
      match GetModel(name)
      case Err(e) => Err(e)
      case Ok(instance) => CallCalculateRisk(instance, data)
    }

    /**
     * Scores every entity with the same model. A failure for one entity is caught and
     * recorded as `None`; the batch itself never fails and has one entry per entity.
     */
    method EvaluateRisksBatch(entities: map<string, Value>, name: string)
      returns (results: map<string, Option<real>>)
      ensures results.Keys == entities.Keys
      ensures forall e :: e in entities ==> results[e] == BatchEntry(EvaluateRisk(e, name, entities[e]))
      ensures GetModel(name).Err? ==> forall e :: e in results ==> results[e] == None
    {
      results := map[];
      var pending := entities.Keys;
      while pending != {}
        invariant pending <= entities.Keys
        invariant results.Keys == entities.Keys - pending
        invariant forall e :: e in results ==> results[e] == BatchEntry(EvaluateRisk(e, name, entities[e]))
        decreases pending
      {
        var e :| e in pending;
        var risk := EvaluateRisk(e, name, entities[e]);
        match risk {
          case Ok(score) => results := results[e := Some(score)];
          case Err(_) => results := results[e := None];
        }
        pending := pending - {e};
      }
    }
  }

  /** A fresh evaluator scores factors 5, 10, 10 with its "advanced" model as 9.375, for any entity. */
  lemma DefaultAdvancedScore(ev: RiskEvaluator, entityId: string)
    requires ev.models == DefaultModels()
    ensures ev.EvaluateRisk(entityId, "advanced", Dict([("factor1", 5.0), ("factor2", 10.0), ("factor3", 10.0)]))
            == Ok(9.375)
  {
    AdvancedDefaultExample();
  }

  /** After registering a model under a name, looking the name up gives that model back. */
  lemma RegisterThenFind(models: map<string, Instance>, name: string, instance: Instance)
    ensures FindModel(models[name := instance], name)
            == if instance.NoneObject? then Err(NotFound(name)) else Ok(instance)
    ensures forall n :: n != name ==> FindModel(models[name := instance], n) == FindModel(models, n)
  {
  }
}
