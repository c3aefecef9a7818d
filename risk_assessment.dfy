/**
 * `RiskAssessmentModule` of src/modules/risk_assessment/__init__.py: a second registry that,
 * unlike `RiskEvaluator`, refuses anything that is not a risk model and overwrites silently.
 */
module RiskAssessment {
  import opened Wrappers
  import opened Exceptions
  import opened RiskModels
  import opened RiskEvaluation

  const NotARiskModelMessage := "Model instance must be a subclass of RiskModel."

  class RiskAssessmentModule {
    var models: map<string, Instance>

    /** Only `RiskModel` instances (of the library's classes or a caller's subclass) are ever stored. */
    ghost predicate Valid()
      reads this
    {
      forall n :: n in models ==> models[n].Model?
    }

    constructor ()
      ensures Valid()
      ensures models == DefaultModels()
    {
      models := map[];
      new;
      var _ := RegisterModel("simple", Model(Simple));
      var _ := RegisterModel("advanced", Model(Advanced(DefaultWeights)));
    }

    /** `register_model`: a non-model raises `ValueError`; a model replaces any earlier one. */
    method RegisterModel(name: string, instance: Instance) returns (error: Option<Exception>)
      requires Valid()
      modifies this`models
      ensures Valid()
      ensures !instance.Model? ==> error == Some(ValueError(NotARiskModelMessage)) && models == old(models)
      ensures instance.Model? ==> error == None && models == old(models)[name := instance]
      ensures instance.Model? ==> GetModel(name) == Ok(instance)
    {
      if !instance.Model? {
        return Some(ValueError(NotARiskModelMessage));
      }
      models := models[name := instance];
      error := None;
    }

    /** `get_model`: the stored model, or `ValueError` for a name nobody registered. */
    function GetModel(name: string): (r: Result<Instance, Exception>)
      reads this
      ensures Valid() ==> (r.Ok? <==> name in models)
      ensures r.Ok? ==> name in models && r.value == models[name]
      ensures r.Err? ==> r.error == NotFound(name)
    {
      FindModel(models, name)
    }

    /** `evaluate_risk`: the looked-up model's score; no error is caught. */
    function EvaluateRisk(entityId: string, name: string, data: Value): (r: Result<real, Exception>)
      reads this
      ensures name !in models ==> r == Err(NotFound(name))
      ensures name in models && models[name].Model? ==> r == CalculateRisk(models[name].model, data)
    {
      match GetModel(name)
      case Err(e) => Err(e)
      case Ok(instance) => CallCalculateRisk(instance, data)
    }
  }
}
