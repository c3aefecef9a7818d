# Risk assessment, ethical governance and advisory core — a Dafny model

This project models the decision-making core of the nexus-hyperion-core financial platform.
It has three parts.

- **Risk assessment** (`risk_model.py`, `risk_evaluator.py`, `risk_assessment/__init__.py`):
  - the risk models: the abstract base, the simple mean, the advanced weighted score, a custom scoring function, and any subclass a caller defines;
  - `RiskEvaluator`, a registry that scores one entity or a batch of entities. In a batch, each raised `Exception` is recorded as `None`;
  - `RiskAssessmentModule`, a second registry that accepts only `RiskModel` instances, including a caller's own subclasses.
- **Ethical governance** (`governance.py`, `compliance.py`):
  - a policy table that grows by appending and has its statuses updated in place;
  - a log of compliance checks against that table;
  - the "latest status" query and the two plain-text reports.
- **Cognitive advisor** (`cognitive_advisor.py`): the client-profile store and the fixed rule that turns a risk tolerance into recommendations.

## How the model is built

Each Python module becomes a Dafny module. Each Python class whose methods assign to its fields becomes a Dafny `class`.

| Dafny file | Python source | Form |
|---|---|---|
| `risk_model.dfy` | `risk_model.py` | The classes' methods never assign to their fields, so a model is a value of `RiskModel` holding its weights or function, and `CalculateRisk` is a pure function. |
| `risk_evaluator.dfy` | `risk_evaluator.py` | A class holding a `map` of registered objects. The batch loop is a `while` loop with its invariants. |
| `risk_assessment.dfy` | `risk_assessment/__init__.py` | A class holding a `map`. Its invariant is that only `RiskModel` instances are ever stored. |
| `governance.dfy` | `governance.py` | A class holding the pandas `DataFrame` as a sequence of rows. |
| `compliance.dfy` | `compliance.py` | A class holding the pandas `DataFrame` as a sequence of rows. |
| `cognitive_advisor.dfy` | `cognitive_advisor.py` | A class holding the pandas `DataFrame` as a sequence of rows. |

`UpdatePolicy` and the report methods are loops proved against the specification functions `WithStatus`, `GovernanceReport` and `ComplianceReport`.

Python dicts of risk factors and weights are `RealDict`s: sequences of `(key, value)` entries with distinct keys, kept in insertion order. That is the order Python iterates them in. It matters because the advanced model raises `KeyError` at the *first* data key without a weight. A lemma proves that a successful score does not depend on that order.

Raised exceptions are `Err` values of a `Result`, using the `Exception` datatype. Python's `None` is `Option.None`.

Three behaviours of the code are worth stating plainly:

- **Empty data is not rejected.** The simple model returns 0 for `{}` (`Dict([])` gives `Ok(0.0)`). The advanced model fails on `{}` only through its length check, or divides by zero when its weight dict is also empty.
- **Every validation and lookup failure is `ValueError`.** This covers a non-dict, a count mismatch, a registry lookup of an unknown name, and registering a non-model.
- **`config` is stored and never read.** The advanced weights are always the literal `{factor1: 0.5, factor2: 1.5, factor3: 2.0}`.
- **Length check, not key check.** The advanced model compares only the *number* of data entries with the number of weights. Equal counts with different keys therefore pass validation and then raise `KeyError` (`AdvancedMissingKey`).

The repository's compliance test expects `"compliant"` for a policy it never added to the framework. The code answers `"Policy not found."`, and the model agrees with the code (`GetComplianceStatus`, `CheckCompliance`).

## Model

| member | source | states |
|---|---|---|
| Dicts.Get | src/modules/risk_assessment/risk_model.py:58 | A dict lookup finds a value exactly when the key is present, and the value found is the one stored under that key. |
| Dicts.KeysCount | src/modules/risk_assessment/risk_model.py:48 | `len(d)` is the number of distinct keys of `d`. |
| Dicts.SumByPermutation | src/modules/risk_assessment/risk_model.py:31 | A sum over a dict's entries is the same for any insertion order of the same entries. |
| RiskModels.ValidateData | src/modules/risk_assessment/risk_model.py:16-51 | Validation passes exactly when the data is a dict and, for the advanced model, has as many entries as there are weights. A non-dict gives `ValueError("Data must be a dictionary.")`; a count mismatch gives the length `ValueError`. |
| RiskModels.WeightedSum | src/modules/risk_assessment/risk_model.py:58 | The comprehension succeeds exactly when every data key has a weight, and then equals Σ data[k]·weights[k]. Otherwise it raises `KeyError` for the first data key, in insertion order, that has no weight. |
| RiskModels.CalculateRisk | src/modules/risk_assessment/risk_model.py:12-78 | The base model raises `NotImplementedError` without looking at the data. The simple, advanced and custom models reject a non-dict with `ValueError`. Simple: the mean of the values, and 0 for `{}`. Advanced: a count mismatch raises `ValueError`; a score times the weight total equals the weighted sum; a zero weight total never gives a score. Custom: whatever the user function returns or raises. A caller's own subclass: whatever its own `calculate_risk` returns or raises, on any data. |
| RiskModels.AdvancedWeightedAverage | src/modules/risk_assessment/risk_model.py:53-61 | When the data has exactly the weights' keys, the advanced score is the weighted sum divided by the weight total, or `ZeroDivisionError` when that total is 0. |
| RiskModels.AdvancedMissingKey | src/modules/risk_assessment/risk_model.py:48-58 | With equal counts but a data key missing from the weights, the result is `KeyError` naming the first such key. |
| RiskModels.AdvancedEmptyDividesByZero | src/modules/risk_assessment/risk_model.py:48-59 | Empty data against empty weights passes validation and fails with `ZeroDivisionError`. |
| RiskModels.AdvancedDefaultExample | src/modules/risk_assessment/risk_model.py:53-61 | Under the default weights, factors 5, 10, 10 score (2.5 + 15 + 20) / 4 = 9.375. |
| RiskModels.SimpleWithinBounds | src/modules/risk_assessment/risk_model.py:31-32 | The simple score of a non-empty dict succeeds and lies between any lower and upper bound on its values. |
| RiskModels.ScoreIgnoresInsertionOrder | src/modules/risk_assessment/risk_model.py:31-59 | Two dicts with the same items succeed or fail together under the simple and the advanced model, and give the same score. |
| RiskEvaluation.CallCalculateRisk | src/modules/risk_assessment/risk_evaluator.py:32 | Calling `calculate_risk` on a registered object runs the risk model's scoring, or the foreign object's own method, and raises `AttributeError` on `None`. |
| RiskEvaluation.FindModel | src/modules/risk_assessment/risk_evaluator.py:49-56 | A lookup succeeds exactly when the name is registered with something other than `None`, returns that object, and otherwise raises `ValueError("Model '<name>' not found.")`. |
| RiskEvaluation.DefaultModels | src/modules/risk_assessment/risk_evaluator.py:15-18 | The registry starts with exactly "simple" and "advanced", the latter with the weights 0.5, 1.5 and 2.0. |
| RiskEvaluation.BatchEntry | src/modules/risk_assessment/risk_evaluator.py:41-46 | A batch entry holds a value exactly when the evaluation succeeded, and then holds the score. |
| RiskEvaluation.RiskEvaluator.constructor | src/modules/risk_assessment/risk_evaluator.py:12-19 | The configuration is stored as given, and the registry holds the two default models. |
| RiskEvaluation.RiskEvaluator.RegisterModel | src/modules/risk_assessment/risk_evaluator.py:21-26 | Any object is stored under the name and replaces an earlier one. Every other name keeps its object. |
| RiskEvaluation.RiskEvaluator.GetModel | src/modules/risk_assessment/risk_evaluator.py:49-56 | Succeeds exactly when the name holds something other than `None`, and returns it; otherwise raises the not-found `ValueError`. |
| RiskEvaluation.RiskEvaluator.EvaluateRisk | src/modules/risk_assessment/risk_evaluator.py:28-34 | A failed lookup raises the not-found error. Otherwise the result is the stored object's scoring of the data, whatever the entity id. |
| RiskEvaluation.RiskEvaluator.EvaluateRisksBatch | src/modules/risk_assessment/risk_evaluator.py:36-47 | The result has exactly the batch's entity ids. Each entry is that entity's single evaluation, with a raised error turned into `None`. An unknown model gives `None` for every entity. |
| RiskEvaluation.DefaultAdvancedScore | src/modules/risk_assessment/risk_evaluator.py:12-34 | A fresh evaluator's "advanced" model scores factors 5, 10, 10 as 9.375 for any entity. |
| RiskEvaluation.RegisterThenFind | src/modules/risk_assessment/risk_evaluator.py:21-56 | After registering an object under a name, looking the name up returns it (or not-found for `None`). Lookups of other names are unaffected. |
| RiskAssessment.RiskAssessmentModule.constructor | src/modules/risk_assessment/__init__.py:21-26 | Registering the two defaults leaves exactly the default models, and only risk models are stored. |
| RiskAssessment.RiskAssessmentModule.RegisterModel | src/modules/risk_assessment/__init__.py:28-35 | Anything that is not a `RiskModel` instance raises `ValueError("Model instance must be a subclass of RiskModel.")` and changes nothing. A model is stored, overwriting any earlier one, and is returned by a lookup afterwards. Only risk models are ever stored. |
| RiskAssessment.RiskAssessmentModule.GetModel | src/modules/risk_assessment/__init__.py:37-44 | In a valid registry a lookup succeeds exactly when the name is registered and returns the stored model; otherwise it raises the not-found `ValueError`. |
| RiskAssessment.RiskAssessmentModule.EvaluateRisk | src/modules/risk_assessment/__init__.py:46-52 | An unknown name raises the not-found error. A registered model's result is its `CalculateRisk` on the data. |
| Governance.WithStatus | src/modules/ethical_governance/governance.py:42-43 | The update keeps the table's length. Every row with the id gets the new status, and every other row is unchanged. |
| Governance.WithStatusUnknown | src/modules/ethical_governance/governance.py:42-46 | Updating an id no row carries leaves the table unchanged. |
| Governance.ActivePolicies | src/modules/ethical_governance/governance.py:55 | The filter returns only active rows, every active row exactly as often as it occurs in the table, and in table order. |
| Governance.ReportAfterAdd | src/modules/ethical_governance/governance.py:59-75 | Adding a policy extends the governance report by exactly that policy's block. |
| Governance.GovernanceFramework.constructor | src/modules/ethical_governance/governance.py:12-15 | A new framework has no policies. |
| Governance.GovernanceFramework.AddPolicy | src/modules/ethical_governance/governance.py:17-32 | The row (status "active" by default) is appended without a duplicate check, and the id is then known. |
| Governance.GovernanceFramework.UpdatePolicy | src/modules/ethical_governance/governance.py:34-46 | The table becomes `WithStatus` of the old table. An unknown id leaves it unchanged. |
| Governance.GovernanceFramework.GetActivePolicies | src/modules/ethical_governance/governance.py:48-57 | Returns the active rows of the table (see `ActivePolicies`). |
| Governance.GovernanceFramework.GenerateGovernanceReport | src/modules/ethical_governance/governance.py:59-75 | The string built by the loop is the header followed by one block per policy, in table order. |
| Compliance.LatestStatus | src/modules/ethical_governance/compliance.py:76-81 | None exactly when no record names the policy. Otherwise it is the status of a record for the policy that no later record for the policy follows. |
| Compliance.LatestAfterAppend | src/modules/ethical_governance/compliance.py:41-81 | A new record becomes the latest for its policy and leaves every other policy's latest status as it was. |
| Compliance.ReportAfterCheck | src/modules/ethical_governance/compliance.py:44-60 | Recording a check extends the compliance report by exactly that record's block. |
| Compliance.ComplianceChecker.constructor | src/modules/ethical_governance/compliance.py:12-21 | The checker keeps the given framework and starts with no records. |
| Compliance.ComplianceChecker.CheckCompliance | src/modules/ethical_governance/compliance.py:23-42 | A check against a known policy, whatever its status, is appended and becomes that policy's reported status. A check against an unknown policy records nothing. The framework is never changed. |
| Compliance.ComplianceChecker.GetComplianceStatus | src/modules/ethical_governance/compliance.py:62-83 | "Policy not found." for an unknown policy; "No compliance records found." for a known policy without records; otherwise the status of its most recent record. |
| Compliance.ComplianceChecker.GenerateComplianceReport | src/modules/ethical_governance/compliance.py:44-60 | The string built by the loop is the header followed by one block per record, in the order the checks were made. |
| CognitiveAdvisors.Recommendations | src/modules/cognitive_advisors/cognitive_advisor.py:59-64 | "low" gives exactly Bonds and Fixed Deposits. "medium" gives exactly Balanced Funds and Index Funds. Every other tolerance gives Stocks, Cryptocurrency and ETFs. |
| CognitiveAdvisors.FirstProfile | src/modules/cognitive_advisors/cognitive_advisor.py:53-58 | None exactly when no profile has the id. Otherwise it is the position of the first profile with the id. |
| CognitiveAdvisors.CognitiveFinancialAdvisor.constructor | src/modules/cognitive_advisors/cognitive_advisor.py:16-20 | A new advisor has no profiles. |
| CognitiveAdvisors.CognitiveFinancialAdvisor.AddClientProfile | src/modules/cognitive_advisors/cognitive_advisor.py:22-41 | The profile is appended; ids may repeat. |
| CognitiveAdvisors.CognitiveFinancialAdvisor.RecommendInvestments | src/modules/cognitive_advisors/cognitive_advisor.py:43-67 | A store that never held a profile raises `KeyError('client_id')`. An unknown client gets `[]`. Otherwise the result is the recommendation for the risk tolerance of the client's first profile. |

## Left out

- RiskEvaluation.RiskEvaluator.EvaluateRisksBatch: only `Exception` subclasses are caught. A `BaseException` such as `SystemExit` or `KeyboardInterrupt` raised by a caller's scoring code escapes the batch in Python. The model has no such exceptions, so it never aborts a batch.
- Aliasing of model configuration: `AdvancedRiskModel` keeps a reference to the caller's weight dict, and `CustomRiskModel` keeps the caller's function. A later change to that dict changes the scores of an already registered model. The model holds the weights by value, as they were at construction.
- Logging: every `logger` call, including the overwrite warning in `RiskEvaluator.register_model` and the "not found" warnings of the governance and compliance classes, which have no other effect.
- Floating point: scores are exact reals. IEEE rounding, `inf` and `nan` are not modelled, and division by a zero weight total is `ZeroDivisionError`.
- Dict values that are not numbers (Python raises `TypeError` in `sum`), and nested dicts: factor values are reals.
- RiskModels.CalculateRisk: a custom function that returns a non-number (for example `None`) is not modelled. The custom function is a total Dafny function returning a real or an error.
- RiskAssessment.RiskAssessmentModule.EvaluateRisk: says nothing about a stored object that is not a `RiskModel` instance, because registration never lets one in; a caller's own subclass is `UserDefined` and is covered (`Valid`).
- pandas: a `DataFrame` is modelled as a sequence of rows. Column dtypes, the index, the `append` API itself and the printed form of the active-policies frame are not modelled.
- The other methods of `CognitiveFinancialAdvisor` (`track_goals`, `predict_future_income`, `generate_report`) and its scikit-learn model are not part of this model.
- The currency exchange, resource optimisation and learning modules, the application glue, configuration loading and the utilities are not part of this model.
- The iteration order of `evaluate_risks_batch` over the batch dict is not modelled: entries are independent, so the result is the same in any order.
