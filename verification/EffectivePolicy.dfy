/** The resolved policy document, as far as the gateway's expressions read it. */
module EffectivePolicy {
  import opened Common

  datatype Scope = Organization | Team | Subject | Application

  datatype ModelScope = AllModels | PerModel

  datatype Limit = Limit(scope: Scope, modelScope: ModelScope, modelKey: Option<string>, tokenQuota: Option<int>,
                         budgetId: Option<string>, budgetVersion: int)

  datatype Edge = Edge(from: string, to: string)

  datatype Fallback = Fallback(enabled: bool, chain: seq<Edge>, maxDepth: int)

  datatype Pressure = Pressure(model: string, consumedBasisPoints: int)

  datatype Deployment = Deployment(modelKey: string, providerDeploymentName: Option<string>)

  datatype Tier = Tier(scope: Scope, modelScope: ModelScope, modelKey: Option<string>, accountingBasis: string,
                       againstTokenQuota: int, atBasisPoints: int, tierCode: string,
                       budgetId: string, budgetVersion: int)

  datatype Policy = Policy(
    allowedModels: seq<string>,
    modelDeployments: Option<seq<Deployment>>,
    limits: seq<Limit>,
    warnThresholdPercent: Option<int>,
    throttleTiers: Option<seq<Tier>>,
    fallback: Option<Fallback>,
    modelSelectionIntent: Option<string>,
    modelPressure: Option<seq<Pressure>>)
}
