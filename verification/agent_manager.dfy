/** Building a new agent from the creation form (`handleCreateAgent`). */
module AgentManager {
  import opened Util
  import opened Types

  /** The form state; `None` is a field left unset (or, for numbers, a
      falsy one). */
  datatype AgentForm = AgentForm(
    name: Option<string>,
    model: AIModel,
    mode: TradingMode,
    enabled: Option<bool>,
    maxLeverage: Option<real>,
    maxPositionSize: Option<real>,
    stopLossPercent: Option<real>,
    takeProfitPercent: Option<real>,
    riskRewardRatio: Option<real>,
    volatilityThreshold: Option<real>,
    canCommunicate: Option<bool>)

  /** The form as the dialog opens it. */
  const InitialForm := AgentForm(Some(""), Gpt4oMini, Moderate, Some(true),
    Some(3.0), Some(10.0), Some(2.0), Some(4.0), Some(2.0), Some(5.0), Some(true))

  /** `handleCreateAgent` with the id it would derive from the clock. No agent
      without a name; numeric fields fall back to their defaults when falsy;
      the agent is always enabled (`enabled || true`). */
  function CreateAgent(form: AgentForm, id: string): (r: Option<AgentConfig>)
    ensures r.None? <==> form.name.None? || form.name.value == ""
    ensures r.Some? ==>
      var a := r.value;
      && a.id == id && a.name == form.name.value && a.model == form.model && a.mode == form.mode
      && a.enabled
      && a.maxLeverage == OrElse(form.maxLeverage, 3.0)
      && a.maxPositionSize == OrElse(form.maxPositionSize, 10.0)
      && a.stopLossPercent == OrElse(form.stopLossPercent, 2.0)
      && a.takeProfitPercent == OrElse(form.takeProfitPercent, 4.0)
      && a.riskRewardRatio == OrElse(form.riskRewardRatio, 2.0)
      && a.volatilityThreshold == OrElse(form.volatilityThreshold, 5.0)
      && (a.canCommunicate <==> form.canCommunicate.None? || form.canCommunicate.value)
  {
    if form.name.None? || form.name.value == "" then None
    else
      var enabled := (form.enabled.Some? && form.enabled.value) || true;
      Some(AgentConfig(
        id, form.name.value, form.model, form.mode, enabled,
        OrElse(form.maxLeverage, 3.0), OrElse(form.maxPositionSize, 10.0),
        OrElse(form.stopLossPercent, 2.0), OrElse(form.takeProfitPercent, 4.0),
        OrElse(form.riskRewardRatio, 2.0), OrElse(form.volatilityThreshold, 5.0),
        match form.canCommunicate { case Some(b) => b case None => true }))
  }

  /** A form with only a name filled in yields the default agent. */
  lemma {:induction false} NamedInitialFormGivesDefaults(name: string, id: string)
    requires name != ""
    ensures CreateAgent(InitialForm.(name := Some(name)), id) ==
      Some(AgentConfig(id, name, Gpt4oMini, Moderate, true, 3.0, 10.0, 2.0, 4.0, 2.0, 5.0, true))
  {
  }

  /** The form filled in with an agent's settings. */
  function FormOf(a: AgentConfig): AgentForm
  {
    AgentForm(Some(a.name), a.model, a.mode, Some(a.enabled), Some(a.maxLeverage), Some(a.maxPositionSize),
      Some(a.stopLossPercent), Some(a.takeProfitPercent), Some(a.riskRewardRatio), Some(a.volatilityThreshold),
      Some(a.canCommunicate))
  }

  /** Creating from an agent's own settings gives the agent back exactly when
      it is enabled, named and has no zero among its numbers: those are the
      fields the creation defaults overwrite. */
  lemma {:induction false} CreateFromOwnForm(a: AgentConfig)
    ensures CreateAgent(FormOf(a), a.id) == Some(a) <==>
      && a.enabled && a.name != ""
      && a.maxLeverage != 0.0 && a.maxPositionSize != 0.0 && a.stopLossPercent != 0.0
      && a.takeProfitPercent != 0.0 && a.riskRewardRatio != 0.0 && a.volatilityThreshold != 0.0
  {
  }
}
