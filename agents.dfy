/** What every task agent shares (src/agents/base.py): its identity, its system
    prompt, and `execute`, which delegates to the agent's `_process`. */
module Agents {
  import opened Wrappers
  import opened Errors

  datatype AgentInfo = AgentInfo(name: string, description: string, role: string)

  /** The two fixed texts of an agent's requests: its system prompt and the
      instructions that close its prompt template. Each agent module defines its own
      as constants; the operations take them as a parameter, so what is proved about
      them holds whatever the wording. */
  datatype PromptTexts = PromptTexts(system: string, closing: string)

  const BaseAgent: AgentInfo := AgentInfo("base_agent", "Базовий агент", "assistant")

  const LanguageRule: string := "Відповідай виключно українською мовою. "
  const TemplateRule: string := "Дотримуйся структури КМУ Постанова №205."

  /** `BaseAgent._build_system_prompt`. */
  function SystemPrompt(agent: AgentInfo): string {
    "Ти — " + agent.role + ". " + agent.description + ". " + LanguageRule + TemplateRule
  }

  /** The role and the description read back out of a system prompt: the two fixed
      sentences close every prompt and the role follows its fixed opening. */
  lemma SystemPromptNamesAgent(agent: AgentInfo)
    ensures var p := SystemPrompt(agent);
            var tail := LanguageRule + TemplateRule;
            && |p| >= |tail| && p[|p| - |tail|..] == tail
            && p[|"Ти — "|..|"Ти — "| + |agent.role|] == agent.role
  {
    var p := SystemPrompt(agent);
    var tail := LanguageRule + TemplateRule;
    assert p == ("Ти — " + agent.role + ". " + agent.description + ". ") + tail;
  }

  /** `BaseAgent.execute`: whatever `_process` returns is returned, and whatever it
      raises is raised again unchanged (logging is not modelled). */
  function Execute<T>(process: Result<T, Error>): (r: Result<T, Error>)
    ensures r.Ok? <==> process.Ok?
    ensures r.Ok? ==> r.value == process.value
    ensures r.Err? ==> r.error == process.error
  {
    process
  }

  /** The base `_process`: always raises `NotImplementedError`. */
  function DefaultProcess<T>(agent: AgentInfo): (r: Result<T, Error>)
    ensures r.Err? && r.error.NotImplemented? && !r.error.IsEnforence()
    ensures r.error.message == "Агент " + agent.name + " повинен реалізувати _process()"
  {
    Err(NotImplemented("Агент " + agent.name + " повинен реалізувати _process()"))
  }
}
