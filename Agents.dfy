/**
 * The fixed agent registry of the multi-agent service, the rule that picks
 * an agent for a requested task type, and the (simulated) work an agent does.
 */
module Agents {

  datatype Agent = Agent(name: string, role: string, goal: string)

  /** Registry keys in the order the registry was built. */
  const AGENT_KEYS: seq<string> := ["researcher", "writer", "analyst"]

  const AGENTS: map<string, Agent> := map[
    "researcher" := Agent("Research Agent", "Researcher", "Find and analyze information"),
    "writer" := Agent("Writer Agent", "Content Creator", "Create engaging content"),
    "analyst" := Agent("Data Analyst", "Analyst", "Analyze data and provide insights")
  ]

  /** The agent used for every task type that is not a registry key. */
  const FALLBACK_AGENT := "researcher"

  /** The key of the agent that handles `taskType`: the type itself when registered, else the fallback. */
  function Resolve(taskType: string): (key: string)
    ensures key in AGENTS
    ensures taskType in AGENTS ==> key == taskType
    ensures taskType !in AGENTS ==> key == FALLBACK_AGENT
  {
    if taskType in AGENTS then taskType else FALLBACK_AGENT
  }

  /** `Agent.execute_task`, without its one-second sleep. */
  function Execute(agent: Agent, description: string): string {
    "[" + agent.name + "] Completed: " + description
  }

  /** `part in s` on Python strings. */
  predicate Contains(s: string, part: string) {
    exists i :: 0 <= i <= |s| && part <= s[i..]
  }

  /** The result names the agent that did the work and repeats the description. */
  lemma ExecuteMentions(agent: Agent, description: string)
    ensures Contains(Execute(agent, description), agent.name)
    ensures Contains(Execute(agent, description), description)
  {
    var r := Execute(agent, description);
    assert agent.name <= r[1..];
    assert description <= r[|r| - |description|..];
  }

  /** For registered agents the result determines both the agent and the description. */
  lemma ExecuteDeterminesTask(k1: string, d1: string, k2: string, d2: string)
    requires k1 in AGENTS && k2 in AGENTS
    requires Execute(AGENTS[k1], d1) == Execute(AGENTS[k2], d2)
    ensures k1 == k2 && d1 == d2
  {
    var r1, r2 := Execute(AGENTS[k1], d1), Execute(AGENTS[k2], d2);
    assert r1[1] == AGENTS[k1].name[0] && r2[1] == AGENTS[k2].name[0];
    assert k1 == k2;
    var n := 1 + |AGENTS[k1].name| + 13;
    assert r1[n..] == d1 && r2[n..] == d2;
  }

  /** The registry keys list each registered agent exactly once. */
  lemma RegistryKeysExact()
    ensures forall k :: k in AGENTS <==> k in AGENT_KEYS
    ensures forall i, j :: 0 <= i < j < |AGENT_KEYS| ==> AGENT_KEYS[i] != AGENT_KEYS[j]
    ensures |AGENTS| == |AGENT_KEYS| == 3
  {
    assert AGENTS.Keys == {"researcher", "writer", "analyst"};
  }
}
