/** agentgenius/task_managment.py: the earlier analyzer and TaskRunner. The
    analyzer sorts the model's list of task definitions by priority; the
    runner rewrites the definition it is given, and each run builds a fresh
    Task from that definition. The task definition's `agent_def` and `query`
    are the `agent` and `question` of tasks.py. */
module TaskManagment {
  import opened Base
  import opened Tools
  import opened Tasks
  import History

  /** `analyze` / `analyze_sync` on the model's answer: the definitions
      sorted by priority, as a permutation, ties in their original order. */
  function Analyze(data: seq<TaskDef>): (r: seq<TaskDef>)
    ensures |r| == |data| && multiset(r) == multiset(data)
    ensures forall i, j :: 0 <= i < j < |r| ==> r[i].priority <= r[j].priority
    ensures forall p :: WithPriority(r, p) == WithPriority(data, p)
  {
    SortByPriorityCorrect(data);
    SortByPriority(data)
  }

  /** The TaskRunner of this file, with its fixed solver prompt passed in. */
  class TaskRunner {
    var agentDef: AgentDef
    var taskDef: TaskDef

    /** The parameters the runner forces on the definition's agent. */
    static const RunnerParams: AgentParams := AgentParams(None, Some("TaskHistory"))

    /** `TaskRunner(model, task_def, toolset)`: a default "Task solver"
        agent is installed only when the definition has none; the agent's
        params are overwritten, whichever agent it is; the definition's
        toolset is replaced by the given list. */
    constructor (model: string, taskDef: TaskDef, toolset: seq<ToolDef>, solverPrompt: string)
      modifies taskDef, taskDef.agent
      ensures this.taskDef == taskDef
      ensures agentDef.model == model && agentDef.name == "Task solver" && agentDef.systemPrompt == solverPrompt
      ensures old(taskDef.agent) == null ==> taskDef.agent == agentDef && fresh(agentDef)
      ensures old(taskDef.agent) != null ==> taskDef.agent == old(taskDef.agent)
      ensures taskDef.agent != null && taskDef.agent.params == Some(RunnerParams)
      ensures taskDef.toolset == Some(ToolList(toolset))
    {
      var ad := new AgentDef(model, "Task solver", solverPrompt, None);
      if taskDef.agent == null {
        taskDef.agent := ad;
      }
      taskDef.agent.params := Some(RunnerParams);
      taskDef.toolset := Some(ToolList(toolset));
      agentDef := ad;
      this.taskDef := taskDef;
    }

    /** `run_sync(task_history)` and `run`: a fresh Task built from the
        definition as it now is, run without arguments and with the history
        as `deps`; it raises when the definition has lost its agent. */
    method RunSync(history: History.TaskHistory) returns (r: Result<AgentRequest<History.TaskHistory>>)
      ensures r.Err? <==> taskDef.agent == null
      ensures r.Err? ==> r.error == MissingAgent
      ensures r.Ok? ==>
                var ad := taskDef.agent;
                var ts := ResolveToolset(ToolList([]), taskDef.toolset);
                r.value == AgentRequest(Agent(ad.model, ad.name, ad.systemPrompt, ToolsFor(ts.defs), ad.params),
                                        taskDef.question, history)
    {
      var t := Task.New(taskDef, null, ToolList([]));
      if t.Err? {
        return Err(t.error);
      }
      var task := t.value;
      return Ok(task.RunSync([], history));
    }
  }
}
