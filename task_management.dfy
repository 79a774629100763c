/** agentgenius/task_management.py: the question analyzer's post-processing
    (a None answer passes through, a list of task definitions is sorted by
    priority), the history digest it shows the model, and the TaskRunner's
    set-up of the task definition it is given. The task definition's
    `agent_def` and `query` are the `agent` and `question` of tasks.py. */
module TaskManagement {
  import opened Base
  import opened Tools
  import opened Utils
  import opened Tasks

  /** The text the analyzer's own task definition asks with. */
  const AnalysisQuestion: string := "Analyze query and generate a list of subtasks. Query"

  /** The question the analyzer's run sends for a user query: its own
      question followed by the query. */
  function AnalyzerQuestion(query: string): (q: string)
    ensures q == AnalysisQuestion + ": " + query
    ensures q[..|AnalysisQuestion|] == AnalysisQuestion
  {
    EffectiveQuestionShape(AnalysisQuestion, [query]);
    EffectiveQuestion(AnalysisQuestion, [query])
  }

  /** `analyze` / `analyze_sync` on the model's answer `data`: None when the
      answer is None, otherwise the definitions sorted by priority. */
  function Analyze(data: Option<seq<TaskDef>>): (r: Option<seq<TaskDef>>)
  {
    match data
    case None => None
    case Some(tasks) => Some(SortByPriority(tasks))
  }

  /** A None answer is passed through; any list becomes a permutation of
      itself, ascending by priority, with ties in their original order. */
  lemma AnalyzeCorrect(data: Option<seq<TaskDef>>)
    ensures Analyze(data).None? <==> data.None?
    ensures data.Some? ==>
              var r := Analyze(data).value;
              |r| == |data.value| && multiset(r) == multiset(data.value)
              && (forall i, j :: 0 <= i < j < |r| ==> r[i].priority <= r[j].priority)
              && forall p :: WithPriority(r, p) == WithPriority(data.value, p)
  {
    if data.Some? {
      SortByPriorityCorrect(data.value);
    }
  }

  /** One line of the history digest: `{user_query, final_result}`. */
  datatype Digest = Digest(userQuery: string, finalResult: string)

  /** `get_history`: the records that have a final result, in order, reduced
      to their query and final result; no history, or an empty one, gives
      an empty digest. */
  function GetHistory(deps: Option<seq<HistoryEntry>>): seq<Digest>
  {
    if deps.None? then [] else DigestOf(deps.value)
  }

  function DigestOf(items: seq<HistoryEntry>): seq<Digest>
  {
    if items == [] then []
    else (if items[0].finalResult.Some? then [Digest(items[0].userQuery, items[0].finalResult.value)] else [])
         + DigestOf(items[1..])
  }

  /** The digest of a concatenation is the concatenation of the digests:
      the filter keeps the original order. */
  lemma {:induction false} DigestOfConcat(a: seq<HistoryEntry>, b: seq<HistoryEntry>)
    ensures DigestOf(a + b) == DigestOf(a) + DigestOf(b)
  {
    if a != [] {
      assert (a + b)[1..] == a[1..] + b;
      DigestOfConcat(a[1..], b);
    } else {
      assert a + b == b;
    }
  }

  /** A digest line is there exactly when some record with that query has
      that final result; records without one are dropped. */
  lemma {:induction false} DigestOfMembers(items: seq<HistoryEntry>, d: Digest)
    ensures d in DigestOf(items) <==>
              exists i :: 0 <= i < |items| && items[i].finalResult == Some(d.finalResult)
                                           && items[i].userQuery == d.userQuery
    ensures |DigestOf(items)| <= |items|
  {
    if items != [] {
      DigestOfMembers(items[1..], d);
      if d in DigestOf(items[1..]) {
        var i :| 0 <= i < |items[1..]| && items[1..][i].finalResult == Some(d.finalResult)
                 && items[1..][i].userQuery == d.userQuery;
        assert items[i + 1] == items[1..][i];
      }
      if exists i :: 0 <= i < |items| && items[i].finalResult == Some(d.finalResult)
                                      && items[i].userQuery == d.userQuery {
        var i :| 0 <= i < |items| && items[i].finalResult == Some(d.finalResult)
                 && items[i].userQuery == d.userQuery;
        if i > 0 {
          assert items[1..][i - 1] == items[i];
        }
      }
    }
  }

  /** The TaskRunner of this file, with its fixed solver prompt passed in. */
  class TaskRunner {
    var agentDef: AgentDef
    var task: Task

    /** The parameters the runner forces on the definition's agent. */
    static const RunnerParams: AgentParams := AgentParams(None, Some("History"))

    /** `TaskRunner(model, task_def, toolset)`: a default "Task solver"
        agent is installed only when the definition has none; the agent's
        params are then overwritten, whichever agent it is; the task is built
        from the definition with the given toolset. */
    constructor (model: string, taskDef: TaskDef, toolset: seq<ToolDef>, solverPrompt: string)
      modifies taskDef, taskDef.agent
      ensures agentDef.model == model && agentDef.name == "Task solver" && agentDef.systemPrompt == solverPrompt
      ensures old(taskDef.agent) == null ==> taskDef.agent == agentDef && fresh(agentDef)
      ensures old(taskDef.agent) != null ==> taskDef.agent == old(taskDef.agent)
      ensures taskDef.agent != null && taskDef.agent.params == Some(RunnerParams)
      ensures taskDef.toolset == old(taskDef.toolset)
      ensures task.taskDef == taskDef && task.agentDef == taskDef.agent
      ensures task.toolset == ResolveToolset(ToolList(toolset), taskDef.toolset)
      ensures task.agent == Agent(taskDef.agent.model, taskDef.agent.name, taskDef.agent.systemPrompt,
                                  ToolsFor(task.toolset.defs), Some(RunnerParams))
    {
      var ad := new AgentDef(model, "Task solver", solverPrompt, None);
      if taskDef.agent == null {
        taskDef.agent := ad;
      }
      taskDef.agent.params := Some(RunnerParams);
      var t := new Task(taskDef, null, ToolList(toolset));
      agentDef := ad;
      task := t;
    }

    /** `run_sync(deps=...)`: the task's question, unextended, with the
        history as `deps`. */
    function RunSync<D>(deps: D): (r: AgentRequest<D>)
      reads this, task
      ensures r.agent == task.agent && r.deps == deps && r.question == task.taskDef.question
    {
      task.RunSync([], deps)
    }
  }
}
