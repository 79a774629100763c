/** agentgenius/tasks.py: task definitions, their ordering by priority, the
    runnable Task that resolves its agent definition and toolset and builds
    the model-invocation agent, and the TaskList container.

    The agent runtime (pydantic_ai's `Agent` and `Tool`) is foreign code: an
    `Agent` here records what it was built from, and a run is the request it
    would receive. `AgentDef` and `AgentParams` are not defined in the
    repository's agents.py; their shape is the one the core uses. */
module Tasks {
  import opened Base
  import opened Tools
  import opened Sorting

  /** `AgentParams(result_type=..., deps_type=...)`, types named by text;
      None is a parameter left at its default. */
  datatype AgentParams = AgentParams(resultType: Option<string>, depsType: Option<string>)

  /** An agent definition; the task runners overwrite its `params` in place. */
  class AgentDef {
    const model: string
    const name: string
    const systemPrompt: string
    var params: Option<AgentParams>

    constructor (model: string, name: string, systemPrompt: string, params: Option<AgentParams>)
      ensures this.model == model && this.name == name && this.systemPrompt == systemPrompt
      ensures this.params == params
    {
      this.model := model;
      this.name := name;
      this.systemPrompt := systemPrompt;
      this.params := params;
    }
  }

  /** A toolset as a Task receives it: a plain list of ToolDefs (the default
      is the empty list) or the entries of a ToolSet. A ToolSet never equals
      a list, not even an empty one. */
  datatype Toolset = ToolList(defs: seq<ToolDef>) | ToolSetOf(defs: seq<ToolDef>)

  /** A task definition. `agent` and `toolset` are optional and may be set
      after construction. */
  class TaskDef {
    const name: string
    const question: string
    const priority: int
    var agent: AgentDef?
    var toolset: Option<Toolset>

    constructor (name: string, question: string, priority: int, agent: AgentDef?, toolset: Option<Toolset>)
      ensures this.name == name && this.question == question && this.priority == priority
      ensures this.agent == agent && this.toolset == toolset
    {
      this.name := name;
      this.question := question;
      this.priority := priority;
      this.agent := agent;
      this.toolset := toolset;
    }

    /** `__lt__`: definitions compare by priority alone. */
    predicate Lt(other: TaskDef)
    {
      priority < other.priority
    }
  }

  /** The sort key of `sorted(..., key=lambda x: x.priority)`. */
  function Priority(t: TaskDef): int
  {
    t.priority
  }

  /** `sorted(tasks, key=lambda x: x.priority)`. */
  function SortByPriority(tasks: seq<TaskDef>): seq<TaskDef>
  {
    SortBy(tasks, Priority)
  }

  /** The definitions of priority `p`, in order. */
  function WithPriority(tasks: seq<TaskDef>, p: int): seq<TaskDef>
  {
    WithKey(tasks, Priority, p)
  }

  /** Sorting by priority gives a permutation of the definitions in which no
      definition is `<` an earlier one, and definitions of equal priority
      keep their original order. */
  lemma SortByPriorityCorrect(tasks: seq<TaskDef>)
    ensures var r := SortByPriority(tasks);
            |r| == |tasks| && multiset(r) == multiset(tasks)
            && (forall i, j :: 0 <= i < j < |r| ==> !r[j].Lt(r[i]))
            && forall p :: WithPriority(r, p) == WithPriority(tasks, p)
  {
    SortByCorrect(tasks, Priority);
    SortByLength(tasks, Priority);
  }

  /** `Tool(fn)` of the agent runtime: a wrapped function. */
  datatype Tool = Tool(fn: Value)

  /** The model-invocation agent: what it is built from. */
  datatype Agent = Agent(model: string, name: string, systemPrompt: string, tools: seq<Tool>,
                         params: Option<AgentParams>)

  /** One `Tool(tool.function)` per entry, in order. */
  function ToolsFor(defs: seq<ToolDef>): (r: seq<Tool>)
    ensures |r| == |defs| && forall i :: 0 <= i < |defs| ==> r[i] == Tool(defs[i].fn)
  {
    if defs == [] then [] else [Tool(defs[0].fn)] + ToolsFor(defs[1..])
  }

  lemma {:induction false} ToolsForConcat(a: seq<ToolDef>, b: seq<ToolDef>)
    ensures ToolsFor(a + b) == ToolsFor(a) + ToolsFor(b)
  {
    assert |ToolsFor(a + b)| == |ToolsFor(a) + ToolsFor(b)|;
    forall i | 0 <= i < |a + b| ensures ToolsFor(a + b)[i] == (ToolsFor(a) + ToolsFor(b))[i] {
      if i >= |a| {
        assert (a + b)[i] == b[i - |a|];
      }
    }
  }

  /** The agent definition a Task uses: the one passed, else the task
      definition's own (which may be absent too). */
  function ResolveAgent(passed: AgentDef?, fromDef: AgentDef?): (r: AgentDef?)
    ensures passed != null ==> r == passed
    ensures passed == null ==> r == fromDef
  {
    if passed == null then fromDef else passed
  }

  /** The toolset a Task uses: the definition's own replaces the passed one
      when the passed one is the default empty list, and only then. The
      result is one of the two whole, never a merge of them. */
  function ResolveToolset(passed: Toolset, fromDef: Option<Toolset>): (r: Toolset)
    ensures r == passed || (fromDef.Some? && r == fromDef.value)
    ensures passed == ToolList([]) && fromDef.Some? ==> r == fromDef.value
    ensures passed != ToolList([]) || fromDef.None? ==> r == passed
  {
    if passed == ToolList([]) && fromDef.Some? then fromDef.value else passed
  }

  /** The question a run sends: the definition's question, followed by
      ": " and the first positional argument when the question is non-empty
      and an argument is given. Arguments are taken by their text. */
  function EffectiveQuestion(question: string, args: seq<string>): string
  {
    if question != "" && args != [] then question + ": " + args[0] else question
  }

  /** The question sent starts with the definition's question; it is that
      question alone exactly when the question is empty or no argument is
      given; only the first argument is used. */
  lemma EffectiveQuestionShape(question: string, args: seq<string>)
    ensures var q := EffectiveQuestion(question, args);
            |question| <= |q| && q[..|question|] == question
            && (q == question <==> question == "" || args == [])
            && (args != [] ==> q == EffectiveQuestion(question, args[..1]))
            && (question != "" && args != [] ==> q == question + ": " + args[0])
  {
    var q := EffectiveQuestion(question, args);
    if question != "" && args != [] {
      assert |q| == |question| + 2 + |args[0]|;
      assert (question + ": " + args[0])[..|question|] == question;
    }
  }

  /** What the agent receives from `run` or `run_sync`: the question and the
      keyword arguments (here the `deps`), passed through unchanged. */
  datatype AgentRequest<D> = AgentRequest(agent: Agent, question: string, deps: D)

  /** A runnable task. */
  class Task {
    const taskDef: TaskDef
    var agentDef: AgentDef
    var toolset: Toolset
    var agent: Agent

    /** `Task(task_def, agent_def, toolset)` where the resolved agent
        definition exists; `New` covers the case where it does not. */
    constructor (taskDef: TaskDef, agentDef: AgentDef?, toolset: Toolset)
      requires ResolveAgent(agentDef, taskDef.agent) != null
      ensures this.taskDef == taskDef
      ensures this.agentDef == ResolveAgent(agentDef, taskDef.agent)
      ensures this.toolset == ResolveToolset(toolset, taskDef.toolset)
      ensures agent == Agent(this.agentDef.model, this.agentDef.name, this.agentDef.systemPrompt,
                             ToolsFor(this.toolset.defs), this.agentDef.params)
    {
      this.taskDef := taskDef;
      var ad := agentDef;
      if ad == null && taskDef.agent != null {
        ad := taskDef.agent;
      }
      var ts := toolset;
      if ts == ToolList([]) && taskDef.toolset.Some? {
        ts := taskDef.toolset.value;
      }
      var tools := PrepareTools(ts.defs);
      this.agentDef := ad;
      this.toolset := ts;
      this.agent := Agent(ad.model, ad.name, ad.systemPrompt, tools, ad.params);
    }

    /** `Task(...)` in general: without an agent definition from either
        source, building the agent raises. */
    static method New(taskDef: TaskDef, agentDef: AgentDef?, toolset: Toolset) returns (r: Result<Task>)
      ensures r.Err? <==> ResolveAgent(agentDef, taskDef.agent) == null
      ensures r.Err? ==> r.error == MissingAgent
      ensures r.Ok? ==> fresh(r.value) && r.value.taskDef == taskDef
                        && r.value.agentDef == ResolveAgent(agentDef, taskDef.agent)
                        && r.value.toolset == ResolveToolset(toolset, taskDef.toolset)
                        && r.value.agent == Agent(r.value.agentDef.model, r.value.agentDef.name,
                                                  r.value.agentDef.systemPrompt, ToolsFor(r.value.toolset.defs),
                                                  r.value.agentDef.params)
    {
      if ResolveAgent(agentDef, taskDef.agent) == null {
        return Err(MissingAgent);
      }
      var t := new Task(taskDef, agentDef, toolset);
      return Ok(t);
    }

    /** `_prepare_tools`: the list of tools built in a loop. */
    static method PrepareTools(defs: seq<ToolDef>) returns (r: seq<Tool>)
      ensures r == ToolsFor(defs)
    {
      r := [];
      var i := 0;
      while i < |defs|
        invariant 0 <= i <= |defs|
        invariant r == ToolsFor(defs[..i])
      {
        ToolsForConcat(defs[..i], [defs[i]]);
        assert defs[..i + 1] == defs[..i] + [defs[i]];
        r := r + [Tool(defs[i].fn)];
        i := i + 1;
      }
      assert defs[..i] == defs;
    }

    /** `register_tool`: the agent gains one more tool. */
    method RegisterTool(d: ToolDef)
      modifies this
      ensures agent == old(agent).(tools := old(agent).tools + [Tool(d.fn)])
      ensures agentDef == old(agentDef) && toolset == old(toolset)
    {
      agent := agent.(tools := agent.tools + [Tool(d.fn)]);
    }

    /** `register_toolset`: every entry is registered once, in order. */
    method RegisterToolset(defs: seq<ToolDef>)
      modifies this
      ensures agent == old(agent).(tools := old(agent).tools + ToolsFor(defs))
      ensures agentDef == old(agentDef) && toolset == old(toolset)
    {
      var i := 0;
      while i < |defs|
        invariant 0 <= i <= |defs|
        invariant agent == old(agent).(tools := old(agent).tools + ToolsFor(defs[..i]))
        invariant agentDef == old(agentDef) && toolset == old(toolset)
      {
        ToolsForConcat(defs[..i], [defs[i]]);
        assert defs[..i + 1] == defs[..i] + [defs[i]];
        RegisterTool(defs[i]);
        i := i + 1;
      }
      assert defs[..i] == defs;
    }

    /** `run_sync(*args, **kwargs)` and `run`, which compose the same
        request: the agent, the effective question and the keyword
        arguments. */
    function RunSync<D>(args: seq<string>, deps: D): (r: AgentRequest<D>)
      reads this
      ensures r.agent == agent && r.deps == deps
      ensures |taskDef.question| <= |r.question| && r.question[..|taskDef.question|] == taskDef.question
      ensures r.question == taskDef.question <==> taskDef.question == "" || args == []
      ensures taskDef.question != "" && args != [] ==> r.question == taskDef.question + ": " + args[0]
    {
      EffectiveQuestionShape(taskDef.question, args);
      AgentRequest(agent, EffectiveQuestion(taskDef.question, args), deps)
    }
  }

  /** A list of task definitions. */
  class TaskList {
    var tasks: seq<TaskDef>

    constructor (tasks: seq<TaskDef>)
      ensures this.tasks == tasks
    {
      this.tasks := tasks;
    }

    /** `append(task)`: the definition goes last. */
    method Append(t: TaskDef)
      modifies this
      ensures tasks == old(tasks) + [t]
    {
      tasks := tasks + [t];
    }

    /** `tasks[i]`, with Python's negative indices. */
    function At(i: int): (r: Result<TaskDef>)
      reads this
      ensures r.Ok? <==> -(|tasks| as int) <= i < |tasks|
      ensures 0 <= i < |tasks| ==> r == Ok(tasks[i])
      ensures -(|tasks| as int) <= i < 0 ==> r == Ok(tasks[|tasks| + i])
    {
      match PyIndex(|tasks|, i)
      case None => Err(IndexOutOfRange)
      case Some(k) => Ok(tasks[k])
    }
  }
}
