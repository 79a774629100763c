# AgentGENius bookkeeping core, modelled in Dafny

AgentGENius breaks a user query into prioritised subtasks and runs each one
through an LLM agent with a set of tool functions bound to it. Under that
orchestration sits a layer of small, deterministic bookkeeping code. This
project models that layer and proves properties of it:

- **Tools** (`agentgenius/tools.py`). A `ToolDef` normalises a tool name that
  carries a `functions.` prefix. It then resolves the name by searching the
  call stack. A `ToolSet` is an ordered collection of ToolDefs, unique by name.
  It supports a strict `add` (recursive over lists and dict values), `remove`,
  `get`, membership, indexing, `len` and a name listing.
- **History** (`agentgenius/history.py`). `TaskHistory` is a bounded
  first-in-first-out log. Appending past the bound evicts the oldest item.
  `add_task` and `set_result` change only the newest item.
- **Cache** (`agentgenius/cache.py`). `ToolCallCache` is a memo table keyed by
  tool name, positional arguments and sorted keyword arguments. Entries expire
  after a time-to-live. Storing past the size bound evicts the entry with the
  smallest timestamp. A memoising wrapper sits around tool calls.
- **Tasks** (`agentgenius/tasks.py`). `TaskDef` is ordered by priority. `Task`
  resolves its agent definition and toolset and builds its agent.
  `_prepare_tools` and `register_toolset` walk the toolset. A run composes its
  question from the definition's question and the first argument. `TaskList`
  is the container for task definitions.
- **Search and history saving** (`agentgenius/utils.py`). `search_frame` walks
  a stack of (locals, globals) namespaces. The two decorators that save history
  contain an update-or-append step; the model keeps that step and drops the
  file I/O around it.
- **Analyzers and runners** (`agentgenius/task_management.py`,
  `agentgenius/task_managment.py`). The analyzer passes a None answer through
  and sorts a list answer by priority, stably. `get_history` filters and
  projects the history. The runners rewrite the task definition they are
  given.

How the model represents the source:

- Python values are the `Base.Value` datatype. It has `None`, strings,
  callables (name and identity) and other objects (truthiness only).
- Namespaces are maps. The call stack is a sequence of frames, innermost first.
- Exceptions are `Err` results that carry the exception's message.
- Objects whose fields the source updates in place are classes: `ToolSet`,
  `TaskHistory`, `HistoryItem`, `ToolCallCache`, `AgentDef`, `TaskDef`,
  `Task`, `TaskList` and both `TaskRunner`s. Their collections are sequence
  fields that the methods reassign. A history log holds references to its
  `HistoryItem` objects, so an item appended twice is changed in both places.
- Every state-changing method states its whole new state in its `ensures`.
  The methods with real logic are proved equal to a pure specification
  function of the old state, and the properties are lemmas about those
  functions: `ToolSet.Add`, `ToolCallCache.Get` and `ToolCallCache.Set`,
  `search_frame`, and the two history upserts. The remaining methods are
  simple updates, and their own `ensures` are their specification:
  `TaskHistory.Append`, `AddTask` and `SetResult`, `TaskList.Append`,
  `Task.RegisterTool` and the runners' constructors.
- The `ToolSet` class and every lemma about `add` use the corrected
  duplicate check of the Findings section, which tests the normalised name.
  The check as written is `Tools.InsertAsWritten`. The two agree on every
  name that does not contain `functions.`.
- Time is an integer passed in by the caller, in the same unit as the cache's
  time-to-live.
- The md5 cache key is the tuple it hashes.
- The LLM runtime is out of scope. An `Agent` records what it was built from,
  and a run is the request the agent would receive.

The files do not fully agree with each other. The model settles each
disagreement as follows:

- `task_management.py` and `task_managment.py` use a task definition's
  `agent_def` and `query`. `tasks.py` names these `agent` and `question`. The
  model identifies the field names: there is one `TaskDef` class, whose agent
  slot and question text serve both uses. Under "Left out" is what the code
  as written does instead.
- The history records that the saving decorators and `get_history` read have
  `final_result` and task `query` fields, like the `History` class those files
  import. `history.py` does not define that class: its `TaskHistory` uses
  `result` and `name`. The model therefore represents those records as
  `Utils.HistoryEntry`, separately from `History.TaskHistory`.
- `AgentDef` and `AgentParams` are not defined in the repository's
  `agents.py`. Their shape here is the one the core uses.

## Model

| member | source | states |
|---|---|---|
| Base.PyIndex | agentgenius/history.py:33-34 | Python list indexing: an index is valid exactly when it lies in `-len .. len-1`; a negative index counts from the end |
| Text.IndexOf | agentgenius/tools.py:34-35 | the first occurrence of a pattern, the one `in` and `split` look for; None exactly when the pattern does not occur |
| Sorting.SortByCorrect | agentgenius/task_management.py:108 | `sorted(xs, key=f)` yields a permutation of `xs`, ascending by key, in which the items of each key keep their original order |
| Utils.FrameAnswer | agentgenius/utils.py:38-47 | a frame answers exactly when its globals bind `name` to `value`, or its locals or globals bind `value` to something other than None; a hit on `name` answers with the globals alone, before the locals are looked at; a hit in the locals answers with locals and globals merged, globals winning; a hit in the globals alone answers with the globals |
| Utils.FindFrame | agentgenius/utils.py:35-49 | `search_frame` as a function of the stack, innermost frame first: the first frame answering ends the search; an empty stack raises "'value' not found"; its properties are `Utils.FindFrameFirstMatch` |
| Utils.FindFrameFirstMatch | agentgenius/utils.py:36-49 | the search raises "'value' not found" exactly when no frame answers; otherwise it answers from the first answering frame, innermost outward |
| Utils.FindFrameBindsValue | agentgenius/utils.py:42-47 | searched without `name`, a found namespace always binds `value`, possibly to None once globals win |
| Utils.SearchFrame | agentgenius/utils.py:35-49 | the frame walk returns exactly what the first-match search specifies |
| Utils.FirstWithQuery | agentgenius/utils.py:88-89 | finds the first stored record with the query; None exactly when no record has it |
| Utils.MergeTasks | agentgenius/utils.py:89-92 | how a stored record is updated: its tasks are replaced; its final result is replaced only by a truthy one; its query is kept |
| Utils.SaveTaskHistory | agentgenius/utils.py:78-97 | an empty history records nothing; otherwise the first record with the same query gets the new tasks, and the new final result only when that one is truthy; without a match the record is appended; the list grows by at most one |
| Utils.SaveHistory | agentgenius/utils.py:137-154 | an empty history records nothing; otherwise the current item, with the returned result as final result, overwrites the first record with its query or is appended |
| Tools.NormalizeName | agentgenius/tools.py:34-35 | a name without "functions." is unchanged; otherwise it becomes the text after the first occurrence, up to the next occurrence or the end; the result never contains the prefix |
| Tools.NormalizeNameIdempotent | agentgenius/tools.py:34-35 | normalising a normalised name changes nothing |
| Tools.MakeToolDef | agentgenius/tools.py:31-50 | a built ToolDef carries the normalised name and a truthy function |
| Tools.MakeToolDefResolution | agentgenius/tools.py:36-50 | building fails with "'x' not found" when no frame knows the name; otherwise the first answering frame decides: a truthy binding becomes the function, a missing or falsy one raises "Tool 'x' not found" |
| Tools.FirstNamed | agentgenius/tools.py:118-133 | the first entry with a name; None exactly when no entry has it |
| Tools.InsertAsWritten | agentgenius/tools.py:97-108 | one `add` of a callable or string as written: a duplicate is tested on the raw name; without one, the entry built from the normalised name is appended, or the resolution error raised |
| Tools.AsWrittenInsertBreaksUniqueness | agentgenius/tools.py:97-106 | with the duplicate check on the raw name, adding "functions.foo" to a set holding "foo" appends a second entry named "foo" |
| Tools.Insert | agentgenius/tools.py:97-108 | a name already present raises "Tool X already exists in ToolSet" and changes nothing; otherwise exactly one entry is appended at the end, or the resolution error is raised |
| Tools.AddSpec | agentgenius/tools.py:96-116 | the whole of `add` on the old entries: callables and strings insert one name (the corrected check), lists and dicts recurse, anything else raises "Tool must be a callable or a string"; an error keeps what was added before it |
| Tools.InsertOutcome | agentgenius/tools.py:97-108 | one insertion as an outcome: the new entries, or the old ones with the exception |
| Tools.AddSeq | agentgenius/tools.py:109-111 | `for t in tool: self.add(t)`: left to right, stopping at the first exception |
| Tools.AddEntries | agentgenius/tools.py:112-114 | `for t in tool.values(): self.add(t)`: the values in insertion order, stopping at the first exception |
| Tools.AddEntriesIsAddValues | agentgenius/tools.py:112-114 | adding a dict is adding the list of its values, in order; the keys play no part |
| Tools.AddSeqConcat | agentgenius/tools.py:109-111 | adding a list adds its elements left to right: adding `xs + ys` adds `xs`, then `ys` unless `xs` raised |
| Tools.AddSpecExtends | agentgenius/tools.py:96-116 | every add, raising or not, keeps the earlier entries as a prefix, so a duplicate part-way through a list keeps what came before it |
| Tools.AddSeqExtends | agentgenius/tools.py:109-111 | the same for a list |
| Tools.AddEntriesExtends | agentgenius/tools.py:112-114 | the same for a dict |
| Tools.InsertKeepsValid | agentgenius/tools.py:97-108 | one insertion keeps the names pairwise distinct and every function truthy |
| Tools.AddSpecKeepsValid | agentgenius/tools.py:96-116 | every add of any argument, raising or not, keeps the names pairwise distinct |
| Tools.AddSeqKeepsValid | agentgenius/tools.py:109-111 | the same for a list |
| Tools.AddEntriesKeepsValid | agentgenius/tools.py:112-114 | the same for a dict |
| Tools.AddDuplicateRaises | agentgenius/tools.py:97-108 | adding a callable or string whose name is present raises "Tool X already exists in ToolSet" and leaves the entries unchanged (name tested after normalisation, as corrected) |
| Tools.AddSameNameTwice | agentgenius/tools.py:109-111 | a list with the same name twice raises on the second occurrence, with the first one kept (corrected check) |
| Tools.AddFreshName | agentgenius/tools.py:103-106 | adding a resolvable new name appends exactly one entry, last, which `get` then finds first (corrected check) |
| Tools.ContainsIffListed | agentgenius/tools.py:144-146 | for a string, `name in ts` holds exactly when `all()` lists it, and then `get` returns that entry's function |
| Tools.ToolSet.constructor | agentgenius/tools.py:88-89 | `ToolSet()` is empty |
| Tools.ToolSet.New | agentgenius/tools.py:88-93 | a falsy argument gives an empty set; otherwise the set holds what adding the argument gives, or the add's exception is raised (corrected check) |
| Tools.ToolSet.Add | agentgenius/tools.py:96-116 | `add` changes the entries and raises exactly as `Tools.AddSpec` says, with the corrected duplicate check, and keeps names distinct |
| Tools.ToolSet.InsertOne | agentgenius/tools.py:97-108 | one callable or string added by name, as `Tools.Insert` (the corrected check) specifies |
| Tools.ToolSet.Remove | agentgenius/tools.py:118-122 | deletes the first entry with the name and returns it; for an absent name returns None and changes nothing; afterwards the name is gone |
| Tools.ToolSet.Get | agentgenius/tools.py:124-130 | the function of the first entry with the name, or the default when there is none |
| Tools.ToolSet.CheckToolExists | agentgenius/tools.py:132-133 | true exactly when `all()` lists the name |
| Tools.ToolSet.Len | agentgenius/tools.py:141-142 | the number of names `all()` lists |
| Tools.ToolSet.All | agentgenius/tools.py:155-156 | the names in insertion order; a name is listed exactly when some entry carries it |
| Tools.ToolSet.Contains | agentgenius/tools.py:144-150 | a string is a member when `get` finds something other than None; a plain function never equals a ToolDef entry; any other value raises "value must be a type of string or callable"; a ToolDef argument is `Tools.ToolSet.ContainsTool` |
| Tools.ToolSet.ContainsTool | agentgenius/tools.py:147-148 | a ToolDef argument is itself callable and is compared with the entries by model equality, which looks only at the declared field `name`: it is a member exactly when some entry has its name, that is, exactly when `all()` lists its name, whatever function either resolved to |
| Tools.ToolSet.At | agentgenius/tools.py:138-139 | `ts[i]` is the function of the entry at a Python index, or raises IndexError |
| History.TaskHistory.constructor | agentgenius/history.py:27-28 | a new history is empty, with the given bound |
| History.TaskHistory.Len | agentgenius/history.py:30-31 | the number of items |
| History.TaskHistory.At | agentgenius/history.py:33-34 | `history[i]` is the item at a Python index, or raises IndexError |
| History.TaskHistory.Append | agentgenius/history.py:42-46 | without overflow the list only grows by the item; on overflow the former first item is dropped and the rest keep their order; the item is always last; the bound is preserved |
| History.TaskHistory.GetCurrentItem | agentgenius/history.py:48-50 | the last item, or None exactly when the history is empty |
| History.HistoryItem.constructor | agentgenius/history.py:15-20 | a new item has its query, no tasks and no result |
| History.TaskHistory.AddTask | agentgenius/history.py:52-55 | appends one TaskItem to the tasks of the newest item object; the log and the item's result are unchanged, and no other object is modified; a no-op when empty |
| History.TaskHistory.SetResult | agentgenius/history.py:57-60 | overwrites the result of the newest item object, and nothing else; a no-op when empty |
| History.AddTaskToSharedItem | agentgenius/history.py:42-55 | an item appended twice is one object held twice: a task added to the newest entry shows in both entries |
| History.FillPastBound | agentgenius/history.py:42-46 | appending N+1 items to an empty history bounded by N keeps the last N, in order |
| Cache.SortKwargsCorrect | agentgenius/cache.py:30 | `sorted(kwargs.items())` on distinct names is ascending by name and a permutation of the pairs |
| Cache.AscendingUnique | agentgenius/cache.py:30 | two ascending sequences of pairs with the same elements are equal |
| Cache.KeyIgnoresKwargsOrder | agentgenius/cache.py:28-31 | two calls share a key exactly when they have the same tool name, the same positional arguments and the same keyword arguments, in any order |
| Cache.MakeKey | agentgenius/cache.py:28-31 | the key is the tool name, the positional arguments and the keyword arguments sorted by name; its properties are `Cache.KeyIgnoresKwargsOrder` |
| Cache.SortKwargs | agentgenius/cache.py:30 | `sorted(kwargs.items())` as an insertion sort by name; its properties are `Cache.SortKwargsCorrect` |
| Cache.Find | agentgenius/cache.py:36 | the position of a key in the dict; None exactly when absent |
| Cache.Lookup | agentgenius/cache.py:36-37 | the dict seen as a map: the entry at the first slot with the key, or none |
| Cache.Put | agentgenius/cache.py:46 | `self.cache[key] = entry`: an existing key keeps its slot, a new one goes last; its properties are `Cache.PutLookup` |
| Cache.RemoveAt | agentgenius/cache.py:40 | `del self.cache[key]` for the key at a slot: the other slots keep their order; its properties are `Cache.RemoveLookup` |
| Cache.PutLookup | agentgenius/cache.py:46 | storing binds the key to the new entry, leaves all other keys as they were, keeps keys distinct, and adds a slot only for a new key |
| Cache.RemoveLookup | agentgenius/cache.py:40 | deleting a key removes exactly that key |
| Cache.FirstMinIndex | agentgenius/cache.py:50 | the key `min` picks: the smallest timestamp, the first such in dict order |
| Cache.SetSpec | agentgenius/cache.py:43-51 | `set` on the table: store, then evict the first oldest entry when the table is larger than `max_size`; its properties are `Cache.SetSpecBounded`, `Cache.SetSpecStores` and `Cache.SetSpecEvictsOldest` |
| Cache.GetSpec | agentgenius/cache.py:33-41 | `get` on the table: the value returned and the table after the call; its properties are `Cache.GetSpecCorrect` |
| Cache.GetSpecCorrect | agentgenius/cache.py:33-41 | `get` returns the stored result exactly when the key is present and `now - timestamp < ttl`, else None; a hit or miss leaves the table unchanged; an expired entry is deleted and nothing else changes |
| Cache.SetSpecBounded | agentgenius/cache.py:43-51 | after `set` the keys stay distinct, and the size is at most `max_size` if it was before |
| Cache.SetSpecStores | agentgenius/cache.py:45-46 | without overflow, `set` binds the key to `(result, now)`, overwriting an earlier entry, and touches nothing else |
| Cache.SetSpecEvictsOldest | agentgenius/cache.py:48-51 | on overflow exactly one key is removed, one with the minimum timestamp, and every other key is kept |
| Cache.SetThenGet | agentgenius/cache.py:43-51 | a value just stored, None included, is returned by a `get` within the time-to-live when the table was within its bound and no entry was newer |
| Cache.SetNewKeyWithRoom | agentgenius/cache.py:45-49 | storing a new key with room left appends it |
| Cache.SetNewKeyWhenFull | agentgenius/cache.py:45-51 | storing a new key into a full table appends it, then evicts the first oldest entry |
| Cache.FourthStoreEvictsFirst | tests/test_cache.py:31-46 | a fourth store into a table of three, with timestamps in non-decreasing order, evicts the first one, also on equal timestamps, as `min` keeps the first minimum |
| Cache.ToolCallCache.constructor | agentgenius/cache.py:24-26 | a new cache is empty, with the given bound and time-to-live |
| Cache.ToolCallCache.Get | agentgenius/cache.py:33-41 | `get` returns and leaves the table as the lookup specification says, and keeps keys distinct |
| Cache.ToolCallCache.Set | agentgenius/cache.py:43-51 | `set` leaves the table as the store specification says, and keeps keys distinct |
| Cache.CallCached | agentgenius/cache.py:70-85 | a cached result other than None is returned without calling the tool; otherwise the tool is called once and its result stored under that key |
| Cache.FillToBound | tests/test_cache.py:31-37 | three stores with no arguments into a cache bounded by 3 keep all three, in order |
| Cache.FillPastBound | tests/test_cache.py:31-38 | four stores with no arguments, at non-decreasing times, into a cache bounded by 3 keep the last three |
| Cache.SizeLimitScenario | tests/test_cache.py:31-46 | after those stores the first tool is a miss and the other three are returned |
| Tasks.AgentDef.constructor | agentgenius/task_management.py:125-158 | an agent definition holds the model, name, prompt and params it was given |
| Tasks.TaskDef.constructor | agentgenius/tasks.py:28-32 | a task definition holds its name, question, priority, agent and toolset |
| Tasks.TaskDef.Lt | agentgenius/tasks.py:34-35 | `__lt__`: one definition is below another exactly when its priority is smaller |
| Tasks.SortByPriority | agentgenius/task_management.py:108 | `sorted(tasks, key=lambda x: x.priority)`; its properties are `Tasks.SortByPriorityCorrect` |
| Tasks.SortByPriorityCorrect | agentgenius/tasks.py:34-35 | sorting by priority gives a permutation in which no definition is `<` an earlier one and equal priorities keep their order |
| Tasks.ToolsFor | agentgenius/tasks.py:73-77 | one `Tool(tool.function)` per toolset entry, in the same order |
| Tasks.ToolsForConcat | agentgenius/tasks.py:83-86 | the tools of two toolsets one after the other are the tools of their concatenation |
| Tasks.ResolveAgent | agentgenius/tasks.py:56-58 | a passed agent definition wins; otherwise the task definition's own is used |
| Tasks.ResolveToolset | agentgenius/tasks.py:60-62 | the definition's toolset replaces the passed one exactly when the passed one is the default empty list; the result is one of the two whole, never a merge |
| Tasks.EffectiveQuestion | agentgenius/tasks.py:89-91 | the question a run sends, as the `if` composes it; its properties are `Tasks.EffectiveQuestionShape` |
| Tasks.EffectiveQuestionShape | agentgenius/tasks.py:94-98 | the question sent starts with the definition's question; it is that question alone exactly when the question is empty or no argument is given; arguments beyond the first are ignored; with a non-empty question and an argument it is exactly `question + ": " + args[0]` |
| Tasks.Task.constructor | agentgenius/tasks.py:55-71 | a task holds the resolved agent definition and toolset, and an agent built from the definition's model, name, prompt and params, with one tool per toolset entry |
| Tasks.Task.New | agentgenius/tasks.py:55-71 | building a task raises exactly when neither the argument nor the definition supplies an agent definition; otherwise the task is built as the constructor says |
| Tasks.Task.PrepareTools | agentgenius/tasks.py:73-77 | the loop builds one tool per entry, in order |
| Tasks.Task.RegisterTool | agentgenius/tasks.py:79-81 | the agent gains exactly one tool at the end |
| Tasks.Task.RegisterToolset | agentgenius/tasks.py:83-86 | every entry of the toolset is registered once, in iteration order |
| Tasks.Task.RunSync | agentgenius/tasks.py:88-98 | a run sends the agent the definition's question, extended to `question + ": " + args[0]` exactly when the question is non-empty and an argument is given, and passes the keyword arguments through; `run` and `run_sync` compose the same request |
| Tasks.TaskList.constructor | agentgenius/tasks.py:101-103 | a task list holds the definitions it was given |
| Tasks.TaskList.Append | agentgenius/tasks.py:111-112 | `append` adds the definition at the end |
| Tasks.TaskList.At | agentgenius/tasks.py:108-109 | `tasks[i]` is the definition at a Python index, or raises IndexError |
| TaskManagement.AnalyzerQuestion | agentgenius/task_management.py:74-79 | the analyzer's run asks its fixed question followed by ": " and the user query |
| TaskManagement.Analyze | agentgenius/task_management.py:104-114 | the analyzer's post-processing of the answer: None passes through, a list is sorted by priority; its properties are `TaskManagement.AnalyzeCorrect` |
| TaskManagement.AnalyzeCorrect | agentgenius/task_management.py:104-114 | a None answer gives None; a list answer gives a permutation of it, ascending by priority, ties in their original order |
| TaskManagement.GetHistory | agentgenius/task_management.py:86-93 | `get_history`: no history gives an empty digest, otherwise the digest of its items |
| TaskManagement.DigestOf | agentgenius/task_management.py:87-91 | the items with a final result, in order, reduced to their query and final result; its properties are `TaskManagement.DigestOfConcat` and `TaskManagement.DigestOfMembers` |
| TaskManagement.DigestOfConcat | agentgenius/task_management.py:86-93 | the history digest keeps the original order: the digest of a concatenation is the concatenation of the digests |
| TaskManagement.DigestOfMembers | agentgenius/task_management.py:86-93 | a `{user_query, final_result}` line appears exactly when some item with that query has that final result; items without a final result are dropped |
| TaskManagement.TaskRunner.constructor | agentgenius/task_management.py:160-163 | the default "Task solver" agent is installed only when the definition has none; the params of whichever agent it has are replaced by `deps_type=History`; the task is built from the definition with the toolset |
| TaskManagement.TaskRunner.RunSync | agentgenius/task_management.py:174-176 | a run asks the definition's question unextended, with the history as deps |
| TaskManagment.Analyze | agentgenius/task_managment.py:31-39 | the answer sorted by priority, as a permutation, stable on ties |
| TaskManagment.TaskRunner.constructor | agentgenius/task_managment.py:43-53 | the default agent is installed only when the definition has none; params are overwritten with `deps_type=TaskHistory`; the definition's toolset is replaced by the given list |
| TaskManagment.TaskRunner.RunSync | agentgenius/task_managment.py:55-59 | each run builds a fresh task from the definition as it now is, with the history as deps, and raises when the definition has no agent |

## Left out

- TaskManagement.AnalyzerQuestion, TaskManagement.TaskRunner.constructor, TaskManagment.TaskRunner.constructor and TaskManagment.TaskRunner.RunSync: these model the code with the field names identified. As written, against the `TaskDef` of agentgenius/tasks.py:28-32, the code raises at these places:
  - `TaskDef(name=..., agent_def=..., query=...)` at agentgenius/task_management.py:75-79 and agentgenius/task_managment.py:32,38 omits the required `question` and `priority`.
  - `task_def.agent_def` at agentgenius/task_management.py:160-162 and agentgenius/task_managment.py:50-52 is not an attribute of that class.
- The library's own frames on the call stack. `search_frame` starts at its own frame, whose locals are `value`, `name` and `frame`. Then come `ToolDef.__init__` (`self`, `name`) and one `ToolSet.add` frame per level of nesting (`self`, `tool`, `t`). The modelled stack holds only the caller's frames, and every nested add searches that same stack. So the model does not capture a name like `"t"` resolving to a loop variable of an outer add. `Tools.AddSeqConcat` and `Tools.AddEntriesIsAddValues` rely on this.
- Tools.ToolSet.Add: uses the corrected duplicate check of the Findings section, not the raw-name check of agentgenius/tools.py:98 and 104. So do `Tools.ToolSet.New`, `Tools.ToolSet.InsertOne` and the `add` lemmas. The as-written check is `Tools.InsertAsWritten`. The two differ only on names containing `functions.`.
- The LLM runtime. This covers pydantic_ai's `Agent` construction, `agent.run` and `run_sync`, `_register_tool`, and the `@system_prompt` callbacks. It is foreign code; an `Agent` is a record of what it was built from.
- The async variants `run` and `analyze`. They compose the same request as the sync ones, so each operation is modelled once.
- The fixed system prompts of the analyzers and runners. They are long literal texts with no logic. The runners take the solver prompt as a parameter. The prompt string `get_history` builds from the digest is not modelled; only the digest is.
- `get_current_date` and `datetime.now()`. The clock is a parameter.
- QuestionAnalyzer construction (its agent definition and Task). Only the question its run sends and the post-processing of the answer are modelled. In `task_managment.py` the analyzer's question is the user query itself.
- The md5 hash and `str()` of the key parts. The key is the tuple they are built from, so hash collisions and two different arguments with the same `str()` are not modelled.
- The float time-to-live of `tests/test_cache.py:50`. Times are integer ticks.
- `CachedToolSet.add`. It hands the wrapper to `ToolSet.add`, which resolves it again by name through the call stack. The wrapper is modelled only as a memo function, and the tool as a pure function of its arguments.
- File I/O of `save_task_history` and `save_history` (directory creation, JSON load and dump, decode errors). Only the in-memory update-or-append is modelled.
- `TaskHistory.__iter__`, `TaskList.__iter__`, `ToolSet.__iter__` and `__str__`. Iteration yields the `items`/`tasks`/`tools` sequences directly. Proofs use those sequences.
- Slices passed to `__getitem__`. Only integer indices are modelled.
- `ToolSet.accept_others`. The validator only runs when `tools` is set through pydantic, which the constructor never does.
- Aliasing between a `ToolSet` object and a `Task`'s toolset. A Task holds a `Toolset` value that snapshots the entries it was given.
- Task status callbacks. This file version of `tasks.py` has none.
- The tool loaders, the built-in tools, the tool coder and manager (`tools_management.py`), configuration, UI and packaging. They are outside the bookkeeping core.
- Python's `sorted` compares whole `(name, value)` pairs. On distinct names, which every kwargs dict has, this is the name order. The model sorts by name, and its lemmas assume distinct names.

## Findings

| source | as written | input that shows it | evidently intended | confidence | as-written member | corrected member |
|---|---|---|---|---|---|---|
| agentgenius/tools.py:97-106 | `add` checks for a duplicate under the name as given, but the ToolDef it appends carries the normalised name (agentgenius/tools.py:34-35) | a ToolSet holding `foo`, then `add("functions.foo")` with `foo` resolvable: the check looks for `functions.foo`, finds none, and appends a second `foo` | names stay unique, so the test should use the name the entry will carry | not executed | Tools.AsWrittenInsertBreaksUniqueness | Tools.Insert |
