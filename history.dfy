/** agentgenius/history.py: a bounded first-in-first-out log of queries, the
    tasks run for each and its final result. */
module History {
  import opened Base

  datatype TaskItem = TaskItem(name: string, result: string)

  /** A history item: the user query, the tasks run for it and the final
      result. The log holds references, so `add_task` and `set_result`
      change the item object itself, wherever else it is held. */
  class HistoryItem {
    const userQuery: string
    var tasks: seq<TaskItem>
    var result: Option<string>

    /** `HistoryItem(user_query=q)`: no tasks and no result yet. */
    constructor (userQuery: string)
      ensures this.userQuery == userQuery && tasks == [] && result == None
    {
      this.userQuery := userQuery;
      tasks := [];
      result := None;
    }
  }

  class TaskHistory {
    var maxItems: int
    var items: seq<HistoryItem>

    /** The bound `len(items) <= max_items`. */
    ghost predicate Bounded()
      reads this
    {
      |items| <= maxItems
    }

    /** `TaskHistory(max_items=n)`, 10 by default. */
    constructor (maxItems: int)
      ensures this.maxItems == maxItems && items == []
    {
      this.maxItems := maxItems;
      items := [];
    }

    /** `len(history)`. */
    function Len(): (n: nat)
      reads this
      ensures n == |items|
    {
      |items|
    }

    /** `history[i]`, with Python's negative indices. */
    function At(i: int): (r: Result<HistoryItem>)
      reads this
      ensures r.Ok? <==> -(|items| as int) <= i < |items|
      ensures 0 <= i < |items| ==> r == Ok(items[i])
      ensures -(|items| as int) <= i < 0 ==> r == Ok(items[|items| + i])
    {
      match PyIndex(|items|, i)
      case None => Err(IndexOutOfRange)
      case Some(k) => Ok(items[k])
    }

    /** `append(item)`: the item goes last; when the log then holds more than
        `max_items`, the oldest item (the former first one) is dropped. Only
        one item is ever dropped. */
    method Append(item: HistoryItem)
      modifies this
      ensures maxItems == old(maxItems)
      ensures |old(items)| + 1 <= maxItems ==> items == old(items) + [item]
      ensures |old(items)| + 1 > maxItems ==> items == (old(items) + [item])[1..]
      ensures items != [] ==> items[|items| - 1] == item
      ensures old(Bounded()) ==> Bounded()
    {
      items := items + [item];
      if |items| > maxItems {
        items := items[1..];
      }
    }

    /** `get_current_item()`: the newest item, or None when empty. */
    function GetCurrentItem(): (r: Option<HistoryItem>)
      reads this
      ensures r.None? <==> items == []
      ensures r.Some? ==> r.value == items[|items| - 1]
    {
      if items == [] then None else Some(items[|items| - 1])
    }

    /** `add_task(name, result)`: appends one TaskItem to the newest item's
        tasks, in that item object; the log itself, and the item's result, are
        left as they were; on an empty history nothing happens. */
    method AddTask(name: string, result: string)
      modifies if items == [] then {} else {items[|items| - 1]}
      ensures items == old(items)
      ensures items != [] ==> items[|items| - 1].tasks == old(items[|items| - 1].tasks) + [TaskItem(name, result)]
      ensures items != [] ==> items[|items| - 1].result == old(items[|items| - 1].result)
    {
      var current := GetCurrentItem();
      if current.Some? {
        current.value.tasks := current.value.tasks + [TaskItem(name, result)];
      }
    }

    /** `set_result(result)`: overwrites the newest item's result, in that
        item object; a no-op on an empty history. */
    method SetResult(result: string)
      modifies if items == [] then {} else {items[|items| - 1]}
      ensures items == old(items)
      ensures items != [] ==> items[|items| - 1].result == Some(result)
      ensures items != [] ==> items[|items| - 1].tasks == old(items[|items| - 1].tasks)
    {
      var current := GetCurrentItem();
      if current.Some? {
        current.value.result := Some(result);
      }
    }
  }

  /** The same item appended twice is held twice: a task added to the newest
      entry shows in both entries, since both are that one object. */
  method AddTaskToSharedItem(item: HistoryItem, name: string, result: string) returns (h: TaskHistory)
    modifies item
    ensures fresh(h) && h.items == [item, item]
    ensures h.items[0].tasks == old(item.tasks) + [TaskItem(name, result)]
    ensures h.items[1].tasks == old(item.tasks) + [TaskItem(name, result)]
  {
    h := new TaskHistory(10);
    h.Append(item);
    h.Append(item);
    h.AddTask(name, result);
  }

  /** The scenario of a full log: appending N+1 items to an empty history
      bounded by N keeps the last N, in order. */
  method FillPastBound(n: nat, xs: seq<HistoryItem>) returns (kept: seq<HistoryItem>)
    requires |xs| == n + 1
    ensures kept == xs[1..]
  {
    var h := new TaskHistory(n);
    var i := 0;
    while i < |xs|
      invariant 0 <= i <= |xs|
      invariant h.maxItems == n
      invariant h.items == if i <= n then xs[..i] else xs[1..i]
    {
      h.Append(xs[i]);
      assert xs[..i + 1] == xs[..i] + [xs[i]];
      i := i + 1;
    }
    kept := h.items;
  }
}
