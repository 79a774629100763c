/** agentgenius/utils.py: the namespace search over the call stack that
    resolves tool names, and the in-memory update-or-append step of the two
    history-saving decorators. */
module Utils {
  import opened Base

  /** A Python namespace: variable names bound to values. */
  type Namespace = map<string, Value>

  /** One frame of the call stack: its locals and its globals. */
  datatype Frame = Frame(locals: Namespace, globals: Namespace)

  /** Whether a name was passed (`if name:`): present and non-empty. */
  predicate NameGiven(name: Option<string>)
  {
    name.Some? && name.value != ""
  }

  /** The answer one frame gives to `search_frame(value, name)`; `None` means
      the search moves on to the calling frame. First the frame's globals may
      bind `name` to the string `value`; then its locals may bind `value` to
      something other than None (the answer is locals merged with globals);
      then its globals may do so. */
  function FrameAnswer(f: Frame, value: string, name: Option<string>): (r: Option<Namespace>)
    ensures r.Some? <==>
              (NameGiven(name) && name.value in f.globals && f.globals[name.value] == Str(value))
              || (value in f.locals && f.locals[value] != NoneValue)
              || (value in f.globals && f.globals[value] != NoneValue)
    // the frame's globals are part of every answer and win over its locals
    ensures r.Some? ==> forall k :: k in f.globals ==> k in r.value && r.value[k] == f.globals[k]
    // nothing is invented: every binding comes from the locals or the globals
    ensures r.Some? ==> forall k :: k in r.value ==>
              (k in f.globals && r.value[k] == f.globals[k]) || (k in f.locals && r.value[k] == f.locals[k])
    // a hit on `name` answers with the globals alone, before the locals are looked at
    ensures NameGiven(name) && name.value in f.globals && f.globals[name.value] == Str(value) ==>
              r == Some(f.globals)
    // otherwise a hit in the locals answers with locals and globals merged
    ensures !(NameGiven(name) && name.value in f.globals && f.globals[name.value] == Str(value))
            && value in f.locals && f.locals[value] != NoneValue ==>
              r.Some? && r.value.Keys == f.locals.Keys + f.globals.Keys
    // and a hit in the globals alone answers with the globals alone
    ensures !(NameGiven(name) && name.value in f.globals && f.globals[name.value] == Str(value))
            && !(value in f.locals && f.locals[value] != NoneValue) && r.Some? ==>
              r == Some(f.globals)
  {
    if NameGiven(name) && name.value in f.globals && f.globals[name.value] == Str(value) then
      Some(f.globals)
    else if value in f.locals && f.locals[value] != NoneValue then
      Some(f.locals + f.globals)
    else if value in f.globals && f.globals[value] != NoneValue then
      Some(f.globals)
    else
      None
  }

  /** `search_frame` as a function of the stack, innermost frame first. */
  function FindFrame(frames: seq<Frame>, value: string, name: Option<string>): Result<Namespace>
  {
    if frames == [] then Err(NameNotFound(value))
    else match FrameAnswer(frames[0], value, name)
      case Some(ns) => Ok(ns)
      case None => FindFrame(frames[1..], value, name)
  }

  /** The search answers from the first frame, innermost outward, that has
      an answer, and raises "'value' not found" exactly when none has. */
  lemma {:induction false} FindFrameFirstMatch(frames: seq<Frame>, value: string, name: Option<string>)
    ensures var r := FindFrame(frames, value, name);
            r.Err? <==> forall i :: 0 <= i < |frames| ==> FrameAnswer(frames[i], value, name).None?
    ensures var r := FindFrame(frames, value, name);
            r.Err? ==> r.error == NameNotFound(value)
    ensures var r := FindFrame(frames, value, name);
            r.Ok? ==> exists i :: 0 <= i < |frames| && FrameAnswer(frames[i], value, name) == Some(r.value)
                             && forall j :: 0 <= j < i ==> FrameAnswer(frames[j], value, name).None?
  {
    if frames != [] && FrameAnswer(frames[0], value, name).None? {
      var rest := frames[1..];
      FindFrameFirstMatch(rest, value, name);
      var r := FindFrame(frames, value, name);
      assert r == FindFrame(rest, value, name);
      if r.Ok? {
        var i :| 0 <= i < |rest| && FrameAnswer(rest[i], value, name) == Some(r.value)
                 && forall j :: 0 <= j < i ==> FrameAnswer(rest[j], value, name).None?;
        assert FrameAnswer(frames[i + 1], value, name) == Some(r.value);
        forall j | 0 <= j < i + 1 ensures FrameAnswer(frames[j], value, name).None? {
          if j > 0 { assert frames[j] == rest[j - 1]; }
        }
      } else {
        forall i | 0 <= i < |frames| ensures FrameAnswer(frames[i], value, name).None? {
          if i > 0 { assert frames[i] == rest[i - 1]; }
        }
      }
    }
  }

  /** Looked up without a `name`, a found namespace always binds `value`,
      though, since the globals win, possibly to None. */
  lemma FindFrameBindsValue(frames: seq<Frame>, value: string)
    requires FindFrame(frames, value, None).Ok?
    ensures value in FindFrame(frames, value, None).value
  {
    FindFrameFirstMatch(frames, value, None);
  }

  /** The walk `frame = frame.f_back` of `search_frame`. */
  method SearchFrame(frames: seq<Frame>, value: string, name: Option<string>) returns (r: Result<Namespace>)
    ensures r == FindFrame(frames, value, name)
  {
    var i := 0;
    while i < |frames|
      invariant 0 <= i <= |frames|
      invariant FindFrame(frames, value, name) == FindFrame(frames[i..], value, name)
    {
      var f := frames[i];
      assert frames[i..][0] == f && frames[i..][1..] == frames[i + 1..];
      if NameGiven(name) && name.value in f.globals && f.globals[name.value] == Str(value) {
        return Ok(f.globals);
      }
      if value in f.locals && f.locals[value] != NoneValue {
        return Ok(f.locals + f.globals);
      }
      if value in f.globals && f.globals[value] != NoneValue {
        return Ok(f.globals);
      }
      i := i + 1;
    }
    return Err(NameNotFound(value));
  }

  // ---------------------------------------------------------------------
  // History records as the saving decorators and the analyzer read them.
  // Their shape is that of the `History` class these files use, which
  // history.py does not define (its TaskHistory names the fields
  // differently): a query, its tasks as query/result pairs, a final result.

  datatype TaskRecord = TaskRecord(query: string, result: string)

  datatype HistoryEntry = HistoryEntry(userQuery: string, tasks: seq<TaskRecord>, finalResult: Option<string>)

  /** Python truthiness of an optional string. */
  predicate Present(s: Option<string>)
  {
    s.Some? && s.value != ""
  }

  /** Index of the first stored record for `query`. */
  function FirstWithQuery(records: seq<HistoryEntry>, query: string): (r: Option<nat>)
    ensures r.Some? ==> r.value < |records| && records[r.value].userQuery == query
    ensures r.Some? ==> forall j :: 0 <= j < r.value ==> records[j].userQuery != query
    ensures r.None? ==> forall j :: 0 <= j < |records| ==> records[j].userQuery != query
  {
    if records == [] then None
    else if records[0].userQuery == query then Some(0)
    else match FirstWithQuery(records[1..], query)
      case None => None
      case Some(i) => Some(i + 1)
  }

  /** How save_task_history updates a stored record: its tasks are replaced,
      its final result only by a truthy one. */
  function MergeTasks(stored: HistoryEntry, current: HistoryEntry): HistoryEntry
  {
    stored.(tasks := current.tasks,
            finalResult := if Present(current.finalResult) then current.finalResult else stored.finalResult)
  }

  /** The update-or-append step of save_task_history, with the file read and
      write left out: `existing` is the loaded list, `items` the history's
      items, of which the last is recorded. Only the first record with the same
      query is updated; without one the record is appended; an empty history
      records nothing. */
  method SaveTaskHistory(existing: seq<HistoryEntry>, items: seq<HistoryEntry>) returns (r: seq<HistoryEntry>)
    ensures items == [] ==> r == existing
    ensures items != [] ==>
              var current := items[|items| - 1];
              match FirstWithQuery(existing, current.userQuery)
              case Some(i) => r == existing[i := MergeTasks(existing[i], current)]
              case None => r == existing + [current]
    ensures |existing| <= |r| <= |existing| + 1
  {
    r := existing;
    if items == [] {
      return;
    }
    var current := items[|items| - 1];
    var updated := false;
    var i := 0;
    while i < |r| && !updated
      invariant 0 <= i <= |r| == |existing|
      invariant !updated ==> r == existing && forall j :: 0 <= j < i ==> existing[j].userQuery != current.userQuery
      invariant updated ==> 0 < i && FirstWithQuery(existing, current.userQuery) == Some(i - 1)
                            && r == existing[i - 1 := MergeTasks(existing[i - 1], current)]
    {
      if r[i].userQuery == current.userQuery {
        r := r[i := MergeTasks(r[i], current)];
        updated := true;
      }
      i := i + 1;
    }
    if !updated {
      r := r + [current];
    }
  }

  /** The update-or-append step of save_history: the current item is recorded
      with the wrapped call's `result` as its final result; the first record
      with the same query has all its fields overwritten, otherwise the record
      is appended; with no current item nothing is recorded. */
  method SaveHistory(existing: seq<HistoryEntry>, items: seq<HistoryEntry>, result: Option<string>)
    returns (r: seq<HistoryEntry>)
    ensures items == [] ==> r == existing
    ensures items != [] ==>
              var current := items[|items| - 1].(finalResult := result);
              match FirstWithQuery(existing, current.userQuery)
              case Some(i) => r == existing[i := current]
              case None => r == existing + [current]
    ensures |existing| <= |r| <= |existing| + 1
  {
    r := existing;
    if items == [] {
      return;
    }
    var current := items[|items| - 1].(finalResult := result);
    var updated := false;
    var i := 0;
    while i < |r| && !updated
      invariant 0 <= i <= |r| == |existing|
      invariant !updated ==> r == existing && forall j :: 0 <= j < i ==> existing[j].userQuery != current.userQuery
      invariant updated ==> 0 < i && FirstWithQuery(existing, current.userQuery) == Some(i - 1)
                            && r == existing[i - 1 := current]
    {
      if r[i].userQuery == current.userQuery {
        r := r[i := current];
        updated := true;
      }
      i := i + 1;
    }
    if !updated {
      r := r + [current];
    }
  }
}
