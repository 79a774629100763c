/** agentgenius/tools.py: tool definitions resolved by name through the
    call stack, and ToolSet, an ordered collection of them, unique by name. */
module Tools {
  import opened Base
  import opened Text
  import opened Utils

  /** The prefix some model replies put in front of a tool's name. */
  const FunctionsPrefix: string := "functions."

  /** ToolDef's name normalisation: a name containing "functions." becomes
      `name.split("functions.")[1]`, the text after the first occurrence up
      to the next occurrence or the end. */
  function NormalizeName(raw: string): (n: string)
    ensures !Contains(raw, FunctionsPrefix) ==> n == raw
    ensures Contains(raw, FunctionsPrefix) ==>
              exists i :: 0 <= i && OccursAt(raw, FunctionsPrefix, i)
                          && (forall j :: 0 <= j < i ==> !OccursAt(raw, FunctionsPrefix, j))
                          && var rest := raw[i + |FunctionsPrefix|..];
                             n <= rest && (n == rest || OccursAt(rest, FunctionsPrefix, |n|))
    ensures !Contains(n, FunctionsPrefix)
  {
    match IndexOf(raw, FunctionsPrefix)
    case None => raw
    case Some(i) =>
      var rest := raw[i + |FunctionsPrefix|..];
      match IndexOf(rest, FunctionsPrefix)
      case None => rest
      case Some(j) =>
        assert !Contains(rest[..j], FunctionsPrefix) by {
          forall k | 0 <= k <= j && OccursAt(rest[..j], FunctionsPrefix, k) ensures false {
            OccursInPrefix(rest, FunctionsPrefix, j, k);
          }
        }
        rest[..j]
  }

  /** Normalising twice changes nothing. */
  lemma NormalizeNameIdempotent(raw: string)
    ensures NormalizeName(NormalizeName(raw)) == NormalizeName(raw)
  {
  }

  /** A resolved tool: its (normalised) name and the value bound to it. */
  datatype ToolDef = ToolDef(name: string, fn: Value)

  /** `ToolDef(name)` on the call stack `frames`: normalise the name, find
      the namespace with `search_frame(name)`, and take the value bound to the
      name there, failing with "Tool 'x' not found" when it is missing or
      falsy. */
  function MakeToolDef(raw: string, frames: seq<Frame>): (r: Result<ToolDef>)
    ensures r.Ok? ==> r.value.name == NormalizeName(raw) && Truthy(r.value.fn)
  {
    var n := NormalizeName(raw);
    match FindFrame(frames, n, None)
    case Err(e) => Err(e)
    case Ok(ns) =>
      if n in ns && Truthy(ns[n]) then Ok(ToolDef(n, ns[n])) else Err(ToolNotFound(n))
  }

  /** Building a ToolDef succeeds exactly when the first frame that knows the
      normalised name, merged as search_frame merges it, binds it to a truthy
      value, which becomes the tool's function; it raises "'x' not found" when
      no frame knows the name and "Tool 'x' not found" otherwise. */
  lemma MakeToolDefResolution(raw: string, frames: seq<Frame>)
    ensures var n := NormalizeName(raw); var r := MakeToolDef(raw, frames);
            (forall i :: 0 <= i < |frames| ==> FrameAnswer(frames[i], n, None).None?) ==> r == Err(NameNotFound(n))
    ensures var n := NormalizeName(raw); var r := MakeToolDef(raw, frames);
            forall i :: 0 <= i < |frames| && FrameAnswer(frames[i], n, None).Some?
                        && (forall j :: 0 <= j < i ==> FrameAnswer(frames[j], n, None).None?) ==>
                          var ns := FrameAnswer(frames[i], n, None).value;
                          if n in ns && Truthy(ns[n]) then r == Ok(ToolDef(n, ns[n])) else r == Err(ToolNotFound(n))
  {
    var n := NormalizeName(raw);
    FindFrameFirstMatch(frames, n, None);
    forall i | 0 <= i < |frames| && FrameAnswer(frames[i], n, None).Some?
               && (forall j :: 0 <= j < i ==> FrameAnswer(frames[j], n, None).None?)
      ensures FindFrame(frames, n, None) == Ok(FrameAnswer(frames[i], n, None).value)
    {
      var r := FindFrame(frames, n, None);
      assert r.Ok?;
      var i' :| 0 <= i' < |frames| && FrameAnswer(frames[i'], n, None) == Some(r.value)
                && forall j :: 0 <= j < i' ==> FrameAnswer(frames[j], n, None).None?;
      assert i' == i;
    }
  }

  // ---------------------------------------------------------------------
  // The tool list and its invariant

  /** `_check_tool_exists`: some entry carries the name. */
  predicate HasName(tools: seq<ToolDef>, name: string)
  {
    exists i :: 0 <= i < |tools| && tools[i].name == name
  }

  /** No two entries share a name. */
  ghost predicate UniqueNames(tools: seq<ToolDef>)
  {
    forall i, j :: 0 <= i < j < |tools| ==> tools[i].name != tools[j].name
  }

  /** What every ToolSet keeps: names pairwise distinct, every entry bound to
      a truthy value. */
  ghost predicate ValidTools(tools: seq<ToolDef>)
  {
    UniqueNames(tools) && forall i :: 0 <= i < |tools| ==> Truthy(tools[i].fn)
  }

  /** Index of the first entry with that name: the generator `next(...)` of
      `get` and `remove`. */
  function FirstNamed(tools: seq<ToolDef>, name: string): (r: Option<nat>)
    ensures r.Some? ==> r.value < |tools| && tools[r.value].name == name
    ensures r.Some? ==> forall j :: 0 <= j < r.value ==> tools[j].name != name
    ensures r.None? <==> !HasName(tools, name)
  {
    if tools == [] then None
    else if tools[0].name == name then Some(0)
    else match FirstNamed(tools[1..], name)
      case None =>
        assert forall j :: 1 <= j < |tools| ==> tools[j] == tools[1..][j - 1];
        None
      case Some(i) => Some(i + 1)
  }

  /** One `add` of a callable (by its `__name__`) or a string, AS WRITTEN:
      the duplicate check looks at the name as given, while the entry that is
      appended carries the normalised name. */
  function InsertAsWritten(tools: seq<ToolDef>, raw: string, frames: seq<Frame>): (r: Result<seq<ToolDef>>)
    ensures HasName(tools, raw) ==> r == Err(ToolExists(raw))
    ensures r.Ok? ==> MakeToolDef(raw, frames).Ok? && r.value == tools + [MakeToolDef(raw, frames).value]
    ensures !HasName(tools, raw) ==> (r.Ok? <==> MakeToolDef(raw, frames).Ok?)
  {
    if HasName(tools, raw) then Err(ToolExists(raw))
    else match MakeToolDef(raw, frames)
      case Err(e) => Err(e)
      case Ok(t) => Ok(tools + [t])
  }

  /** The as-written check lets a second entry named "foo" in: adding
      "functions.foo" to a set that holds "foo" appends another "foo". */
  lemma AsWrittenInsertBreaksUniqueness()
    ensures var f := Callable("foo", 1);
            var tools := [ToolDef("foo", f)];
            var frames := [Frame(map[], map["foo" := f])];
            && UniqueNames(tools)
            && InsertAsWritten(tools, "functions.foo", frames) == Ok(tools + [ToolDef("foo", f)])
            && !UniqueNames(tools + [ToolDef("foo", f)])
  {
    var f := Callable("foo", 1);
    var tools := [ToolDef("foo", f)];
    var frames := [Frame(map[], map["foo" := f])];
    var raw := "functions.foo";
    assert OccursAt(raw, FunctionsPrefix, 0);
    assert IndexOf(raw, FunctionsPrefix) == Some(0);
    assert raw[|FunctionsPrefix|..] == "foo";
    assert !Contains("foo", FunctionsPrefix);
    assert NormalizeName(raw) == "foo";
    assert !HasName(tools, raw);
    assert FrameAnswer(frames[0], "foo", None) == Some(map["foo" := f]);
    assert FindFrame(frames, "foo", None) == Ok(map["foo" := f]);
    assert MakeToolDef(raw, frames) == Ok(ToolDef("foo", f));
    var after := tools + [ToolDef("foo", f)];
    assert after[0].name == after[1].name;
  }

  /** One `add` of a callable or a string, with the duplicate check on the
      name the entry will carry. A name already present raises "Tool X already
      exists in ToolSet" before any resolution; otherwise exactly one entry is
      appended at the end, or the resolution error is raised. */
  function Insert(tools: seq<ToolDef>, raw: string, frames: seq<Frame>): (r: Result<seq<ToolDef>>)
    ensures HasName(tools, NormalizeName(raw)) ==> r == Err(ToolExists(raw))
    ensures r.Ok? ==> MakeToolDef(raw, frames).Ok? && r.value == tools + [MakeToolDef(raw, frames).value]
    ensures !HasName(tools, NormalizeName(raw)) ==>
              (r.Ok? <==> MakeToolDef(raw, frames).Ok?)
              && (r.Err? ==> r.error == MakeToolDef(raw, frames).error)
  {
    if HasName(tools, NormalizeName(raw)) then Err(ToolExists(raw))
    else
      var d := MakeToolDef(raw, frames);
      if d.Ok? then Ok(tools + [d.value]) else Err(d.error)
  }

  // ---------------------------------------------------------------------
  // What `add` accepts, and what a whole `add` does

  /** The argument of `add`: a callable (known by its `__name__`), a string,
      a list, a dict (its entries in insertion order), or anything else. */
  datatype ToolInput =
    | FnInput(fnName: string)
    | NameInput(name: string)
    | ListInput(items: seq<ToolInput>)
    | DictInput(entries: seq<DictEntry>)
    | OtherInput(typeName: string, truthy: bool)

  datatype DictEntry = DictEntry(key: string, value: ToolInput)

  /** Python truthiness of an `add` argument (`if tools:` in `__init__`). */
  predicate InputTruthy(t: ToolInput)
  {
    match t
    case FnInput(_) => true
    case NameInput(s) => s != ""
    case ListInput(xs) => xs != []
    case DictInput(es) => es != []
    case OtherInput(_, b) => b
  }

  /** The entries after an `add`, and the exception it raised, if any. Raising
      part-way through keeps what was added before. */
  datatype Outcome = Outcome(tools: seq<ToolDef>, error: Option<Error>)

  function AddSpec(tools: seq<ToolDef>, t: ToolInput, frames: seq<Frame>): Outcome
    decreases t
  {
    match t
    case FnInput(n) => InsertOutcome(tools, n, frames)
    case NameInput(n) => InsertOutcome(tools, n, frames)
    case ListInput(xs) => AddSeq(tools, xs, frames)
    case DictInput(es) => AddEntries(tools, es, frames)
    case OtherInput(ty, _) => Outcome(tools, Some(InvalidTool(ty)))
  }

  function InsertOutcome(tools: seq<ToolDef>, raw: string, frames: seq<Frame>): Outcome
  {
    match Insert(tools, raw, frames)
    case Ok(ts) => Outcome(ts, None)
    case Err(e) => Outcome(tools, Some(e))
  }

  /** `for t in tool: self.add(t)` on a list. */
  function AddSeq(tools: seq<ToolDef>, xs: seq<ToolInput>, frames: seq<Frame>): Outcome
    decreases xs
  {
    if xs == [] then Outcome(tools, None)
    else
      var o := AddSpec(tools, xs[0], frames);
      if o.error.Some? then o else AddSeq(o.tools, xs[1..], frames)
  }

  /** `for t in tool.values(): self.add(t)` on a dict. */
  function AddEntries(tools: seq<ToolDef>, es: seq<DictEntry>, frames: seq<Frame>): Outcome
    decreases es
  {
    if es == [] then Outcome(tools, None)
    else
      var o := AddSpec(tools, es[0].value, frames);
      if o.error.Some? then o else AddEntries(o.tools, es[1..], frames)
  }

  function Values(es: seq<DictEntry>): (vs: seq<ToolInput>)
    ensures |vs| == |es| && forall i :: 0 <= i < |es| ==> vs[i] == es[i].value
  {
    if es == [] then [] else [es[0].value] + Values(es[1..])
  }

  /** Adding a dict adds its values, in order; its keys play no part. */
  lemma {:induction false} AddEntriesIsAddValues(tools: seq<ToolDef>, es: seq<DictEntry>, frames: seq<Frame>)
    ensures AddEntries(tools, es, frames) == AddSeq(tools, Values(es), frames)
    decreases es
  {
    if es != [] {
      var o := AddSpec(tools, es[0].value, frames);
      assert Values(es)[1..] == Values(es[1..]);
      if o.error.None? {
        AddEntriesIsAddValues(o.tools, es[1..], frames);
      }
    }
  }

  /** Adding a list adds its elements left to right: adding `xs + ys` is
      adding `xs`, then, unless that raised, adding `ys`. */
  lemma {:induction false} AddSeqConcat(tools: seq<ToolDef>, xs: seq<ToolInput>, ys: seq<ToolInput>, frames: seq<Frame>)
    ensures AddSeq(tools, xs + ys, frames) ==
              var o := AddSeq(tools, xs, frames);
              if o.error.Some? then o else AddSeq(o.tools, ys, frames)
    decreases xs
  {
    if xs == [] {
      assert xs + ys == ys;
    } else {
      assert (xs + ys)[0] == xs[0] && (xs + ys)[1..] == xs[1..] + ys;
      var o := AddSpec(tools, xs[0], frames);
      if o.error.None? {
        AddSeqConcat(o.tools, xs[1..], ys, frames);
      }
    }
  }

  /** Every `add` keeps what was there as a prefix, raising or not. */
  lemma {:induction false} AddSpecExtends(tools: seq<ToolDef>, t: ToolInput, frames: seq<Frame>)
    ensures var o := AddSpec(tools, t, frames); |tools| <= |o.tools| && o.tools[..|tools|] == tools
    decreases t, 1
  {
    match t
    case ListInput(xs) => AddSeqExtends(tools, xs, frames);
    case DictInput(es) => AddEntriesExtends(tools, es, frames);
    case _ =>
  }

  lemma {:induction false} AddSeqExtends(tools: seq<ToolDef>, xs: seq<ToolInput>, frames: seq<Frame>)
    ensures var o := AddSeq(tools, xs, frames); |tools| <= |o.tools| && o.tools[..|tools|] == tools
    decreases xs
  {
    if xs != [] {
      AddSpecExtends(tools, xs[0], frames);
      var o := AddSpec(tools, xs[0], frames);
      if o.error.None? {
        AddSeqExtends(o.tools, xs[1..], frames);
        var p := AddSeq(o.tools, xs[1..], frames);
        assert p.tools[..|tools|] == p.tools[..|o.tools|][..|tools|];
      }
    }
  }

  lemma {:induction false} AddEntriesExtends(tools: seq<ToolDef>, es: seq<DictEntry>, frames: seq<Frame>)
    ensures var o := AddEntries(tools, es, frames); |tools| <= |o.tools| && o.tools[..|tools|] == tools
    decreases es
  {
    if es != [] {
      AddSpecExtends(tools, es[0].value, frames);
      var o := AddSpec(tools, es[0].value, frames);
      if o.error.None? {
        AddEntriesExtends(o.tools, es[1..], frames);
        var p := AddEntries(o.tools, es[1..], frames);
        assert p.tools[..|tools|] == p.tools[..|o.tools|][..|tools|];
      }
    }
  }

  /** One insertion keeps the invariant. */
  lemma InsertKeepsValid(tools: seq<ToolDef>, raw: string, frames: seq<Frame>)
    requires ValidTools(tools)
    ensures Insert(tools, raw, frames).Ok? ==> ValidTools(Insert(tools, raw, frames).value)
  {
    var r := Insert(tools, raw, frames);
    if r.Ok? {
      var t := MakeToolDef(raw, frames).value;
      assert r.value == tools + [t];
      forall i | 0 <= i < |tools| ensures tools[i].name != t.name {
        assert !HasName(tools, t.name);
      }
    }
  }

  /** The invariant holds after every `add`, whatever the argument and
      whether or not it raised. */
  lemma {:induction false} AddSpecKeepsValid(tools: seq<ToolDef>, t: ToolInput, frames: seq<Frame>)
    requires ValidTools(tools)
    ensures ValidTools(AddSpec(tools, t, frames).tools)
    decreases t, 1
  {
    match t
    case FnInput(n) => InsertKeepsValid(tools, n, frames);
    case NameInput(n) => InsertKeepsValid(tools, n, frames);
    case ListInput(xs) => AddSeqKeepsValid(tools, xs, frames);
    case DictInput(es) => AddEntriesKeepsValid(tools, es, frames);
    case OtherInput(_, _) =>
  }

  lemma {:induction false} AddSeqKeepsValid(tools: seq<ToolDef>, xs: seq<ToolInput>, frames: seq<Frame>)
    requires ValidTools(tools)
    ensures ValidTools(AddSeq(tools, xs, frames).tools)
    decreases xs
  {
    if xs != [] {
      AddSpecKeepsValid(tools, xs[0], frames);
      var o := AddSpec(tools, xs[0], frames);
      if o.error.None? {
        AddSeqKeepsValid(o.tools, xs[1..], frames);
      }
    }
  }

  lemma {:induction false} AddEntriesKeepsValid(tools: seq<ToolDef>, es: seq<DictEntry>, frames: seq<Frame>)
    requires ValidTools(tools)
    ensures ValidTools(AddEntries(tools, es, frames).tools)
    decreases es
  {
    if es != [] {
      AddSpecKeepsValid(tools, es[0].value, frames);
      var o := AddSpec(tools, es[0].value, frames);
      if o.error.None? {
        AddEntriesKeepsValid(o.tools, es[1..], frames);
      }
    }
  }

  /** A name that is already present is refused with "Tool X already exists
      in ToolSet", and the entries stay as they were. */
  lemma AddDuplicateRaises(tools: seq<ToolDef>, raw: string, frames: seq<Frame>)
    requires HasName(tools, NormalizeName(raw))
    ensures AddSpec(tools, NameInput(raw), frames) == Outcome(tools, Some(ToolExists(raw)))
    ensures AddSpec(tools, FnInput(raw), frames) == Outcome(tools, Some(ToolExists(raw)))
    ensures Message(ToolExists(raw)) == "Tool " + raw + " already exists in ToolSet"
  {
  }

  /** A list holding the same name twice raises on the second occurrence,
      after the first has been kept. */
  lemma {:induction false} AddSameNameTwice(tools: seq<ToolDef>, raw: string, frames: seq<Frame>)
    requires ValidTools(tools) && !HasName(tools, NormalizeName(raw)) && MakeToolDef(raw, frames).Ok?
    ensures AddSpec(tools, ListInput([FnInput(raw), FnInput(raw)]), frames)
            == Outcome(tools + [MakeToolDef(raw, frames).value], Some(ToolExists(raw)))
  {
    var t := MakeToolDef(raw, frames).value;
    var once := tools + [t];
    var xs := [FnInput(raw), FnInput(raw)];
    assert Insert(tools, raw, frames) == Ok(once);
    assert AddSpec(tools, xs[0], frames) == Outcome(once, None);
    assert once[|tools|].name == NormalizeName(raw);
    assert HasName(once, NormalizeName(raw));
    assert AddSpec(once, FnInput(raw), frames) == Outcome(once, Some(ToolExists(raw)));
    assert xs[1..] == [FnInput(raw)];
    assert AddSeq(once, [FnInput(raw)], frames) == Outcome(once, Some(ToolExists(raw)));
    assert AddSeq(tools, xs, frames) == AddSeq(once, xs[1..], frames);
  }

  // ---------------------------------------------------------------------
  // The class

  class ToolSet {
    var tools: seq<ToolDef>

    ghost predicate Valid()
      reads this
    {
      ValidTools(tools)
    }

    /** `ToolSet()`: an empty set. */
    constructor ()
      ensures tools == [] && Valid()
    {
      tools := [];
    }

    /** `ToolSet(tools)`: a falsy argument gives an empty set; otherwise the
        argument is added, and an exception raised by that `add` leaves no
        ToolSet. */
    static method New(input: ToolInput, frames: seq<Frame>) returns (r: Result<ToolSet>)
      ensures !InputTruthy(input) ==> r.Ok? && fresh(r.value) && r.value.tools == []
      ensures InputTruthy(input) ==>
                var o := AddSpec([], input, frames);
                (o.error.None? ==> r.Ok? && fresh(r.value) && r.value.tools == o.tools)
                && (o.error.Some? ==> r == Err(o.error.value))
      ensures r.Ok? ==> r.value.Valid()
    {
      var ts := new ToolSet();
      if InputTruthy(input) {
        var err := ts.Add(input, frames);
        if err.Some? {
          return Err(err.value);
        }
      }
      return Ok(ts);
    }

    /** `add(tool)`: the entries and the exception are those AddSpec gives. */
    method Add(input: ToolInput, frames: seq<Frame>) returns (err: Option<Error>)
      modifies this
      ensures Outcome(tools, err) == AddSpec(old(tools), input, frames)
      ensures old(Valid()) ==> Valid()
      decreases input
    {
      ghost var before := tools;
      match input {
        case FnInput(n) =>
          err := InsertOne(n, frames);
        case NameInput(n) =>
          err := InsertOne(n, frames);
        case ListInput(xs) =>
          var i := 0;
          err := None;
          while i < |xs| && err.None?
            invariant 0 <= i <= |xs|
            invariant err.None? ==> AddSeq(before, xs, frames) == AddSeq(tools, xs[i..], frames)
            invariant err.Some? ==> AddSeq(before, xs, frames) == Outcome(tools, err)
          {
            assert xs[i..][0] == xs[i] && xs[i..][1..] == xs[i + 1..];
            err := Add(xs[i], frames);
            i := i + 1;
          }
        case DictInput(es) =>
          var i := 0;
          err := None;
          while i < |es| && err.None?
            invariant 0 <= i <= |es|
            invariant err.None? ==> AddEntries(before, es, frames) == AddEntries(tools, es[i..], frames)
            invariant err.Some? ==> AddEntries(before, es, frames) == Outcome(tools, err)
          {
            assert es[i..][0] == es[i] && es[i..][1..] == es[i + 1..];
            err := Add(es[i].value, frames);
            i := i + 1;
          }
        case OtherInput(ty, _) =>
          err := Some(InvalidTool(ty));
      }
      if ValidTools(before) {
        AddSpecKeepsValid(before, input, frames);
      }
    }

    /** Add one callable or string by name. */
    method InsertOne(raw: string, frames: seq<Frame>) returns (err: Option<Error>)
      modifies this
      ensures Outcome(tools, err) == InsertOutcome(old(tools), raw, frames)
    {
      if CheckToolExists(NormalizeName(raw)) {
        return Some(ToolExists(raw));
      }
      match MakeToolDef(raw, frames) {
        case Err(e) =>
          return Some(e);
        case Ok(t) =>
          tools := tools + [t];
          return None;
      }
    }

    /** `remove(name)`: deletes the first entry with that name and returns it;
        for an absent name returns None and changes nothing. */
    method Remove(name: string) returns (removed: Option<ToolDef>)
      modifies this
      ensures match FirstNamed(old(tools), name)
              case None => removed.None? && tools == old(tools)
              case Some(i) => removed == Some(old(tools)[i]) && tools == old(tools)[..i] + old(tools)[i + 1..]
      ensures old(Valid()) ==> Valid() && !CheckToolExists(name)
    {
      match FirstNamed(tools, name) {
        case None =>
          removed := None;
        case Some(i) =>
          ghost var before := tools;
          removed := Some(tools[i]);
          tools := tools[..i] + tools[i + 1..];
          assert forall j :: 0 <= j < |tools| ==> tools[j] == (if j < i then before[j] else before[j + 1]);
          if ValidTools(before) {
            forall j | 0 <= j < |tools| ensures tools[j].name != name {
              if j >= i { assert before[j + 1].name != before[i].name; }
            }
          }
      }
    }

    /** `get(name, default)`: the function of the first entry with that
        name, or `default`. */
    function Get(name: string, default: Value): (v: Value)
      reads this
      ensures HasName(tools, name) ==> v == tools[FirstNamed(tools, name).value].fn
      ensures !HasName(tools, name) ==> v == default
    {
      match FirstNamed(tools, name)
      case None => default
      case Some(i) => tools[i].fn
    }

    /** `_check_tool_exists(name)`. */
    function CheckToolExists(name: string): (b: bool)
      reads this
      ensures b <==> name in All()
    {
      FirstNamed(tools, name).Some?
    }

    /** `len(ts)`. */
    function Len(): (n: nat)
      reads this
      ensures n == |All()|
    {
      |tools|
    }

    /** `all()`: the names, in insertion order. */
    function All(): (names: seq<string>)
      reads this
      ensures |names| == |tools| && forall i :: 0 <= i < |tools| ==> names[i] == tools[i].name
      ensures forall n :: n in names <==> HasName(tools, n)
    {
      seq(|tools|, i requires 0 <= i < |tools| reads this => tools[i].name)
    }

    /** `value in ts`: for a string, whether `get(value)` is not None; a
        plain function is compared with the ToolDef entries themselves, which
        never equal it; anything else raises. A ToolDef argument is
        `ContainsTool`. */
    function Contains(v: Value): (r: Result<bool>)
      reads this
      ensures v.Str? ==> r == Ok(Get(v.s, NoneValue) != NoneValue)
      ensures v.Callable? ==> r == Ok(false)
      ensures (v.NoneValue? || v.Other?) ==> r == Err(InvalidMember(TypeName(v)))
    {
      match v
      case Str(s) => Ok(Get(s, NoneValue) != NoneValue)
      case Callable(_, _) => Ok(false)
      case _ => Err(InvalidMember(TypeName(v)))
    }

    /** `tool_def in ts`: a ToolDef is itself callable, so it is compared
        with the entries by model equality, which looks at the declared
        field `name` only; the resolved function is an undeclared attribute
        and plays no part. */
    function ContainsTool(d: ToolDef): (b: bool)
      reads this
      ensures b <==> exists i :: 0 <= i < |tools| && tools[i].name == d.name
      ensures b <==> d.name in All()
    {
      HasName(tools, d.name)
    }

    /** `ts[i]`: the function of the entry at a Python index. */
    function At(i: int): (r: Result<Value>)
      reads this
      ensures r.Ok? <==> -(|tools| as int) <= i < |tools|
      ensures 0 <= i < |tools| ==> r == Ok(tools[i].fn)
      ensures -(|tools| as int) <= i < 0 ==> r == Ok(tools[|tools| + i].fn)
    {
      match PyIndex(|tools|, i)
      case None => Err(IndexOutOfRange)
      case Some(k) => Ok(tools[k].fn)
    }
  }

  /** On a valid set, `name in ts` holds exactly when the name is listed by
      `all()`, and then `get` returns that entry's function. */
  lemma ContainsIffListed(ts: ToolSet, name: string)
    requires ts.Valid()
    ensures ts.Contains(Str(name)) == Ok(name in ts.All())
    ensures name in ts.All() ==> exists i :: 0 <= i < |ts.tools| && ts.tools[i].name == name
                                             && ts.Get(name, NoneValue) == ts.tools[i].fn
  {
    if HasName(ts.tools, name) {
      var i := FirstNamed(ts.tools, name).value;
      assert Truthy(ts.tools[i].fn);
    }
  }

  /** Adding a fresh name that resolves grows the set by one entry, listed
      last, whose function `get` then returns. */
  lemma AddFreshName(tools: seq<ToolDef>, raw: string, frames: seq<Frame>)
    requires ValidTools(tools) && !HasName(tools, NormalizeName(raw)) && MakeToolDef(raw, frames).Ok?
    ensures var o := AddSpec(tools, NameInput(raw), frames);
            o.error.None? && |o.tools| == |tools| + 1 && o.tools[..|tools|] == tools
            && o.tools[|tools|].name == NormalizeName(raw)
            && FirstNamed(o.tools, NormalizeName(raw)) == Some(|tools|)
  {
    var o := AddSpec(tools, NameInput(raw), frames);
    var n := NormalizeName(raw);
    assert o.tools == tools + [MakeToolDef(raw, frames).value];
    assert forall j :: 0 <= j < |tools| ==> o.tools[j] == tools[j];
    assert forall j :: 0 <= j < |tools| ==> tools[j].name != n;
  }
}
