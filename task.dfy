/** task.py: the task state enum and its parser, the validated Task object,
    its state setter and its dictionary form with the round trip back. */
module Tasks {
  import opened Wrappers
  import opened Text
  import opened Validation
  import Config

  /** `TaskState`, a closed three-valued string enum. */
  datatype TaskState = Todo | Doing | Done {
    /** The member's `.value`: its canonical upper-case spelling. */
    function Value(): string {
      match this
      case Todo => "TODO"
      case Doing => "DOING"
      case Done => "DONE"
    }
  }

  /** The members in declaration order, the order in which iterating the enum visits them. */
  const AllStates: seq<TaskState> := [Todo, Doing, Done]

  /** The errors the task operations raise. */
  datatype TaskError =
    | Invalid(violation: Violation)       // TaskNameRequiredError, TaskNameTooLongError, TaskDescriptionTooLongError
    | InvalidState(token: string)         // InvalidTaskStateError raised by the parser, naming the normalised token
    | InvalidStateType(typeName: string)  // InvalidTaskStateError raised by the setter for an argument of another type
    | MissingName                         // the KeyError of a dictionary without a "name" entry

  /** The token the parser compares: stripped, then upper-cased. */
  function Canonical(s: string): string {
    Upper(Strip(s))
  }

  /** What `TaskState.from_str` returns or raises: the state whose value is the
      canonical token, or `InvalidState` when no state has that value. */
  function ParseState(s: string): (r: Result<TaskState, TaskError>)
    ensures r.Ok? ==> r.value.Value() == Canonical(s)
    ensures r.Err? ==> r.error == InvalidState(Canonical(s))
    ensures r.Err? <==> forall st: TaskState :: st.Value() != Canonical(s)
  {
    var token := Canonical(s);
    if token == "TODO" then Ok(Todo)
    else if token == "DOING" then Ok(Doing)
    else if token == "DONE" then Ok(Done)
    else Err(InvalidState(token))
  }

  /** `TaskState.from_str`: normalise the token, then scan the members in
      order and return the first whose value matches. */
  method FromStr(s: string) returns (r: Result<TaskState, TaskError>)
    ensures r == ParseState(s)
  {
    var token := Canonical(s);
    var i := 0;
    while i < |AllStates|
      invariant 0 <= i <= |AllStates|
      invariant forall j :: 0 <= j < i ==> AllStates[j].Value() != token
    {
      if AllStates[i].Value() == token {
        return Ok(AllStates[i]);
      }
      i := i + 1;
    }
    assert AllStates[0].Value() != token && AllStates[1].Value() != token && AllStates[2].Value() != token;
    return Err(InvalidState(token));
  }

  lemma CanonicalOfValue(v: string)
    requires v != [] && Trimmed(v)
    requires forall i :: 0 <= i < |v| ==> !('a' <= v[i] <= 'z')
    ensures Canonical(v) == v
  {
    StripTrimmed(v);
    UpperOfNoLower(v);
  }

  /** Parsing a state's own value gives that state back. */
  lemma ParseOwnValue(st: TaskState)
    ensures ParseState(st.Value()) == Ok(st)
  {
    CanonicalOfValue(st.Value());
  }

  /** The parser accepts a state's name in any mix of letter cases and with
      any surrounding whitespace. */
  lemma ParseAnyCase(st: TaskState, pre: string, w: string, post: string)
    requires Blank(pre) && Blank(post) && Upper(w) == st.Value()
    ensures ParseState(pre + w + post) == Ok(st)
  {
    UpperAt(w, 0);
    UpperAt(w, |w| - 1);
    UpperKeepsSpace(w[0]);
    UpperKeepsSpace(w[|w| - 1]);
    StripPadded(pre, w, post);
  }

  /** The argument of `set_state`: a string, an enum member, or a value of some other type. */
  datatype NewState = Token(text: string) | Member(state: TaskState) | OtherType(typeName: string)

  /** The portable form of a task's fields. */
  datatype TaskRecord = TaskRecord(name: string, description: string, state: TaskState, createdAt: string, id: string)

  /** The fields of a task that the constructor accepted. */
  predicate ValidRecord(t: TaskRecord) {
    ValidFields(t.name, t.description, Config.TaskMaxNameLen, Config.TaskMaxDescriptionLen)
  }

  /** `Task.to_dict`: every field under its own key, the state as its string value. */
  function Encode(t: TaskRecord): map<string, string> {
    map["name" := t.name, "description" := t.description, "state" := t.state.Value(),
        "created_at" := t.createdAt, "id" := t.id]
  }

  /** `data.get(key, default)`. */
  function Lookup(data: map<string, string>, key: string, default: string): string {
    if key in data then data[key] else default
  }

  /** What `Task.from_dict` builds or raises. `createdAt` and `id` are the
      values the constructor would generate; entries of `data` override them. */
  function Decode(data: map<string, string>, createdAt: string, id: string): (r: Result<TaskRecord, TaskError>)
    ensures "name" !in data ==> r == Err(MissingName)
    ensures r.Ok? ==> ValidRecord(r.value) && r.value.name == Strip(data["name"])
    ensures r.Ok? ==> r.value.description == Lookup(data, "description", "")
    ensures r.Ok? ==> r.value.state.Value() == Canonical(Lookup(data, "state", "TODO"))
    ensures r.Ok? ==> r.value.createdAt == Lookup(data, "created_at", createdAt) && r.value.id == Lookup(data, "id", id)
    ensures "name" in data ==>
      var c := CheckFields(Some(data["name"]), Some(Lookup(data, "description", "")),
                           Config.TaskMaxNameLen, Config.TaskMaxDescriptionLen);
      var p := ParseState(Lookup(data, "state", "TODO"));
      (r.Ok? <==> c.Ok? && p.Ok?)
      && (c.Err? ==> r == Err(Invalid(c.error)))
      && (c.Ok? && p.Err? ==> r == Err(p.error))
  {
    if "name" !in data then Err(MissingName)
    else
      match CheckFields(Some(data["name"]), Some(Lookup(data, "description", "")),
                        Config.TaskMaxNameLen, Config.TaskMaxDescriptionLen)
      case Err(v) => Err(Invalid(v))
      case Ok(fields) =>
        match ParseState(Lookup(data, "state", "TODO"))
        case Err(e) => Err(e)
        case Ok(st) =>
          Ok(TaskRecord(fields.0, fields.1, st, Lookup(data, "created_at", createdAt), Lookup(data, "id", id)))
  }

  /** Decoding the dictionary form of a valid task gives the same task back,
      whatever identity and timestamp a fresh construction would have produced. */
  lemma DecodeEncode(t: TaskRecord, createdAt: string, id: string)
    requires ValidRecord(t)
    ensures Decode(Encode(t), createdAt, id) == Ok(t)
  {
    var d := Encode(t);
    assert "name" in d && d["name"] == t.name;
    assert Lookup(d, "description", "") == t.description;
    assert Lookup(d, "state", "TODO") == t.state.Value();
    assert Lookup(d, "created_at", createdAt) == t.createdAt;
    assert Lookup(d, "id", id) == t.id;
    CheckValidFields(t.name, t.description, Config.TaskMaxNameLen, Config.TaskMaxDescriptionLen);
    ParseOwnValue(t.state);
  }

  /** A dictionary without a "state" entry decodes to a task in state TODO. */
  lemma DecodeDefaultsToTodo(data: map<string, string>, createdAt: string, id: string)
    requires "state" !in data
    ensures Decode(data, createdAt, id).Ok? ==> Decode(data, createdAt, id).value.state == Todo
  {
    ParseOwnValue(Todo);
  }

  /** Decoding re-runs the constructor's validation: a blank name is rejected. */
  lemma DecodeRejectsBlankName(data: map<string, string>, createdAt: string, id: string)
    requires "name" in data && Blank(data["name"])
    ensures Decode(data, createdAt, id) == Err(Invalid(NameRequired))
  {
  }

  /** A task. The name and description are fixed at construction; the state,
      and when built from a dictionary also the id and timestamp, are reassigned. */
  class Task {
    const name: string
    const description: string
    var state: TaskState
    var createdAt: string
    var id: string

    /** What a successful construction guarantees about the name and description. */
    predicate Valid() {
      ValidFields(name, description, Config.TaskMaxNameLen, Config.TaskMaxDescriptionLen)
    }

    /** The field assignments that end a successful construction (task.py:74-78). */
    constructor (name: string, description: string, createdAt: string, id: string)
      ensures this.name == name && this.description == description
      ensures state == Todo && this.createdAt == createdAt && this.id == id
    {
      this.name := name;
      this.description := description;
      this.state := Todo;
      this.createdAt := createdAt;
      this.id := id;
    }

    /** `Task(name, description)`: normalise and validate the arguments, then
        build a task in state TODO. `createdAt` and `id` stand for the clock
        reading and the random identifier the constructor takes. */
    static method New(name: Option<string>, description: Option<string>, createdAt: string, id: string)
      returns (r: Result<Task, TaskError>)
      ensures r.Err? <==> CheckFields(name, description, Config.TaskMaxNameLen, Config.TaskMaxDescriptionLen).Err?
      ensures r.Err? ==> r.error == Invalid(CheckFields(name, description, Config.TaskMaxNameLen, Config.TaskMaxDescriptionLen).error)
      ensures r.Ok? ==> fresh(r.value) && r.value.Valid() && r.value.state == Todo
      ensures r.Ok? ==> (r.value.name, r.value.description) == CheckFields(name, description, Config.TaskMaxNameLen, Config.TaskMaxDescriptionLen).value
      ensures r.Ok? ==> r.value.createdAt == createdAt && r.value.id == id
    {
      var n := if name.Some? then name.value else "";
      n := Strip(n);
      var d := if description.Some? then description.value else "";
      if |n| == 0 {
        return Err(Invalid(NameRequired));
      }
      if |n| > Config.TaskMaxNameLen {
        return Err(Invalid(NameTooLong));
      }
      if |d| > Config.TaskMaxDescriptionLen {
        return Err(Invalid(DescriptionTooLong));
      }
      var t := new Task(n, d, createdAt, id);
      return Ok(t);
    }

    /** `set_state`: a string is parsed first and the state changes only when
        parsing succeeds; an enum member is set as it is; any other argument is
        rejected. Nothing but the state changes. */
    method SetState(arg: NewState) returns (err: Option<TaskError>)
      modifies this`state
      ensures arg.Token? && ParseState(arg.text).Ok? ==> err == None && state == ParseState(arg.text).value
      ensures arg.Token? && ParseState(arg.text).Err? ==> err == Some(ParseState(arg.text).error) && state == old(state)
      ensures arg.Member? ==> err == None && state == arg.state
      ensures arg.OtherType? ==> err == Some(InvalidStateType(arg.typeName)) && state == old(state)
    {
      match arg
      case Token(text) =>
        var parsed := FromStr(text);
        if parsed.Err? {
          return Some(parsed.error);
        }
        state := parsed.value;
        return None;
      case Member(st) =>
        // TaskState subclasses str, so a member takes the string branch and is parsed from its value.
        var parsed := FromStr(st.Value());
        ParseOwnValue(st);
        state := parsed.value;
        return None;
      case OtherType(typeName) =>
        return Some(InvalidStateType(typeName));
    }

    /** The task's fields as a record. */
    function Record(): TaskRecord
      reads this
    {
      TaskRecord(name, description, state, createdAt, id)
    }

    /** `to_dict`: exactly the five fields, with the state as its string value. */
    function ToDict(): (d: map<string, string>)
      reads this
      ensures d.Keys == {"name", "description", "state", "created_at", "id"}
      ensures d["state"] == state.Value() && d["name"] == name && d["id"] == id
      ensures d["description"] == description && d["created_at"] == createdAt
    {
      Encode(Record())
    }

    /** `view`: the same dictionary as `to_dict` (Python dictionaries compare without regard to key order). */
    function View(): (d: map<string, string>)
      reads this
      ensures d == ToDict()
    {
      map["id" := id, "name" := name, "description" := description,
          "state" := state.Value(), "created_at" := createdAt]
    }

    /** `Task.from_dict`: construct from the "name" and "description" entries
        (validating them again), then set the state from the "state" entry
        (TODO when absent), and take the id and timestamp from the dictionary
        when it has them. */
    static method FromDict(data: map<string, string>, createdAt: string, id: string)
      returns (r: Result<Task, TaskError>)
      ensures r.Err? <==> Decode(data, createdAt, id).Err?
      ensures r.Err? ==> r.error == Decode(data, createdAt, id).error
      ensures r.Ok? ==> fresh(r.value) && r.value.Valid() && r.value.Record() == Decode(data, createdAt, id).value
    {
      if "name" !in data {
        return Err(MissingName);
      }
      var made := New(Some(data["name"]), Some(Lookup(data, "description", "")), createdAt, id);
      if made.Err? {
        return Err(made.error);
      }
      var task := made.value;
      var parsed := FromStr(Lookup(data, "state", Todo.Value()));
      if parsed.Err? {
        return Err(parsed.error);
      }
      task.state := parsed.value;
      task.id := Lookup(data, "id", task.id);
      task.createdAt := Lookup(data, "created_at", task.createdAt);
      return Ok(task);
    }
  }

  /** `Task.from_dict(t.to_dict())` reproduces every field of a validly constructed task. */
  lemma ToDictRoundTrip(t: Task, createdAt: string, id: string)
    requires t.Valid()
    ensures Decode(t.ToDict(), createdAt, id) == Ok(t.Record())
  {
    DecodeEncode(t.Record(), createdAt, id);
  }
}
