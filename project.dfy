/** project.py: the validated Project object and its two projections, the
    summary view and the dictionary form. */
module Projects {
  import opened Wrappers
  import opened Text
  import opened Validation
  import opened Tasks
  import Config

  /** What `Project.view` returns: the scalar fields, the number of tasks and their ids. */
  datatype ProjectView = ProjectView(
    id: string, name: string, description: string, createdAt: string,
    taskCount: int, tasks: seq<string>)

  /** What `Project.to_dict` returns: the scalar fields and each task's dictionary. */
  datatype ProjectDict = ProjectDict(
    id: string, name: string, description: string, createdAt: string,
    tasks: seq<map<string, string>>)

  /** The ids of `ts`, in order. */
  function TaskIds(ts: seq<Task>): (r: seq<string>)
    reads ts
    ensures |r| == |ts|
    ensures forall i :: 0 <= i < |ts| ==> r[i] == ts[i].id
  {
    if ts == [] then [] else [ts[0].id] + TaskIds(ts[1..])
  }

  /** The dictionary form of each task of `ts`, in order. */
  function TaskDicts(ts: seq<Task>): (r: seq<map<string, string>>)
    reads ts
    ensures |r| == |ts|
    ensures forall i :: 0 <= i < |ts| ==> r[i] == ts[i].ToDict()
  {
    if ts == [] then [] else [ts[0].ToDict()] + TaskDicts(ts[1..])
  }

  /** A project. Its scalar fields are fixed at construction; `tasks` is the
      ordered list of tasks it owns. */
  class Project {
    const name: string
    const description: string
    const createdAt: string
    const id: string
    var tasks: seq<Task>

    /** What a successful construction guarantees about the name and description. */
    predicate Valid() {
      ValidFields(name, description, Config.ProjectMaxNameLen, Config.ProjectMaxDescriptionLen)
    }

    /** The field assignments that end a successful construction (project.py:77-81). */
    constructor (name: string, description: string, createdAt: string, id: string)
      ensures this.name == name && this.description == description
      ensures this.createdAt == createdAt && this.id == id && tasks == []
    {
      this.name := name;
      this.description := description;
      this.tasks := [];
      this.createdAt := createdAt;
      this.id := id;
    }

    /** `Project(name, description)`: normalise and validate the arguments, then
        build a project without tasks. `createdAt` and `id` stand for the clock
        reading and the random identifier the constructor takes. */
    static method New(name: Option<string>, description: Option<string>, createdAt: string, id: string)
      returns (r: Result<Project, Violation>)
      ensures r.Err? <==> CheckFields(name, description, Config.ProjectMaxNameLen, Config.ProjectMaxDescriptionLen).Err?
      ensures r.Err? ==> r.error == CheckFields(name, description, Config.ProjectMaxNameLen, Config.ProjectMaxDescriptionLen).error
      ensures r.Ok? ==> fresh(r.value) && r.value.Valid() && r.value.tasks == []
      ensures r.Ok? ==> (r.value.name, r.value.description) == CheckFields(name, description, Config.ProjectMaxNameLen, Config.ProjectMaxDescriptionLen).value
      ensures r.Ok? ==> r.value.createdAt == createdAt && r.value.id == id
    {
      var n := if name.Some? then name.value else "";
      n := Strip(n);
      var d := if description.Some? then description.value else "";
      if |n| == 0 {
        return Err(NameRequired);
      }
      if |n| > Config.ProjectMaxNameLen {
        return Err(NameTooLong);
      }
      if |d| > Config.ProjectMaxDescriptionLen {
        return Err(DescriptionTooLong);
      }
      var p := new Project(n, d, createdAt, id);
      return Ok(p);
    }

    /** `view`: the scalar fields unchanged, the task count, and the task ids in list order. */
    function View(): (v: ProjectView)
      reads this, tasks
      ensures v.id == id && v.name == name && v.description == description && v.createdAt == createdAt
      ensures v.taskCount == |tasks| == |v.tasks|
      ensures forall i :: 0 <= i < |tasks| ==> v.tasks[i] == tasks[i].id
    {
      ProjectView(id, name, description, createdAt, |tasks|, TaskIds(tasks))
    }

    /** `to_dict`: the scalar fields unchanged and one dictionary per task, in list order. */
    function ToDict(): (d: ProjectDict)
      reads this, tasks
      ensures d.id == id && d.name == name && d.description == description && d.createdAt == createdAt
      ensures |d.tasks| == |tasks|
      ensures forall i :: 0 <= i < |tasks| ==> d.tasks[i] == tasks[i].ToDict()
    {
      ProjectDict(id, name, description, createdAt, TaskDicts(tasks))
    }
  }

  /** The two projections agree: the dictionary form lists as many tasks as
      the view counts, and the i-th task dictionary carries the i-th id of the view. */
  lemma ViewAgreesWithToDict(p: Project)
    ensures |p.ToDict().tasks| == p.View().taskCount
    ensures forall i :: 0 <= i < |p.tasks| ==> p.ToDict().tasks[i]["id"] == p.View().tasks[i]
  {
  }

  /** The view of a validly constructed project shows a name that is stripped,
      non-empty and at most the project name limit, and a description within its limit. */
  lemma ViewOfValidProject(p: Project)
    requires p.Valid()
    ensures Trimmed(p.View().name) && 1 <= |p.View().name| <= Config.ProjectMaxNameLen
    ensures |p.View().description| <= Config.ProjectMaxDescriptionLen
  {
  }
}
