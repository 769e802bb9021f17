# To-do manager domain layer, in Dafny

This project models the domain layer of a small in-memory to-do manager. It covers four parts:

- **Tasks** (`task.py`). The three-valued `TaskState` enum and its forgiving string parser. The validated `Task` object, which always starts in `TODO`. Its state setter. Its dictionary form and the way back from a dictionary.
- **Projects** (`project.py`). The validated `Project` object, which starts with no tasks, and its two projections: the summary view and the dictionary form.
- **The store** (`memory.py`). An ordered list of projects that is appended to, copied out, searched by id and shrunk by id.
- **The name check** (`utils.py`). "Is this project name already used by another project?", with an optional id to leave out.

Modules follow the source files: `Tasks` (task.dfy), `Projects` (project.dfy), `Memory` (memory.dfy) and `Utils` (utils.dfy). Four small modules support them:

- `Text` (text.dfy) models Python's `str.strip()` and `str.upper()`.
- `Validation` (validation.dfy) holds the name and description checks. The two constructors run exactly the same checks in the same order, only against different limits, so the checks are specified once, as `CheckFields`, over the limits; each constructor's step-by-step body is proved equal to it.
- `Config` (config.dfy) holds the limits, set to the defaults in config.py: 30 for names and 150 for descriptions.
- `Wrappers` (wrappers.dfy) holds `Option` and `Result`.

The model has the source's shape. `Task`, `Project` and `MemoryStore` are classes:

- A constructor that can raise becomes a static `New` method that returns a `Result`. It validates and then allocates.
- `set_state` and `from_dict` update fields in place.
- The store's list is a `seq` field. `add_project` and `remove_project` reassign it.
- `from_str`, `get_project` and `remove_project` are loops with an early return.

The parsing, validation, decoding, search and removal methods are each proved against a pure specification function: `ParseState`, `CheckFields`, `Decode`, `IndexOf` or `RemoveFirst`. The remaining store operations and the name check are specified directly by their new state or result. The properties are proved as lemmas about those functions.

The production code reads the clock (`_now_iso`) and draws a `uuid4`. Here both values are parameters named `createdAt` and `id`, and they are treated as opaque strings.

Two facts about the code are built into the model:

- `TaskState` subclasses `str`. So `set_state` given an enum member takes the `isinstance(new_state, str)` branch and parses the member's value. The `elif isinstance(new_state, TaskState)` branch is never reached. The model follows the code, and `SetState` proves that passing a member still sets exactly that member.
- `description` is never trimmed, only mapped from `None` to `""`. Names are stripped before the empty and length checks, so surrounding whitespace does not count towards the limit.

## Model

| member | source | states |
|---|---|---|
| Text.TrimStartShape | task.py:61 | stripping the front drops exactly a blank prefix and leaves text that does not start with whitespace |
| Text.TrimEndShape | task.py:61 | stripping the end drops exactly a blank suffix and leaves text that does not end with whitespace |
| Text.Strip | task.py:61 | a stripped name is never longer than the input, and when non-empty it neither starts nor ends with whitespace |
| Text.StripPadded | task.py:61 | stripping any whitespace padding around a trimmed non-empty core gives back exactly that core |
| Text.StripEmptyIffBlank | task.py:61-66 | strip yields "" exactly when the input is entirely whitespace, so a whitespace-only name counts as empty |
| Text.StripTrimmed | project.py:64 | a name that is already trimmed is left unchanged by strip |
| Text.StripIdempotent | task.py:118-121 | stripping twice is the same as stripping once, so a name stored by the constructor passes the constructor again unchanged |
| Text.Upper | task.py:33 | upper-casing keeps the length of the token |
| Text.UpperAt | task.py:33 | upper-casing works one character at a time |
| Text.UpperOfNoLower | task.py:26-33 | a token without lower-case letters, such as an enum value, is unchanged by upper-casing |
| Validation.CheckFields | task.py:58-72 | the constructor checks, shared with project.py:60-75: NameRequired exactly when the name is None or blank; NameTooLong exactly when the stripped name is non-empty and over the limit; DescriptionTooLong exactly when the name passed and the description (None read as "") is over its limit; otherwise the stripped name and the untrimmed description, which satisfy the field invariant |
| Validation.AbsentNameRequired | task.py:58-66 | a None name is rejected as NameRequired whatever the description |
| Validation.NameAtLimitAccepted | task.py:68-69 | a name of exactly the maximum length is accepted, even with surrounding whitespace, and is stored stripped |
| Validation.NameOverLimitRejected | project.py:71-72 | a trimmed name one character over the maximum is rejected as NameTooLong whatever the description |
| Validation.NameCheckedFirst | project.py:68-75 | a blank name with a too-long description is reported as NameRequired, because the checks run in a fixed order |
| Validation.CheckValidFields | task.py:118-121 | fields that satisfy the invariant pass validation again unchanged |
| Tasks.ParseState | task.py:31-37 | from_str returns the state whose value equals the stripped, upper-cased token, and raises InvalidState(token) exactly when no state has that value |
| Tasks.FromStr | task.py:31-37 | the loop over the enum members with its early return computes exactly ParseState |
| Tasks.CanonicalOfValue | task.py:26-33 | a trimmed token without lower-case letters is its own normal form |
| Tasks.ParseOwnValue | task.py:26-36 | parsing a state's own value returns that state, for all three states |
| Tasks.ParseAnyCase | task.py:32-36 | any letter case of TODO, DOING or DONE, with any whitespace around it, parses to that state |
| Tasks.Decode | task.py:116-125 | from_dict raises MissingName without a "name" entry; on success the name is the stripped entry, the fields pass validation, the description defaults to "", the state is parsed from the entry (default "TODO"), and the id and timestamp come from the dictionary when present; with a "name" entry it succeeds exactly when the re-run validation and the state parse both succeed, raises the validation error when validation fails, and otherwise raises the state error |
| Tasks.DecodeEncode | task.py:111-125 | decoding the dictionary of any valid task record returns that record, whatever id and timestamp a fresh construction would have produced |
| Tasks.DecodeDefaultsToTodo | task.py:122 | a dictionary without a "state" entry decodes to a task in state TODO |
| Tasks.DecodeRejectsBlankName | task.py:118-121 | from_dict re-runs validation, so a blank "name" entry raises NameRequired |
| Tasks.Task.constructor | task.py:74-78 | the assignments set the given name, description, timestamp and id, and the state TODO |
| Tasks.Task.New | task.py:57-78 | construction fails exactly when CheckFields fails, with that error; on success it gives a fresh task in state TODO whose name and description are the validated ones, with the given timestamp and id |
| Tasks.Task.SetState | task.py:80-88 | a string that parses sets the state to its result; a string that does not parse raises InvalidState and leaves the state unchanged; an enum member is set as it is; another type raises InvalidStateType; no other field changes |
| Tasks.Task.ToDict | task.py:111-114 | to_dict has exactly the five field keys, carries the state as its string value, and maps name, description, created_at and id to the task's own fields |
| Tasks.Task.View | task.py:90-97 | view is the same dictionary as to_dict |
| Tasks.Task.FromDict | task.py:116-125 | the constructor call followed by the state, id and timestamp assignments fails exactly as Decode does, and on success gives a fresh valid task whose fields are Decode's record |
| Tasks.ToDictRoundTrip | task.py:111-125 | from_dict(t.to_dict()) reproduces the name, description, state, id and timestamp of every validly constructed task |
| Projects.TaskIds | project.py:90 | one id per task, in list order |
| Projects.TaskDicts | project.py:128 | one dictionary per task, each that task's to_dict, in list order |
| Projects.Project.constructor | project.py:77-81 | the assignments set the given fields and an empty task list |
| Projects.Project.New | project.py:60-81 | construction fails exactly when CheckFields fails against the project limits, with that error; on success it gives a fresh valid project with no tasks |
| Projects.Project.View | project.py:83-91 | view carries id, name, description and timestamp unchanged, task_count equals the number of tasks, and tasks lists their ids in order |
| Projects.Project.ToDict | project.py:122-129 | to_dict carries id, name, description and timestamp unchanged and one task dictionary per task, in order |
| Projects.ViewOfValidProject | project.py:64-91 | the view of a successfully constructed project shows a stripped, non-empty name of at most 30 characters and a description of at most 150 |
| Projects.ViewAgreesWithToDict | project.py:83-129 | the dictionary form lists as many tasks as the view counts, and the i-th task dictionary's "id" is the view's i-th id |
| Memory.IndexOf | memory.py:15-19 | the first position whose project has the id, or None exactly when no project has it |
| Memory.RemoveAbsent | memory.py:21-26 | removing an id that no project has leaves the list unchanged |
| Memory.RemovePresent | memory.py:21-25 | removing a present id deletes only its first occurrence: the length drops by one, earlier projects stay in place, later ones move up by one, and the multiset loses exactly that project |
| Memory.RemoveLeavesNoMatch | memory.py:15-25 | with unique ids, no project with the removed id remains |
| Memory.AppendedIsFound | memory.py:9-19 | a project appended with a new id is found, at the last position |
| Memory.MemoryStore.constructor | memory.py:6-7 | a new store holds no projects |
| Memory.MemoryStore.AddProject | memory.py:9-10 | the project is appended at the end and the earlier projects keep their order |
| Memory.MemoryStore.ListProjects | memory.py:12-13 | the result equals the contents; it is a value, so later changes to it cannot reach the store |
| Memory.MemoryStore.GetProject | memory.py:15-19 | returns the first project with the id, or None exactly when none has it |
| Memory.MemoryStore.RemoveProject | memory.py:21-26 | returns True exactly when some project has the id, and the new list is the old one without the first such project |
| Memory.RemoveThenGet | memory.py:15-26 | with unique ids, get_project after remove_project of the same id returns None |
| Utils.IsNameTaken | utils.py:1-5 | true exactly when some entry has this name and either no id is excluded or its id differs |
| Utils.IsProjectNameTaken | utils.py:1-5 | reading the store through list_projects, true exactly when some project in the store has the name and is not the excluded one; the store is not modified |
| Utils.NothingTakenWhenEmpty | utils.py:2-5 | no name is taken in an empty store |
| Utils.NotTakenBySelf | utils.py:3 | when every entry with the name has the excluded id, the name is free, so a project does not collide with itself |
| Utils.ExcludingOnlyFrees | utils.py:3 | excluding an id can only turn taken into free |
| Utils.ExactComparison | utils.py:3 | for every name, id and candidate, a one-entry store takes the candidate exactly when it equals the stored name, so another letter case or surrounding whitespace is a different name |
| Utils.AppendedNameTaken | utils.py:2-5 | after a project is appended its name is taken, and it is free again when that project's own id is excluded and no earlier project has the name |

## Left out

- main.py, the interactive `input`/`print` menu, is input and output around the core. It is not modelled.
- Environment loading in config.py (`load_dotenv`, `os.getenv`, the fallback when `int()` fails) is not modelled. The limits are constants fixed at config.py's defaults: project and task names 30, descriptions 150.
- `PROJECT_MAX_COUNT` and `TASK_MAX_COUNT` are defined but never enforced by the core. The model claims no bound on the number of projects or tasks.
- The clock (`_now_iso`) and `uuid.uuid4()` are replaced by the `createdAt` and `id` parameters. The model does not promise that ids are unique. The lemmas that need unique ids ask for them.
- `_parse_iso_to_datetime`, both `_format_created_at` functions, `pretty` and `__repr__` are left out. They are date parsing and `textwrap` text display.
- `Project.from_dict` is not modelled. It passes `created_at=` and `id=` to `Project.__init__`, which accepts only `name` and `description`, so every call fails: a dictionary without a "name" entry raises `KeyError` when `data["name"]` is read (project.py:134), and any other raises `TypeError` at the call (project.py:133-138 against project.py:60). There is therefore no project round trip to state.
- The `asdict(t)` fallback in `Project.to_dict` and the `getattr(t, "id", None)` fallback in `Project.view` are left out. They only apply to list elements that are not tasks, and the model's task list holds only tasks.
- Text.Upper: upper-cases ASCII letters only. Python's `str.upper()` is full Unicode and maps a few non-ASCII letters to ASCII, for example dotless `ı` to `I`. It also expands `ß` to `SS`.
- Tasks.ParseState: because of the ASCII-only upper-casing, it rejects tokens such as "doıng" that Python would accept as DOING.
- Text.IsSpace is Python's `str.isspace()` character set. Nothing in the proofs depends on which characters are in it, except that ASCII letters are not.
- Tasks.Decode: the dictionary is modelled as a map from strings to strings. So `None` values and other non-string values are not modelled, for example a "description" entry of `None` (which the constructor reads as "") or a non-string "state".
- Dictionary key order is not modelled. Python dictionaries compare without regard to order, which is why `Task.View` and `Task.ToDict` are equal.
- Arguments of the wrong type are not modelled: a non-string name raises `AttributeError` on `.strip()`. `set_state` is the exception: its third branch, for values of another type, is modelled.
- In Python any caller may reassign any attribute. No code in the core reassigns a task's name or description, or any project field other than `tasks`, so the model makes those fields constant.
- Deadlines, rename and description setters, `Project.add_task`/`remove_task`/`find_task`/`list_tasks`, and task-name uniqueness are described for this system but do not exist in this code. They are not modelled.
