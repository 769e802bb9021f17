/** memory.py: the in-memory store, an ordered list of projects that is
    appended to, copied out, searched and shrunk in place. */
module Memory {
  import opened Wrappers
  import opened Projects

  /** The position of the first project in `ps` whose id is `pid`, or `None` when no project has that id. */
  function IndexOf(ps: seq<Project>, pid: string): (r: Option<nat>)
    ensures r.Some? ==> r.value < |ps| && ps[r.value].id == pid
    ensures r.Some? ==> forall j :: 0 <= j < r.value ==> ps[j].id != pid
    ensures r.None? <==> forall j :: 0 <= j < |ps| ==> ps[j].id != pid
  {
    if ps == [] then None
    else if ps[0].id == pid then Some(0)
    else
      match IndexOf(ps[1..], pid)
      case None => None
      case Some(k) => Some(k + 1)
  }

  /** `ps` with its first project whose id is `pid` deleted, or `ps` itself when there is none. */
  function RemoveFirst(ps: seq<Project>, pid: string): seq<Project> {
    match IndexOf(ps, pid)
    case None => ps
    case Some(k) => ps[..k] + ps[k + 1..]
  }

  /** No two projects of `ps` share an id. */
  predicate UniqueIds(ps: seq<Project>) {
    forall i, j :: 0 <= i < j < |ps| ==> ps[i].id != ps[j].id
  }

  /** Removing an id that no project has changes nothing. */
  lemma RemoveAbsent(ps: seq<Project>, pid: string)
    requires forall j :: 0 <= j < |ps| ==> ps[j].id != pid
    ensures RemoveFirst(ps, pid) == ps
  {
  }

  /** Removing an id that some project has deletes exactly the first such
      project: one element fewer, everything before it in place, everything
      after it moved up by one, and the same projects otherwise. */
  lemma RemovePresent(ps: seq<Project>, pid: string, k: nat)
    requires k < |ps| && ps[k].id == pid
    requires forall j :: 0 <= j < k ==> ps[j].id != pid
    ensures |RemoveFirst(ps, pid)| == |ps| - 1
    ensures forall i :: 0 <= i < k ==> RemoveFirst(ps, pid)[i] == ps[i]
    ensures forall i :: k <= i < |ps| - 1 ==> RemoveFirst(ps, pid)[i] == ps[i + 1]
    ensures multiset(RemoveFirst(ps, pid)) + multiset{ps[k]} == multiset(ps)
  {
    assert IndexOf(ps, pid) == Some(k);
    assert ps == ps[..k] + [ps[k]] + ps[k + 1..];
  }

  /** When ids are unique, no project with the removed id is left. */
  lemma RemoveLeavesNoMatch(ps: seq<Project>, pid: string)
    requires UniqueIds(ps)
    ensures IndexOf(RemoveFirst(ps, pid), pid).None?
  {
    match IndexOf(ps, pid)
    case None =>
    case Some(k) =>
      RemovePresent(ps, pid, k);
      var r := RemoveFirst(ps, pid);
      forall j | 0 <= j < |r| ensures r[j].id != pid {
        if j >= k {
          assert r[j] == ps[j + 1];
        }
      }
  }

  /** A project appended with an id no earlier project has is found at the end. */
  lemma AppendedIsFound(ps: seq<Project>, p: Project)
    requires forall j :: 0 <= j < |ps| ==> ps[j].id != p.id
    ensures IndexOf(ps + [p], p.id) == Some(|ps|)
  {
    var r := IndexOf(ps + [p], p.id);
    assert (ps + [p])[|ps|] == p;
    assert r.Some?;
  }

  /** `MemoryStore`: the projects in insertion order. */
  class MemoryStore {
    var projects: seq<Project>

    /** A new store holds no projects. */
    constructor ()
      ensures projects == []
    {
      projects := [];
    }

    /** `add_project`: append at the end. */
    method AddProject(p: Project)
      modifies this
      ensures projects == old(projects) + [p]
    {
      projects := projects + [p];
    }

    /** `list_projects`: the projects in order. The result is a value, so
        nothing done with it later can change the store. */
    method ListProjects() returns (r: seq<Project>)
      ensures r == projects
    {
      r := projects;
    }

    /** `get_project`: scan in order and return the first project whose id matches. */
    method GetProject(pid: string) returns (r: Option<Project>)
      ensures r.None? <==> IndexOf(projects, pid).None?
      ensures r.Some? ==> r.value == projects[IndexOf(projects, pid).value] && r.value.id == pid
    {
      var i := 0;
      while i < |projects|
        invariant 0 <= i <= |projects|
        invariant forall j :: 0 <= j < i ==> projects[j].id != pid
      {
        if projects[i].id == pid {
          return Some(projects[i]);
        }
        i := i + 1;
      }
      return None;
    }

    /** `remove_project`: scan in order, delete the first project whose id
        matches and report whether one was found. */
    method RemoveProject(pid: string) returns (removed: bool)
      modifies this
      ensures removed <==> IndexOf(old(projects), pid).Some?
      ensures projects == RemoveFirst(old(projects), pid)
    {
      var i := 0;
      while i < |projects|
        invariant 0 <= i <= |projects|
        invariant forall j :: 0 <= j < i ==> projects[j].id != pid
      {
        if projects[i].id == pid {
          projects := projects[..i] + projects[i + 1..];
          return true;
        }
        i := i + 1;
      }
      return false;
    }
  }

  /** With unique ids, looking a project up after removing it finds nothing. */
  method RemoveThenGet(store: MemoryStore, pid: string) returns (r: Option<Project>)
    requires UniqueIds(store.projects)
    modifies store
    ensures r == None
  {
    RemoveLeavesNoMatch(store.projects, pid);
    var _ := store.RemoveProject(pid);
    r := store.GetProject(pid);
  }
}
