/** utils.py: the check that a project name is already in use. */
module Utils {
  import opened Wrappers
  import opened Projects
  import opened Memory

  /** A (name, id) entry collides with `name` unless it is the excluded entity. */
  predicate Collides(entry: (string, string), name: string, excludeId: Option<string>) {
    entry.0 == name && (excludeId.None? || entry.1 != excludeId.value)
  }

  /** Whether some entry other than the excluded one has exactly this name.
      The comparison is exact: no trimming, no case folding. */
  function IsNameTaken(entries: seq<(string, string)>, name: string, excludeId: Option<string>): (r: bool)
    ensures r <==> exists i :: 0 <= i < |entries| && Collides(entries[i], name, excludeId)
  {
    if entries == [] then false
    else if Collides(entries[0], name, excludeId) then true
    else
      var rest := IsNameTaken(entries[1..], name, excludeId);
      assert forall i :: 1 <= i < |entries| ==> entries[i] == entries[1..][i - 1];
      rest
  }

  /** The (name, id) pair of each project, in order. */
  function Entries(ps: seq<Project>): seq<(string, string)> {
    seq(|ps|, i requires 0 <= i < |ps| => (ps[i].name, ps[i].id))
  }

  /** `is_project_name_taken`: read the store through `list_projects` and test its entries. */
  method IsProjectNameTaken(store: MemoryStore, name: string, excludeId: Option<string>) returns (taken: bool)
    ensures taken <==> exists i :: 0 <= i < |store.projects| && store.projects[i].name == name
                                   && (excludeId.None? || store.projects[i].id != excludeId.value)
  {
    var ps := store.ListProjects();
    taken := IsNameTaken(Entries(ps), name, excludeId);
    assert forall i :: 0 <= i < |ps| ==> Entries(ps)[i] == (ps[i].name, ps[i].id);
  }

  /** No name is taken in an empty store. */
  lemma NothingTakenWhenEmpty(name: string, excludeId: Option<string>)
    ensures !IsNameTaken([], name, excludeId)
  {
  }

  /** An entity does not collide with itself: when every entry with this name
      has the excluded id, the name counts as free. */
  lemma NotTakenBySelf(entries: seq<(string, string)>, name: string, id: string)
    requires forall i :: 0 <= i < |entries| && entries[i].0 == name ==> entries[i].1 == id
    ensures !IsNameTaken(entries, name, Some(id))
  {
  }

  /** Excluding an id can only free a name, never take it. */
  lemma ExcludingOnlyFrees(entries: seq<(string, string)>, name: string, id: string)
    ensures IsNameTaken(entries, name, Some(id)) ==> IsNameTaken(entries, name, None)
  {
  }

  /** Names are compared exactly: a different letter case or surrounding
      whitespace is a different name. */
  lemma ExactComparison(name: string, id: string, other: string)
    ensures IsNameTaken([(name, id)], other, None) <==> other == name
  {
    assert Collides(([(name, id)])[0], other, None) <==> other == name;
  }

  /** After a project is appended its name is taken, unless its own id is excluded
      and no other project has that name. */
  lemma AppendedNameTaken(ps: seq<Project>, p: Project)
    ensures IsNameTaken(Entries(ps + [p]), p.name, None)
    ensures (forall j :: 0 <= j < |ps| ==> ps[j].name != p.name) ==> !IsNameTaken(Entries(ps + [p]), p.name, Some(p.id))
  {
    var e := Entries(ps + [p]);
    assert e[|ps|] == (p.name, p.id);
    assert forall j :: 0 <= j < |ps| ==> e[j] == (ps[j].name, ps[j].id);
  }
}
