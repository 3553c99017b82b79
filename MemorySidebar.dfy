/** The memory library (src/components/MemorySidebar.tsx): projects holding
    memory points, the list transformations its handlers apply, the preview
    of a memory's content, and the component itself as an object whose fields
    are its state. Fresh ids, which the component takes from the clock, are
    parameters. */
module MemoryLibrary {
  import opened JsText
  import opened JsValue

  datatype MemoryPoint = MemoryPoint(id: int, title: string, content: string)

  datatype Project = Project(id: int, name: string, memories: seq<MemoryPoint>)

  /** A `Partial<MemoryPoint>`: the fields it carries. */
  datatype Patch = Patch(id: Option<int>, title: Option<string>, content: Option<string>)

  /* ---------------- the transformations ---------------- */

  /** `prev === id ? null : id` */
  function Toggle(prev: Option<int>, id: int): Option<int> {
    if prev == Some(id) then None else Some(id)
  }

  /** `ps.map(p => p.id === pid ? {...p, memories: f(p.memories)} : p)`: the
      projects with id `pid` get their memories through `f`; nothing else
      changes. */
  function MapProjects(ps: seq<Project>, pid: int, f: seq<MemoryPoint> -> seq<MemoryPoint>): (r: seq<Project>)
    ensures |r| == |ps|
    ensures forall i :: 0 <= i < |ps| ==> r[i].id == ps[i].id && r[i].name == ps[i].name
    ensures forall i :: 0 <= i < |ps| && ps[i].id != pid ==> r[i] == ps[i]
    ensures forall i :: 0 <= i < |ps| && ps[i].id == pid ==> r[i].memories == f(ps[i].memories)
  {
    seq(|ps|, i requires 0 <= i < |ps| => if ps[i].id == pid then ps[i].(memories := f(ps[i].memories)) else ps[i])
  }

  /** `ms.filter(m => m.id !== mid)`: exactly the memories with another id. */
  function Without(ms: seq<MemoryPoint>, mid: int): (r: seq<MemoryPoint>)
    ensures |r| <= |ms|
    ensures forall x :: x in r <==> x in ms && x.id != mid
  {
    if ms == [] then []
    else (if ms[0].id != mid then [ms[0]] else []) + Without(ms[1..], mid)
  }

  /** `handleDelete`'s update. */
  function DeleteMemory(ps: seq<Project>, pid: int, mid: int): seq<Project> {
    MapProjects(ps, pid, ms => Without(ms, mid))
  }

  /** `{...m, ...u}` */
  function Apply(m: MemoryPoint, u: Patch): MemoryPoint {
    MemoryPoint(
      if u.id.Some? then u.id.value else m.id,
      if u.title.Some? then u.title.value else m.title,
      if u.content.Some? then u.content.value else m.content)
  }

  /** `ms.map(m => m.id === mid ? {...m, ...u} : m)` */
  function PatchAll(ms: seq<MemoryPoint>, mid: int, u: Patch): (r: seq<MemoryPoint>)
    ensures |r| == |ms|
  {
    seq(|ms|, j requires 0 <= j < |ms| => if ms[j].id == mid then Apply(ms[j], u) else ms[j])
  }

  /** `handleEdit`'s update. */
  function EditMemory(ps: seq<Project>, pid: int, mid: int, u: Patch): seq<Project> {
    MapProjects(ps, pid, ms => PatchAll(ms, mid, u))
  }

  /** `handleAddProject`'s update: the name is kept as typed, untrimmed. */
  function AddProject(ps: seq<Project>, name: string, stamp: int): seq<Project> {
    ps + [Project(stamp, name, [])]
  }

  /** `handleAddMemory`'s update. No project id equals `null`, so with no
      current project nothing changes. */
  function AddMemory(ps: seq<Project>, current: Option<int>, m: MemoryPoint): seq<Project> {
    match current
    case None => ps
    case Some(pid) => MapProjects(ps, pid, ms => ms + [m])
  }

  /** The content shown under a memory's title. */
  function Preview(content: string): string {
    if |content| > 100 then content[..100] + "..." else content
  }

  /* ---------------- what they promise ---------------- */

  /** After a toggle the project is expanded exactly when it was not, and
      otherwise none is. */
  lemma ToggleSpec(prev: Option<int>, id: int)
    ensures Toggle(prev, id) == Some(id) <==> prev != Some(id)
    ensures Toggle(prev, id) != Some(id) ==> Toggle(prev, id) == None
  {
  }

  /** Toggling the same project twice restores the state when it or no
      project was expanded; when another one was, the second toggle
      collapses everything. */
  lemma ToggleTwice(prev: Option<int>, id: int)
    ensures prev == None || prev == Some(id) ==> Toggle(Toggle(prev, id), id) == prev
    ensures prev != None && prev != Some(id) ==> Toggle(Toggle(prev, id), id) == None
  {
  }

  /** The filter distributes over concatenation: it keeps the order. */
  lemma {:induction false} WithoutAppend(a: seq<MemoryPoint>, b: seq<MemoryPoint>, mid: int)
    ensures Without(a + b, mid) == Without(a, mid) + Without(b, mid)
  {
    if a == [] {
      assert a + b == b;
    } else {
      assert (a + b)[1..] == a[1..] + b;
      WithoutAppend(a[1..], b, mid);
    }
  }

  /** A list without the id is left as it is. */
  lemma {:induction false} WithoutAbsent(ms: seq<MemoryPoint>, mid: int)
    requires forall x :: x in ms ==> x.id != mid
    ensures Without(ms, mid) == ms
  {
    if ms != [] {
      WithoutAbsent(ms[1..], mid);
    }
  }

  /** Filtering twice is filtering once. */
  lemma WithoutTwice(ms: seq<MemoryPoint>, mid: int)
    ensures Without(Without(ms, mid), mid) == Without(ms, mid)
  {
    WithoutAbsent(Without(ms, mid), mid);
  }

  /** Deleting keeps the projects and their order, changes only project
      `pid`, and leaves it exactly its memories with another id. */
  lemma DeleteSpec(ps: seq<Project>, pid: int, mid: int)
    ensures var r := DeleteMemory(ps, pid, mid);
      && |r| == |ps|
      && (forall i :: 0 <= i < |ps| ==> r[i].id == ps[i].id && r[i].name == ps[i].name)
      && (forall i :: 0 <= i < |ps| && ps[i].id != pid ==> r[i] == ps[i])
      && (forall i, x :: 0 <= i < |ps| && ps[i].id == pid ==> (x in r[i].memories <==> x in ps[i].memories && x.id != mid))
  {
  }

  /** Deleting twice is deleting once. */
  lemma DeleteTwice(ps: seq<Project>, pid: int, mid: int)
    ensures DeleteMemory(DeleteMemory(ps, pid, mid), pid, mid) == DeleteMemory(ps, pid, mid)
  {
    var once := DeleteMemory(ps, pid, mid);
    var twice := DeleteMemory(once, pid, mid);
    forall i | 0 <= i < |ps| ensures twice[i] == once[i] {
      if ps[i].id == pid {
        WithoutTwice(ps[i].memories, mid);
      }
    }
  }

  /** An edit keeps every list's length, patches only the memories `mid` of
      the projects `pid`, and on those only the fields the patch carries. */
  lemma EditSpec(ps: seq<Project>, pid: int, mid: int, u: Patch)
    ensures var r := EditMemory(ps, pid, mid, u);
      && |r| == |ps|
      && (forall i :: 0 <= i < |ps| ==> r[i].id == ps[i].id && r[i].name == ps[i].name)
      && (forall i :: 0 <= i < |ps| ==> |r[i].memories| == |ps[i].memories|)
      && (forall i :: 0 <= i < |ps| && ps[i].id != pid ==> r[i] == ps[i])
      && (forall i, j :: 0 <= i < |ps| && 0 <= j < |ps[i].memories| ==>
            var m, n := ps[i].memories[j], r[i].memories[j];
            if ps[i].id == pid && m.id == mid then
              && n.id == (if u.id.Some? then u.id.value else m.id)
              && n.title == (if u.title.Some? then u.title.value else m.title)
              && n.content == (if u.content.Some? then u.content.value else m.content)
            else n == m)
  {
  }

  /** An empty patch changes nothing. */
  lemma EditNothing(ps: seq<Project>, pid: int, mid: int)
    ensures EditMemory(ps, pid, mid, Patch(None, None, None)) == ps
  {
    var r := EditMemory(ps, pid, mid, Patch(None, None, None));
    forall i | 0 <= i < |ps| ensures r[i] == ps[i] {
      if ps[i].id == pid {
        assert r[i].memories == ps[i].memories;
      }
    }
  }

  /** Applying the same edit twice is applying it once. */
  lemma EditTwice(ps: seq<Project>, pid: int, mid: int, u: Patch)
    ensures EditMemory(EditMemory(ps, pid, mid, u), pid, mid, u) == EditMemory(ps, pid, mid, u)
  {
    var once := EditMemory(ps, pid, mid, u);
    var twice := EditMemory(once, pid, mid, u);
    forall i | 0 <= i < |ps| ensures twice[i] == once[i] {
      if ps[i].id == pid {
        var ms := ps[i].memories;
        assert twice[i].memories == once[i].memories by {
          forall j | 0 <= j < |ms| ensures twice[i].memories[j] == once[i].memories[j] {
            if ms[j].id == mid {
              assert once[i].memories[j] == Apply(ms[j], u);
            }
          }
        }
      }
    }
  }

  /** Adding a project appends exactly one, with the given name and id and no
      memories, after the others. */
  lemma AddProjectSpec(ps: seq<Project>, name: string, stamp: int)
    ensures var r := AddProject(ps, name, stamp);
      && |r| == |ps| + 1 && r[..|ps|] == ps && r[|ps|] == Project(stamp, name, [])
  {
  }

  /** Adding a memory appends it to the end of the current project's list
      and changes no other project. */
  lemma AddMemorySpec(ps: seq<Project>, current: Option<int>, m: MemoryPoint)
    ensures var r := AddMemory(ps, current, m);
      && |r| == |ps|
      && (forall i :: 0 <= i < |ps| && Some(ps[i].id) != current ==> r[i] == ps[i])
      && (forall i :: 0 <= i < |ps| && Some(ps[i].id) == current ==>
            r[i].id == ps[i].id && r[i].name == ps[i].name && r[i].memories == ps[i].memories + [m])
  {
  }

  /** Deleting a memory just added, under an id the project did not use,
      gives back the projects as they were. */
  lemma AddThenDelete(ps: seq<Project>, pid: int, m: MemoryPoint)
    requires forall i, x :: 0 <= i < |ps| && ps[i].id == pid && x in ps[i].memories ==> x.id != m.id
    ensures DeleteMemory(AddMemory(ps, Some(pid), m), pid, m.id) == ps
  {
    var added := AddMemory(ps, Some(pid), m);
    var r := DeleteMemory(added, pid, m.id);
    forall i | 0 <= i < |ps| ensures r[i] == ps[i] {
      if ps[i].id == pid {
        WithoutAppend(ps[i].memories, [m], m.id);
        WithoutAbsent(ps[i].memories, m.id);
        assert Without([m], m.id) == [];
      }
    }
  }

  /** The preview is at most 103 characters, starts with the content's first
      100, is the content itself when that is short enough, and ends in "..."
      otherwise. */
  lemma PreviewSpec(content: string)
    ensures var r := Preview(content);
      var n := if |content| < 100 then |content| else 100;
      && |r| <= 103
      && n <= |r| && r[..n] == content[..n]
      && (|content| <= 100 ==> r == content)
      && (|content| > 100 ==> |r| == 103 && r[100..] == "...")
  {
  }

  /* ---------------- the component ---------------- */

  class MemorySidebar {
    var projects: seq<Project>
    var expandedProjectId: Option<int>
    var editingId: Option<int>
    var newProjectName: string
    var showNewProjectModal: bool
    var showManageModal: bool
    var showAddMemoryModal: bool
    var newMemoryTitle: string
    var newMemoryContent: string
    var currentProjectId: Option<int>

    /** The state when the sidebar mounts: one sample project with two memories. */
    constructor ()
      ensures projects == [Project(1, "Project A", [
                MemoryPoint(1, "Memory 1", "This is a long content for memory point 1."),
                MemoryPoint(2, "Memory 2", "Another content memory.")])]
      ensures expandedProjectId == None && editingId == None && currentProjectId == None
      ensures newProjectName == "" && newMemoryTitle == "" && newMemoryContent == ""
      ensures !showNewProjectModal && !showManageModal && !showAddMemoryModal
    {
      projects := [Project(1, "Project A", [
        MemoryPoint(1, "Memory 1", "This is a long content for memory point 1."),
        MemoryPoint(2, "Memory 2", "Another content memory.")])];
      expandedProjectId, editingId, currentProjectId := None, None, None;
      newProjectName, newMemoryTitle, newMemoryContent := "", "", "";
      showNewProjectModal, showManageModal, showAddMemoryModal := false, false, false;
    }

    /** `toggleProject` */
    method ToggleProject(id: int)
      modifies this`expandedProjectId
      ensures expandedProjectId == Toggle(old(expandedProjectId), id)
    {
      expandedProjectId := if expandedProjectId == Some(id) then None else Some(id);
    }

    /** `handleDelete` */
    method HandleDelete(projectId: int, memoryId: int)
      modifies this`projects
      ensures projects == DeleteMemory(old(projects), projectId, memoryId)
    {
      projects := DeleteMemory(projects, projectId, memoryId);
    }

    /** The pencil button: the memory's fields become editable. */
    method StartEdit(memoryId: int)
      modifies this`editingId
      ensures editingId == Some(memoryId)
    {
      editingId := Some(memoryId);
    }

    /** `handleEdit`: the patch is applied and editing ends. */
    method HandleEdit(projectId: int, memoryId: int, updated: Patch)
      modifies this`projects, this`editingId
      ensures projects == EditMemory(old(projects), projectId, memoryId, updated)
      ensures editingId == None
    {
      projects := EditMemory(projects, projectId, memoryId, updated);
      editingId := None;
    }

    /** `handleAddProject`, with `stamp` standing for `Date.now()`: a blank
        name does nothing; otherwise the project is appended, the name field
        cleared and the dialog closed. */
    method HandleAddProject(stamp: int)
      modifies this`projects, this`newProjectName, this`showNewProjectModal
      ensures Trim(old(newProjectName)) == "" ==>
        projects == old(projects) && newProjectName == old(newProjectName) && showNewProjectModal == old(showNewProjectModal)
      ensures Trim(old(newProjectName)) != "" ==>
        projects == AddProject(old(projects), old(newProjectName), stamp) && newProjectName == "" && !showNewProjectModal
    {
      if Trim(newProjectName) == "" {
        return;
      }
      projects := AddProject(projects, newProjectName, stamp);
      newProjectName := "";
      showNewProjectModal := false;
    }

    /** The "Add Memory" tile of a project: the dialog opens for it. */
    method OpenAddMemory(projectId: int)
      modifies this`showAddMemoryModal, this`currentProjectId
      ensures showAddMemoryModal && currentProjectId == Some(projectId)
    {
      showAddMemoryModal := true;
      currentProjectId := Some(projectId);
    }

    /** The memory form cleared and its dialog closed. */
    method ResetMemoryForm()
      modifies this`newMemoryTitle, this`newMemoryContent, this`showAddMemoryModal
      ensures newMemoryTitle == "" && newMemoryContent == "" && !showAddMemoryModal
    {
      newMemoryTitle, newMemoryContent := "", "";
      showAddMemoryModal := false;
    }

    /** `handleAddMemory`, with `stamp` standing for `Date.now()`: a blank
        title does nothing; otherwise the memory, with the title and content
        as typed, is appended to the current project, the form cleared and
        the dialog closed. */
    method HandleAddMemory(stamp: int)
      modifies this`projects, this`newMemoryTitle, this`newMemoryContent, this`showAddMemoryModal
      ensures Trim(old(newMemoryTitle)) == "" ==>
        && projects == old(projects) && newMemoryTitle == old(newMemoryTitle)
        && newMemoryContent == old(newMemoryContent) && showAddMemoryModal == old(showAddMemoryModal)
      ensures Trim(old(newMemoryTitle)) != "" ==>
        && projects == AddMemory(old(projects), currentProjectId, MemoryPoint(stamp, old(newMemoryTitle), old(newMemoryContent)))
        && newMemoryTitle == "" && newMemoryContent == "" && !showAddMemoryModal
    {
      if Trim(newMemoryTitle) == "" {
        return;
      }
      var m := MemoryPoint(stamp, newMemoryTitle, newMemoryContent);
      projects := AddMemory(projects, currentProjectId, m);
      ResetMemoryForm();
    }
  }
}
