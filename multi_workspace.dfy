/**
 * The registry of workspaces to monitor: a list of entries keyed by resolved path,
 * edited by adding, removing and toggling entries.
 *
 * Path resolution against the file system is a parameter (`resolve`); reading and
 * writing `workspaces.json` is not modelled beyond what loading found.
 */
module MultiWorkspace {
  import opened Common
  import opened Strings
  import opened Paths

  /** One workspace entry; `enabled` may be absent in entries read from the file. */
  datatype Workspace = Workspace(
    name: string,
    path: string,
    enabled: Option<bool>,
    watchedExtensions: seq<string>,
    ignorePatterns: seq<string>,
    qiitaTags: seq<Tag>)

  /** What loading the configuration file found. */
  datatype ConfigFile =
    | Missing
    | Unreadable                            // unreadable, not JSON, or not an object
    | Parsed(workspaces: seq<Workspace>)    // the "workspaces" list, empty when the key is absent

  const NewWorkspaceExtensions: seq<string> := [".md", ".py", ".js", ".ts", ".txt", ".rst"]
  const NewWorkspaceIgnores: seq<string> := [".git", "__pycache__", "node_modules", ".vscode"]

  /** `load_workspaces`: the file's list, or no workspaces at all. */
  function LoadWorkspaces(file: ConfigFile): (ws: seq<Workspace>)
    ensures file.Parsed? ==> ws == file.workspaces
    ensures !file.Parsed? ==> ws == []
  {
    match file
    case Parsed(workspaces) => workspaces
    case _ => []
  }

  /** A missing `enabled` counts as enabled. */
  predicate IsEnabled(w: Workspace) {
    w.enabled.GetOr(true)
  }

  /** The entry `add_workspace` appends; an empty or missing name defaults to the path's last component. */
  function NewWorkspace(path: string, name: Option<string>, enabled: bool, resolve: string -> string): (w: Workspace)
    ensures w.path == resolve(path) && w.enabled == Some(enabled)
    ensures w.name == (if name.Some? && name.value != "" then name.value else Name(path))
    ensures w.qiitaTags == [Tag(w.name + "-project", [])]
  {
    var n := if name.Some? && name.value != "" then name.value else Name(path);
    Workspace(n, resolve(path), Some(enabled), NewWorkspaceExtensions, NewWorkspaceIgnores, [Tag(n + "-project", [])])
  }

  /** The entries whose path is not `path`, in order. */
  function WithoutPath(ws: seq<Workspace>, path: string): (r: seq<Workspace>)
    ensures |r| <= |ws|
    ensures forall w :: w in r <==> w in ws && w.path != path
    decreases |ws|
  {
    if |ws| == 0 then []
    else
      var front := WithoutPath(ws[..|ws| - 1], path);
      if ws[|ws| - 1].path != path then front + [ws[|ws| - 1]] else front
  }

  /** The enabled entries, in order. */
  function EnabledOnly(ws: seq<Workspace>): (r: seq<Workspace>)
    ensures |r| <= |ws|
    ensures forall w :: w in r <==> w in ws && IsEnabled(w)
    decreases |ws|
  {
    if |ws| == 0 then []
    else
      var front := EnabledOnly(ws[..|ws| - 1]);
      if IsEnabled(ws[|ws| - 1]) then front + [ws[|ws| - 1]] else front
  }

  /** The index of the first entry with this path, if any. */
  function FirstWithPath(ws: seq<Workspace>, path: string): (k: Option<nat>)
    ensures k.Some? ==>
      && k.value < |ws| && ws[k.value].path == path
      && forall j :: 0 <= j < k.value ==> ws[j].path != path
    ensures k.None? ==> forall j :: 0 <= j < |ws| ==> ws[j].path != path
    decreases |ws|
  {
    if |ws| == 0 then None
    else if ws[0].path == path then Some(0)
    else
      match FirstWithPath(ws[1..], path)
      case None => None
      case Some(k) => Some(k + 1)
  }

  /** The entry `toggle_workspace` writes: the given value, or the negation of the current one. */
  function Toggle(w: Workspace, enabled: Option<bool>): (t: Workspace)
    ensures t == w.(enabled := t.enabled)
    ensures IsEnabled(t) == (if enabled.Some? then enabled.value else !IsEnabled(w))
  {
    w.(enabled := Some(if enabled.Some? then enabled.value else !IsEnabled(w)))
  }

  /** The list after `toggle_workspace`: only the first entry with the path changes. */
  function Toggled(ws: seq<Workspace>, path: string, enabled: Option<bool>): (r: seq<Workspace>)
    ensures |r| == |ws|
  {
    match FirstWithPath(ws, path)
    case None => ws
    case Some(k) => ws[k := Toggle(ws[k], enabled)]
  }

  /** `MultiWorkspaceConfig`. */
  class MultiWorkspaceConfig {
    var workspaces: seq<Workspace>
    const resolve: string -> string

    constructor(file: ConfigFile, resolve: string -> string)
      ensures workspaces == LoadWorkspaces(file) && this.resolve == resolve
    {
      workspaces := LoadWorkspaces(file);
      this.resolve := resolve;
    }

    /** `add_workspace`: drop every entry with the resolved path, then append the new entry. */
    method AddWorkspace(path: string, name: Option<string>, enabled: bool)
      modifies this
      ensures workspaces == WithoutPath(old(workspaces), resolve(path)) + [NewWorkspace(path, name, enabled, resolve)]
    {
      var workspace := NewWorkspace(path, name, enabled, resolve);
      var kept: seq<Workspace> := [];
      for i := 0 to |workspaces|
        invariant kept == WithoutPath(workspaces[..i], workspace.path)
      {
        assert workspaces[..i + 1][..i] == workspaces[..i];
        if workspaces[i].path != workspace.path {
          kept := kept + [workspaces[i]];
        }
      }
      assert workspaces[..|workspaces|] == workspaces;
      workspaces := kept + [workspace];
    }

    /** `remove_workspace`: drop every entry with the resolved path. */
    method RemoveWorkspace(path: string)
      modifies this
      ensures workspaces == WithoutPath(old(workspaces), resolve(path))
    {
      var resolved := resolve(path);
      var kept: seq<Workspace> := [];
      for i := 0 to |workspaces|
        invariant kept == WithoutPath(workspaces[..i], resolved)
      {
        assert workspaces[..i + 1][..i] == workspaces[..i];
        if workspaces[i].path != resolved {
          kept := kept + [workspaces[i]];
        }
      }
      assert workspaces[..|workspaces|] == workspaces;
      workspaces := kept;
    }

    /** `get_enabled_workspaces`: the entries whose `enabled` is true or absent, in order. */
    function GetEnabledWorkspaces(): (r: seq<Workspace>)
      reads this
      ensures forall w :: w in r <==> w in workspaces && IsEnabled(w)
    {
      EnabledOnly(workspaces)
    }

    /** `toggle_workspace`: set or flip `enabled` on the first entry with the resolved path. */
    method ToggleWorkspace(path: string, enabled: Option<bool>)
      modifies this
      ensures workspaces == Toggled(old(workspaces), resolve(path), enabled)
    {
      var resolved := resolve(path);
      var i := 0;
      while i < |workspaces|
        invariant 0 <= i <= |workspaces| && workspaces == old(workspaces)
        invariant forall j :: 0 <= j < i ==> workspaces[j].path != resolved
      {
        if workspaces[i].path == resolved {
          workspaces := workspaces[i := Toggle(workspaces[i], enabled)];
          break;
        }
        i := i + 1;
      }
    }
  }

  // ---------------------------------------------------------------------------
  // properties of the registry

  /** After an add, exactly one entry has the resolved path, and it is the last one. */
  lemma {:induction false} AddLeavesOneEntry(ws: seq<Workspace>, entry: Workspace)
    ensures forall i :: 0 <= i < |WithoutPath(ws, entry.path) + [entry]| ==>
      ((WithoutPath(ws, entry.path) + [entry])[i].path == entry.path <==> i == |WithoutPath(ws, entry.path)|)
  {
    var kept := WithoutPath(ws, entry.path);
    forall i | 0 <= i < |kept| ensures kept[i].path != entry.path {
      assert kept[i] in kept;
    }
  }

  /** Dropping a path distributes over concatenation, so the other entries keep their relative order. */
  lemma {:induction false} WithoutPathAppend(a: seq<Workspace>, b: seq<Workspace>, path: string)
    ensures WithoutPath(a + b, path) == WithoutPath(a, path) + WithoutPath(b, path)
    decreases |b|
  {
    if |b| > 0 {
      var b' := b[..|b| - 1];
      assert (a + b)[..|a + b| - 1] == a + b';
      WithoutPathAppend(a, b', path);
    } else {
      assert a + b == a;
    }
  }

  /** A path no entry has leaves the list as it was. */
  lemma {:induction false} WithoutAbsentPath(ws: seq<Workspace>, path: string)
    requires forall i :: 0 <= i < |ws| ==> ws[i].path != path
    ensures WithoutPath(ws, path) == ws
    decreases |ws|
  {
    if |ws| > 0 {
      WithoutAbsentPath(ws[..|ws| - 1], path);
      assert ws[..|ws| - 1] + [ws[|ws| - 1]] == ws;
    }
  }

  /** Filtering enabled entries distributes over concatenation, so the order is kept. */
  lemma {:induction false} EnabledOnlyAppend(a: seq<Workspace>, b: seq<Workspace>)
    ensures EnabledOnly(a + b) == EnabledOnly(a) + EnabledOnly(b)
    decreases |b|
  {
    if |b| > 0 {
      var b' := b[..|b| - 1];
      assert (a + b)[..|a + b| - 1] == a + b';
      EnabledOnlyAppend(a, b');
    } else {
      assert a + b == a;
    }
  }

  /** Toggling changes nothing but the `enabled` of the first entry with the path. */
  lemma {:induction false} ToggleTouchesOnlyFirst(ws: seq<Workspace>, path: string, enabled: Option<bool>)
    ensures FirstWithPath(ws, path).None? ==> Toggled(ws, path, enabled) == ws
    ensures FirstWithPath(ws, path).Some? ==>
      forall j :: 0 <= j < |ws| && j != FirstWithPath(ws, path).value ==> Toggled(ws, path, enabled)[j] == ws[j]
    ensures forall j :: 0 <= j < |ws| ==>
      Toggled(ws, path, enabled)[j] == ws[j].(enabled := Toggled(ws, path, enabled)[j].enabled)
  {
  }

  /** Flipping the same workspace twice restores whether every entry is enabled. */
  lemma {:induction false} ToggleTwiceRestores(ws: seq<Workspace>, path: string)
    ensures forall j :: 0 <= j < |ws| ==> IsEnabled(Toggled(Toggled(ws, path, None), path, None)[j]) == IsEnabled(ws[j])
  {
    var once := Toggled(ws, path, None);
    assert forall j :: 0 <= j < |ws| ==> once[j].path == ws[j].path;
    FirstWithPathSamePaths(ws, once, path);
  }

  lemma {:induction false} FirstWithPathSamePaths(a: seq<Workspace>, b: seq<Workspace>, path: string)
    requires |a| == |b| && forall j :: 0 <= j < |a| ==> a[j].path == b[j].path
    ensures FirstWithPath(a, path) == FirstWithPath(b, path)
    decreases |a|
  {
    if |a| > 0 {
      FirstWithPathSamePaths(a[1..], b[1..], path);
    }
  }

  /** Setting an explicit value is idempotent. */
  lemma {:induction false} ToggleExplicitIdempotent(ws: seq<Workspace>, path: string, value: bool)
    ensures Toggled(Toggled(ws, path, Some(value)), path, Some(value)) == Toggled(ws, path, Some(value))
  {
    var once := Toggled(ws, path, Some(value));
    assert forall j :: 0 <= j < |ws| ==> once[j].path == ws[j].path;
    FirstWithPathSamePaths(ws, once, path);
  }
}
