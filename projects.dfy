/**
 * The project registry of the GUI (lib/utils/ProjectInfo.cpp, include/utils/ProjectInfo.h).
 *
 * A project's configuration and its directory layout, and the registry of open projects:
 * a name-to-project map with a `current` and a `last` project. In the program the registry
 * is the class's static state; here it is one `Registry` object.
 */
module Projects {

  /** PConfig: the per-project settings. */
  datatype PConfig = PConfig(
    projectName: string,
    compileCmd: string,
    decompileCmd: string,
    packageName: string,
    activityEntryName: string)

  // ---------------------------------------------------------------------------------
  // Paths. `projectsPath` stands for GetProjectsPath, which maps a project name to its
  // root directory and is not part of this model.
  // ---------------------------------------------------------------------------------

  function RootPath(projectsPath: string -> string, c: PConfig): string {
    projectsPath(c.projectName)
  }

  function SourcePath(projectsPath: string -> string, c: PConfig): string {
    RootPath(projectsPath, c) + "/Project"
  }

  function BuildPath(projectsPath: string -> string, c: PConfig): string {
    RootPath(projectsPath, c) + "/Bin"
  }

  function ConfigPath(projectsPath: string -> string, c: PConfig): string {
    RootPath(projectsPath, c) + "/Config.xml"
  }

  /** Cuts a known suffix off a path; the partner of appending it. */
  function StripSuffix(path: string, suffix: string): (r: string)
    requires |suffix| <= |path|
    ensures |r| + |suffix| == |path|
  {
    path[..|path| - |suffix|]
  }

  /**
   * Each of the three paths is the root path with its own suffix: the root is recovered by
   * cutting the suffix off, and the three paths of one project are pairwise different.
   */
  lemma {:induction false} PathsExtendRoot(projectsPath: string -> string, c: PConfig)
    ensures StripSuffix(SourcePath(projectsPath, c), "/Project") == RootPath(projectsPath, c)
    ensures StripSuffix(BuildPath(projectsPath, c), "/Bin") == RootPath(projectsPath, c)
    ensures StripSuffix(ConfigPath(projectsPath, c), "/Config.xml") == RootPath(projectsPath, c)
    ensures SourcePath(projectsPath, c) != BuildPath(projectsPath, c)
    ensures SourcePath(projectsPath, c) != ConfigPath(projectsPath, c)
    ensures BuildPath(projectsPath, c) != ConfigPath(projectsPath, c)
  {
    var root := RootPath(projectsPath, c);
    assert (root + "/Project")[..|root|] == root;
    assert (root + "/Bin")[..|root|] == root;
    assert (root + "/Config.xml")[..|root|] == root;
  }

  /** Two projects share a source, build or config path only if they share the root. */
  lemma {:induction false} PathsDetermineRoot(projectsPath: string -> string, c1: PConfig, c2: PConfig)
    ensures SourcePath(projectsPath, c1) == SourcePath(projectsPath, c2) ==>
            RootPath(projectsPath, c1) == RootPath(projectsPath, c2)
    ensures BuildPath(projectsPath, c1) == BuildPath(projectsPath, c2) ==>
            RootPath(projectsPath, c1) == RootPath(projectsPath, c2)
    ensures ConfigPath(projectsPath, c1) == ConfigPath(projectsPath, c2) ==>
            RootPath(projectsPath, c1) == RootPath(projectsPath, c2)
  {
    PathsExtendRoot(projectsPath, c1);
    PathsExtendRoot(projectsPath, c2);
  }

  // ---------------------------------------------------------------------------------
  // One project
  // ---------------------------------------------------------------------------------

  class ProjectInfo {
    var config: PConfig

    /**
     * The constructor names the project and takes the compile and decompile commands
     * stored in its configuration file; the reading of that file is not modelled.
     */
    constructor (name: string, storedCompileCmd: string, storedDecompileCmd: string)
      ensures config == PConfig(name, storedCompileCmd, storedDecompileCmd, "", "")
    {
      config := PConfig(name, storedCompileCmd, storedDecompileCmd, "", "");
    }

    /** config(): the project's own settings. */
    function Config(): (c: PConfig)
      reads this
      ensures c == config
    {
      config
    }

    /** A write through config(): it changes this project's settings and nothing else. */
    method SetConfig(c: PConfig)
      modifies this
      ensures config == c
    {
      config := c;
    }
  }

  // ---------------------------------------------------------------------------------
  // The registry
  // ---------------------------------------------------------------------------------

  class Registry {
    /** m_infoMap, m_current, m_last. */
    var infoMap: map<string, ProjectInfo>
    var current: ProjectInfo?
    var last: ProjectInfo?

    /** The current and last projects are always registered ones. */
    ghost predicate Valid()
      reads this
    {
      (current != null ==> current in infoMap.Values) &&
      (last != null ==> last in infoMap.Values)
    }

    constructor ()
      ensures Valid() && infoMap == map[] && current == null && last == null
    {
      infoMap := map[];
      current := null;
      last := null;
    }

    function IsProjectOpened(): (isOpen: bool)
      reads this
      ensures isOpen <==> current != null
    {
      current != null
    }

    function Current(): (p: ProjectInfo?)
      reads this
      ensures p == current
    {
      current
    }

    function Last(): (p: ProjectInfo?)
      reads this
      ensures p == last
    {
      last
    }

    /**
     * openProject: a registered name gives its project back and changes nothing, even when
     * that project was closed; a new name, which the program asserts may only be opened
     * when no project is current, creates the project, registers it and makes it current.
     */
    method OpenProject(name: string, storedCompileCmd: string, storedDecompileCmd: string)
      returns (p: ProjectInfo)
      requires Valid()
      requires name in infoMap || current == null
      modifies this
      ensures Valid()
      ensures old(name in infoMap) ==>
        p == old(infoMap[name]) && infoMap == old(infoMap) && current == old(current) && last == old(last)
      ensures old(name !in infoMap) ==>
        fresh(p) && p.config == PConfig(name, storedCompileCmd, storedDecompileCmd, "", "") &&
        infoMap == old(infoMap)[name := p] && current == p && last == old(last)
    {
      if name in infoMap {
        return infoMap[name];
      }
      current := new ProjectInfo(name, storedCompileCmd, storedDecompileCmd);
      ghost var before := infoMap;
      infoMap := infoMap[name := current];
      assert forall q :: q in before.Values ==> q in infoMap.Values by {
        forall q | q in before.Values ensures q in infoMap.Values {
          var k :| k in before && before[k] == q;
          assert k != name && infoMap[k] == q;
        }
      }
      assert infoMap[name] == current;
      return current;
    }

    /** closeProject: with no current project, false and nothing changes; else current becomes last. */
    method CloseProject() returns (closed: bool)
      requires Valid()
      modifies this
      ensures Valid()
      ensures closed <==> old(current) != null
      ensures infoMap == old(infoMap)
      ensures closed ==> last == old(current) && current == null
      ensures !closed ==> last == old(last) && current == old(current)
    {
      if current == null {
        return false;
      }
      last := current;
      current := null;
      return true;
    }
  }

  /** A closed project that is opened again is handed back but does not become current. */
  method ReopenAfterClose(r: Registry, name: string, compileCmd: string, decompileCmd: string)
    returns (first: ProjectInfo, again: ProjectInfo)
    requires r.Valid() && r.current == null && name !in r.infoMap
    modifies r
    ensures first == again && !r.IsProjectOpened() && r.Last() == first
  {
    first := r.OpenProject(name, compileCmd, decompileCmd);
    var closed := r.CloseProject();
    again := r.OpenProject(name, compileCmd, decompileCmd);
  }
}
