/** The part of the project entity and of its persistent store that the cleanup
    job reads and changes. */
module Projects {
  import opened JavaLang

  /** A project's UUID, the key under which the store holds it. */
  type Uuid = string

  /** A project as the store hands it out. The time of the last BOM import is in
      milliseconds since the epoch; null means no BOM was ever imported. The
      version may be null too. */
  datatype Project = Project(
    uuid: Uuid,
    name: string,
    version: Option<string>,
    lastBomImport: Option<int>,
    active: bool)

  /** A list of projects read from the store: every entry is the stored project
      under its own UUID. */
  ghost predicate Snapshot(list: seq<Project>, projects: map<Uuid, Project>) {
    forall p :: p in list ==> p.uuid in projects && projects[p.uuid] == p
  }

  /** The persistent projects, keyed by UUID. */
  class ProjectStore {
    var projects: map<Uuid, Project>

    constructor (initial: map<Uuid, Project>)
      ensures projects == initial
    {
      projects := initial;
    }

    /** Removes the project; one that is already gone leaves the store as it is. */
    method RecursivelyDelete(p: Project)
      modifies this
      ensures projects == old(projects) - {p.uuid}
    {
      projects := projects - {p.uuid};
    }

    /** Writes the fields of `p` over the stored project with the same UUID. */
    method UpdateProject(p: Project)
      requires p.uuid in projects
      modifies this
      ensures projects == old(projects)[p.uuid := p]
      ensures projects.Keys == old(projects).Keys
    {
      projects := projects[p.uuid := p];
    }

    /** Looks a project up by UUID; null when there is none. */
    method GetProject(uuid: Uuid) returns (r: Option<Project>)
      ensures r.Some? <==> uuid in projects
      ensures r.Some? ==> r.value == projects[uuid]
    {
      if uuid in projects {
        r := Some(projects[uuid]);
      } else {
        r := None;
      }
    }
  }
}
