/** The projects service: a project table listed newest first, creation through the
    schema, and lookup by id (400 for an id that does not cast, 404 for a missing one). */
module ProjectService {
  import opened Wrappers
  import opened Json
  import opened Seqs
  import opened Http
  import PV = ProjectValidators
  import opened ProjectModel

  /** `GET /health`. */
  function Health(): (r: HealthReport)
    ensures r.ok && r.service == "projects"
  {
    HealthReport(true, "projects")
  }

  function CreatedAt(p: Project): int {
    p.createdAt
  }

  /** What the project collection always satisfies: every project valid, stamped no
      later than now, ids below the next one and increasing, creation times in order. */
  ghost predicate TableOk(ps: seq<Project>, nextId: ObjectId, clock: int) {
    && (forall i :: 0 <= i < |ps| ==> ps[i].id < nextId && ProjectModel.Valid(ps[i]) && ps[i].updatedAt <= clock)
    && (forall i, j :: 0 <= i < j < |ps| ==> ps[i].id < ps[j].id)
    && AscendingBy(ps, CreatedAt)
  }

  /** Appending a valid project stamped now, with the next id, keeps the collection's
      invariant under the following id. */
  lemma TableOkAppend(ps: seq<Project>, nextId: ObjectId, clock: int, p: Project)
    requires TableOk(ps, nextId, clock)
    requires p.id == nextId && ProjectModel.Valid(p) && p.createdAt == clock == p.updatedAt
    ensures TableOk(ps + [p], nextId + 1, clock)
  {
    var r := ps + [p];
    assert forall k :: 0 <= k < |ps| ==> r[k] == ps[k];
    assert forall k :: 0 <= k < |ps| ==> ps[k].createdAt <= ps[k].updatedAt;
  }

  /** A later next id keeps the collection's invariant. */
  lemma TableOkNext(ps: seq<Project>, nextId: ObjectId, clock: int)
    requires TableOk(ps, nextId, clock)
    ensures TableOk(ps, nextId + 1, clock)
  {
  }

  /** The position of the project with id `id`, if any. */
  function Find(ps: seq<Project>, id: ObjectId): (r: Option<nat>)
    ensures r.Some? ==> r.value < |ps| && ps[r.value].id == id
    ensures r.None? ==> forall i :: 0 <= i < |ps| ==> ps[i].id != id
  {
    if ps == [] then None
    else if ps[0].id == id then Some(0)
    else
      var r := Find(ps[1..], id);
      if r.Some? then Some(r.value + 1) else None
  }

  class ProjectStore {
    /** The Project collection in creation order. */
    var projects: seq<Project>
    /** The id the next created project receives. */
    var nextId: ObjectId
    /** The database's current time. */
    var clock: int
    /** `ObjectId.isValid` together with the cast of a valid id string. */
    const castId: string -> Option<ObjectId>

    ghost predicate Valid()
      reads this
    {
      TableOk(projects, nextId, clock)
    }

    constructor (castId: string -> Option<ObjectId>, now: int)
      ensures Valid()
      ensures projects == [] && nextId == 0 && clock == now && this.castId == castId
    {
      projects := [];
      nextId := 0;
      clock := now;
      this.castId := castId;
    }

    /** Time passes on the database server. */
    method Tick(dt: nat)
      requires Valid()
      modifies this
      ensures Valid()
      ensures clock == old(clock) + dt && projects == old(projects) && nextId == old(nextId)
    {
      clock := clock + dt;
    }

    /** `GET /projects`: every project, newest first. */
    function List(): (r: seq<Project>)
      reads this
      requires Valid()
      ensures multiset(r) == multiset(projects)
      ensures DescendingBy(r, CreatedAt)
    {
      ReverseAscendingBy(projects, CreatedAt);
      ReverseMultiset(projects);
      Reverse(projects)
    }

    /** `POST /projects`: a body the schema accepts adds exactly one project and answers
        201; any other answers 400 and adds nothing. */
    method Create(body: Payload) returns (reply: Reply<Project>)
      requires Valid()
      modifies this
      ensures Valid()
      ensures clock == old(clock)
      ensures PV.ParseCreateProject(body).Err? ==>
                reply == Invalid(PV.ParseCreateProject(body).error) && projects == old(projects) && nextId == old(nextId)
      ensures reply.Success? <==> PV.ParseCreateProject(body).Ok?
      ensures reply.Success? ==>
        var input := PV.ParseCreateProject(body).value;
        && reply.status == Created
        && reply.value == Project(old(nextId), input.name, Some(input.description), clock, clock)
        && projects == old(projects) + [reply.value] && nextId == old(nextId) + 1
    {
      var parsed := PV.ParseCreateProject(body);
      if parsed.Err? {
        reply := Invalid(parsed.error);
        return;
      }
      AcceptedIsStorable(body);
      var project := ProjectModel.Create(nextId, parsed.value.name, Some(parsed.value.description), clock).value;
      TableOkAppend(projects, nextId, clock, project);
      projects := projects + [project];
      nextId := nextId + 1;
      reply := Success(Created, project);
    }

    /** `GET /projects/:id`. */
    function GetById(id: string): (reply: Reply<Project>)
      reads this
      ensures castId(id).None? ==> reply == InvalidId()
      ensures castId(id).Some? && (forall p :: p in projects ==> p.id != castId(id).value) ==> reply == Missing()
      ensures castId(id).Some? && (exists p :: p in projects && p.id == castId(id).value) ==> reply.Success?
      ensures reply.Success? ==> reply.status == OK && reply.value in projects && Some(reply.value.id) == castId(id)
    {
      match castId(id)
      case None => InvalidId()
      case Some(oid) =>
        var found := Find(projects, oid);
        if found.None? then Missing() else Success(OK, projects[found.value])
    }
  }
}
