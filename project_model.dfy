/** The stored project: a required name of at most 80 characters, an optional
    description of at most 240, and creation/update timestamps. */
module ProjectModel {
  import opened Wrappers
  import opened Json
  import PV = ProjectValidators

  type ObjectId = nat

  const NameMaxLength := 80
  const DescriptionMaxLength := 240

  datatype Project = Project(id: ObjectId, name: string, description: Option<string>, createdAt: int, updatedAt: int)

  /** The schema's validators: `required` refuses the empty string, `maxlength` bounds the rest. */
  predicate Storable(name: string, description: Option<string>) {
    name != "" && |name| <= NameMaxLength && (description.None? || |description.value| <= DescriptionMaxLength)
  }

  /** What every stored project satisfies. */
  predicate Valid(p: Project) {
    Storable(p.name, p.description) && p.createdAt <= p.updatedAt
  }

  /** `Project.create`: validate, then stamp both timestamps with the current time. */
  function Create(id: ObjectId, name: string, description: Option<string>, now: int): (r: Result<Project, seq<string>>)
    ensures r.Ok? <==> Storable(name, description)
    ensures r.Ok? ==> Valid(r.value) && r.value.createdAt == now && r.value.updatedAt == now
    ensures r.Ok? ==> r.value.id == id && r.value.name == name && r.value.description == description
    ensures r.Err? ==> r.error != []
  {
    var checks := [
      Check("name", name != "" && |name| <= NameMaxLength),
      Check("description", description.None? || |description.value| <= DescriptionMaxLength) ];
    var issues := Failing(checks);
    if issues == [] then
      assert checks[0].ok && checks[1].ok;
      Ok(Project(id, name, description, now, now))
    else
      assert !checks[0].ok || !checks[1].ok;
      Err(issues)
  }

  /** Whatever the creation schema accepts, the stored model accepts too. */
  lemma AcceptedIsStorable(p: Payload)
    requires PV.ParseCreateProject(p).Ok?
    ensures var c := PV.ParseCreateProject(p).value; Storable(c.name, Some(c.description))
  {
  }
}
