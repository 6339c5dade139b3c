/** The project creation schema: a name of 1..80 characters and a description of at
    most 240, "" when absent. Other fields are dropped. */
module ProjectValidators {
  import opened Wrappers
  import opened Json

  const NameMax := 80
  const DescriptionMax := 240

  datatype CreateProject = CreateProject(name: string, description: string)

  predicate CreateOk(b: Body) {
    StrBetween(b, "name", 1, NameMax) && OptStrAtMost(b, "description", DescriptionMax)
  }

  /** `createProjectSchema.parse`. */
  function ParseCreateProject(p: Payload): (r: Result<CreateProject, seq<string>>)
    ensures r.Ok? <==> p.Object? && CreateOk(p.fields)
    ensures r.Ok? ==> 1 <= |r.value.name| <= NameMax && |r.value.description| <= DescriptionMax
    ensures r.Ok? ==> r.value.name == p.fields["name"].s
    ensures r.Ok? ==> r.value.description == if "description" in p.fields then p.fields["description"].s else ""
    ensures r.Err? ==> r.error != []
    ensures r.Err? && p.Object? ==>
      ("name" in r.error <==> !StrBetween(p.fields, "name", 1, NameMax))
      && ("description" in r.error <==> !OptStrAtMost(p.fields, "description", DescriptionMax))
  {
    match p
    case NotObject => Err([""])
    case Object(b) =>
      var checks := [
        Check("name", StrBetween(b, "name", 1, NameMax)),
        Check("description", OptStrAtMost(b, "description", DescriptionMax)) ];
      var issues := Failing(checks);
      if issues == [] then
        assert checks[0].ok && checks[1].ok;
        Ok(CreateProject(b["name"].s, StrOr(b, "description", "")))
      else
        assert "name" in issues <==> !checks[0].ok by { assert checks[1].path != "name"; }
        assert "description" in issues <==> !checks[1].ok by { assert checks[0].path != "description"; }
        Err(issues)
  }

  /** The parsed value written back as a payload. */
  function CreateProjectPayload(c: CreateProject): Payload {
    Object(map["name" := Str(c.name), "description" := Str(c.description)])
  }

  /** Parsing is idempotent: a parsed project parses again to itself. */
  lemma CreateProjectReparse(p: Payload)
    requires ParseCreateProject(p).Ok?
    ensures ParseCreateProject(CreateProjectPayload(ParseCreateProject(p).value)) == ParseCreateProject(p)
  {
    var c := ParseCreateProject(p).value;
    assert CreateOk(CreateProjectPayload(c).fields);
  }
}
