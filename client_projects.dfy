/** The projects page: the project form validator and the case-insensitive search
    over names and descriptions driven by the `q` query parameter. */
module ClientProjects {
  import opened Wrappers
  import opened Seqs
  import opened Text

  const NameMax := 80
  const DescriptionMax := 240

  /** The keys of the error object. */
  datatype Field = Name | Description

  /** The errors the form can show; `Wording` gives each one's text. */
  datatype Problem = NameRequired | NameTooLong | DescriptionTooLong

  function Key(f: Field): string {
    match f
    case Name => "name"
    case Description => "description"
  }

  function Wording(p: Problem): string {
    match p
    case NameRequired => "El nombre del proyecto es obligatorio."
    case NameTooLong => "M\U{E1}ximo 80 caracteres."
    case DescriptionTooLong => "M\U{E1}ximo 240 caracteres."
  }

  datatype ProjectForm = ProjectForm(name: string, description: string)

  predicate NameProblem(name: string) {
    Trim(name) == "" || |Trim(name)| > NameMax
  }

  /** `validateProject`: one message per field in trouble, the later name check winning. */
  method ValidateProject(v: ProjectForm) returns (errs: map<Field, Problem>)
    ensures Name in errs <==> NameProblem(v.name)
    ensures Name in errs ==> errs[Name] == if |Trim(v.name)| > NameMax then NameTooLong else NameRequired
    ensures Description in errs <==> |v.description| > DescriptionMax
    ensures Description in errs ==> errs[Description] == DescriptionTooLong
    ensures errs == map[] <==> !NameProblem(v.name) && |v.description| <= DescriptionMax
  {
    var name := Trim(v.name);
    errs := map[];
    if name == "" {
      errs := errs[Name := NameRequired];
    }
    if |name| > NameMax {
      errs := errs[Name := NameTooLong];
    }
    if |v.description| > DescriptionMax {
      errs := errs[Description := DescriptionTooLong];
    }
    assert errs == map[] ==> Name !in errs && Description !in errs;
  }

  /** A project as listed; a missing name or description reads as "". */
  datatype ClientProject = ClientProject(id: string, name: Option<string>, description: Option<string>)

  /** The lower-cased name or description contains the (lower-cased) query. */
  predicate Matches(p: ClientProject, q: string) {
    Contains(ToLower(p.name.GetOr("")), q) || Contains(ToLower(p.description.GetOr("")), q)
  }

  function Matching(q: string): ClientProject -> bool {
    (p: ClientProject) => Matches(p, q)
  }

  /** `filtered`: the query is `q` lower-cased (absent reads as ""); an empty query
      shows the list as it is, any other keeps exactly the matching projects. */
  function Search(items: seq<ClientProject>, query: Option<string>): (r: seq<ClientProject>)
    ensures ToLower(query.GetOr("")) == "" ==> r == items
    ensures forall p :: p in r <==> p in items && Matches(p, ToLower(query.GetOr("")))
  {
    var q := ToLower(query.GetOr(""));
    if q == "" then
      EmptyQueryMatchesAll(items);
      items
    else Filter(items, Matching(q))
  }

  /** Every string contains the empty string, so the shortcut for an empty query agrees
      with filtering. */
  lemma EmptyQueryMatchesAll(items: seq<ClientProject>)
    ensures forall p :: Matches(p, "")
    ensures Filter(items, Matching("")) == items
  {
    forall p: ClientProject ensures Matches(p, "") {
      assert OccursAt(ToLower(p.name.GetOr("")), "", 0);
    }
    FilterAll(items, Matching(""));
  }

  /** The result keeps the list's order: it is a subsequence of the items. */
  lemma SearchIsSubsequence(items: seq<ClientProject>, query: Option<string>)
    ensures IsSubsequence(Search(items, query), items)
  {
    var q := ToLower(query.GetOr(""));
    if q == "" {
      FilterIsSubsequence(items, Matching(""));
      EmptyQueryMatchesAll(items);
    } else {
      FilterIsSubsequence(items, Matching(q));
    }
  }

  /** Case does not matter: an upper-case query finds what its lower-case form finds. */
  lemma SearchIgnoresQueryCase(items: seq<ClientProject>, query: string)
    ensures Search(items, Some(query)) == Search(items, Some(ToLower(query)))
  {
    ToLowerIdempotent(query);
  }
}
