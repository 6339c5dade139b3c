/** Request bodies and socket payloads as they reach the validators: an object
    whose fields are strings, `null`, or some other JSON value. */
module Json {

  datatype Value = Str(s: string) | Null | Other

  type Body = map<string, Value>

  datatype Payload = Object(fields: Body) | NotObject

  /** The field is present and is a string whose length lies in lo..hi. */
  predicate StrBetween(b: Body, key: string, lo: nat, hi: nat) {
    key in b && b[key].Str? && lo <= |b[key].s| <= hi
  }

  /** The field is absent, or it is a string of at most hi characters. */
  predicate OptStrAtMost(b: Body, key: string, hi: nat) {
    key !in b || (b[key].Str? && |b[key].s| <= hi)
  }

  /** The string held by a field, or `default` when it is absent. */
  function StrOr(b: Body, key: string, default: string): string
    requires key in b ==> b[key].Str?
  {
    if key in b then b[key].s else default
  }

  /** One named check of a schema: the field path and whether it passed. */
  datatype Check = Check(path: string, ok: bool)

  /** The paths of the failed checks, in the schema's order: a validation error's issue list. */
  function Failing(checks: seq<Check>): (r: seq<string>)
    ensures r == [] <==> forall i :: 0 <= i < |checks| ==> checks[i].ok
    ensures forall p :: p in r <==> exists i :: 0 <= i < |checks| && checks[i].path == p && !checks[i].ok
  {
    if checks == [] then []
    else
      var rest := Failing(checks[1..]);
      assert forall i :: 1 <= i < |checks| ==> checks[i] == checks[1..][i - 1];
      (if checks[0].ok then [] else [checks[0].path]) + rest
  }
}
