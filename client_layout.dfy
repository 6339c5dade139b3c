/** The page frame: the title chosen from the path, the toast list fed by `notify`
    events (the last five kept, each with a 4.5 s lifetime), toast removal, and the
    search box's navigation target. */
module ClientLayout {
  import opened Wrappers
  import opened Seqs
  import opened Text
  import CV = ChatValidators

  const ToastTtl := 4500
  /** How many earlier toasts survive an append. */
  const KeptToasts := 4

  /** The first matching prefix decides: `/projects/`, then `/projects`, then `/chat`. */
  function Title(path: string): (t: string)
    ensures t == "Proyecto" <==> StartsWith(path, "/projects/")
    ensures t == "Proyectos" <==> !StartsWith(path, "/projects/") && StartsWith(path, "/projects")
    ensures t == "Chat" <==> !StartsWith(path, "/projects") && StartsWith(path, "/chat")
    ensures t == "Dashboard" <==> !StartsWith(path, "/projects") && !StartsWith(path, "/chat")
  {
    if StartsWith(path, "/projects/") then "Proyecto"
    else if StartsWith(path, "/projects") then "Proyectos"
    else if StartsWith(path, "/chat") then "Chat"
    else "Dashboard"
  }

  /** A toast: a fresh id, the notification's fields and time, and its lifetime. */
  datatype Toast = Toast(id: string, note: CV.Notify, ts: int, ttl: int)

  /** `onNotify`: the last four toasts, then the new one. */
  function AppendToast(prev: seq<Toast>, note: CV.Notify, ts: int, id: string): (r: seq<Toast>)
    ensures 1 <= |r| <= KeptToasts + 1
    ensures r[|r| - 1] == Toast(id, note, ts, ToastTtl)
    ensures r[..|r| - 1] == KeepLast(prev, KeptToasts)
    ensures |prev| < KeptToasts + 1 ==> |r| == |prev| + 1
  {
    KeepLast(prev, KeptToasts) + [Toast(id, note, ts, ToastTtl)]
  }

  function Other(id: string): Toast -> bool {
    (t: Toast) => t.id != id
  }

  /** `removeToast`: drop the toasts with that id, keep the rest in order. */
  function RemoveToast(toasts: seq<Toast>, id: string): (r: seq<Toast>)
    ensures forall t :: t in r <==> t in toasts && t.id != id
    ensures |r| <= |toasts|
  {
    Filter(toasts, Other(id))
  }

  lemma RemoveToastKeepsOrder(toasts: seq<Toast>, id: string)
    ensures IsSubsequence(RemoveToast(toasts, id), toasts)
  {
    FilterIsSubsequence(toasts, Other(id));
  }

  /** Removing a toast just appended (with an id no earlier toast has) leaves the
      earlier toasts that survived the append. */
  lemma RemoveUndoesAppend(prev: seq<Toast>, note: CV.Notify, ts: int, id: string)
    requires forall t :: t in prev ==> t.id != id
    ensures RemoveToast(AppendToast(prev, note, ts, id), id) == KeepLast(prev, KeptToasts)
  {
    var kept := KeepLast(prev, KeptToasts);
    FilterAppend(kept, [Toast(id, note, ts, ToastTtl)], Other(id));
    assert forall i :: 0 <= i < |kept| ==> kept[i] in prev;
    FilterAll(kept, Other(id));
  }

  /** Any run of notifications leaves at most five toasts. */
  lemma {:induction false} ToastsStayBounded(prev: seq<Toast>, notes: seq<CV.Notify>, ts: int, ids: seq<string>)
    requires |prev| <= KeptToasts + 1 && |ids| == |notes|
    ensures |AppendAll(prev, notes, ts, ids)| <= KeptToasts + 1
    decreases |notes|
  {
    if notes != [] {
      ToastsStayBounded(AppendToast(prev, notes[0], ts, ids[0]), notes[1..], ts, ids[1..]);
    }
  }

  function AppendAll(prev: seq<Toast>, notes: seq<CV.Notify>, ts: int, ids: seq<string>): seq<Toast>
    requires |ids| == |notes|
    decreases |notes|
  {
    if notes == [] then prev else AppendAll(AppendToast(prev, notes[0], ts, ids[0]), notes[1..], ts, ids[1..])
  }

  const ProjectsPath := "/projects"
  const QueryPrefix := "/projects?q="

  /** `onSubmit`: `/projects` for a blank query, otherwise `/projects?q=` and the trimmed
      query as `URLSearchParams` encodes it (`encode`). */
  function SearchTarget(q: string, encode: string -> string): (url: string)
    ensures AllSpace(q) <==> url == ProjectsPath
  {
    TrimSpec(q);
    var t := Trim(q);
    if t == "" then ProjectsPath else QueryPrefix + encode(t)
  }

  /** The `q` parameter the projects page reads back (`decode` undoes the encoding). */
  function QueryOf(url: string, decode: string -> string): Option<string> {
    if StartsWith(url, QueryPrefix) then Some(decode(url[|QueryPrefix|..])) else None
  }

  /** When decoding undoes encoding, the projects page receives exactly the trimmed
      query, and no query at all for a blank one. */
  lemma SearchRoundTrip(q: string, encode: string -> string, decode: string -> string)
    requires forall s :: decode(encode(s)) == s
    ensures QueryOf(SearchTarget(q, encode), decode) == if AllSpace(q) then None else Some(Trim(q))
  {
    TrimSpec(q);
    if !AllSpace(q) {
      var url := SearchTarget(q, encode);
      assert url[|QueryPrefix|..] == encode(Trim(q));
    }
  }
}
