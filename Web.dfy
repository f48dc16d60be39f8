/** What the browser hands to the components: selected files, the multipart
    form that carries them, and JavaScript's "falsy" reading of optional
    strings. */
module Web {
  import opened Wrappers

  /** A file the user picked in the drop zone. */
  datatype File = File(name: string, size: nat, mimeType: string)

  /** One part of a `multipart/form-data` request: a field name and a file. */
  datatype FormPart = FormPart(field: string, file: File)

  /** A JSON value, for response bodies the model only passes through. */
  datatype Json =
    | JNull
    | JBool(b: bool)
    | JNumber(n: real)
    | JString(s: string)
    | JArray(items: seq<Json>)
    | JObject(fields: seq<(string, Json)>)

  /** Outcome of one awaited request: the response data, or a rejection whose
      response body may carry a `detail` field. */
  datatype Reply<T> = Delivered(data: T) | Failed(detail: Option<string>)

  /** JavaScript truthiness of an optional string: absent, `null` and `""`
      are all falsy. */
  predicate Truthy(s: Option<string>) {
    s.Some? && s.value != ""
  }

  /** `detail || fallback`: the server's `detail` when it is a non-empty
      string, otherwise the component's fixed message. */
  function ErrorMessage(detail: Option<string>, fallback: string): (m: string)
    ensures Truthy(detail) ==> m == detail.value
    ensures !Truthy(detail) ==> m == fallback
    ensures fallback != "" ==> m != ""
  {
    if Truthy(detail) then detail.value else fallback
  }

  /** The form both uploaders build: one part named `field` per file, in
      the order of `files` (the `forEach` over the selection). */
  method BuildForm(field: string, files: seq<File>) returns (form: seq<FormPart>)
    ensures |form| == |files|
    ensures forall i :: 0 <= i < |files| ==> form[i] == FormPart(field, files[i])
  {
    form := [];
    for i := 0 to |files|
      invariant |form| == i
      invariant forall k :: 0 <= k < i ==> form[k] == FormPart(field, files[k])
    {
      form := form + [FormPart(field, files[i])];
    }
  }
}
