/** The form schema: field types, fields, templates, submissions and the values a
    submission stores (types.ts). */
module Schema {
  import opened Wrappers

  /** The closed set of field types. */
  datatype FieldType = Text | Number | Date | Select | Checkbox | TextArea | File | MultiCheckbox

  /** The string token each field type is stored as: a non-empty lower-case word. */
  function Token(t: FieldType): (s: string)
    ensures |s| > 0 && forall i :: 0 <= i < |s| ==> 'a' <= s[i] <= 'z' || s[i] == '_'
  {
    match t
    case Text => "text"
    case Number => "number"
    case Date => "date"
    case Select => "select"
    case Checkbox => "checkbox"
    case TextArea => "textarea"
    case File => "file"
    case MultiCheckbox => "multi_checkbox"
  }

  /** The field type a token names, if any. */
  function ParseFieldType(s: string): (r: Option<FieldType>)
    ensures r.Some? ==> Token(r.value) == s
  {
    if s == "text" then Some(Text)
    else if s == "number" then Some(Number)
    else if s == "date" then Some(Date)
    else if s == "select" then Some(Select)
    else if s == "checkbox" then Some(Checkbox)
    else if s == "textarea" then Some(TextArea)
    else if s == "file" then Some(File)
    else if s == "multi_checkbox" then Some(MultiCheckbox)
    else None
  }

  /** Parsing inverts the token map, so the eight tokens are pairwise distinct. */
  lemma ParseToken(t: FieldType)
    ensures ParseFieldType(Token(t)) == Some(t)
  {
  }

  lemma TokensDistinct(t: FieldType, u: FieldType)
    ensures Token(t) == Token(u) ==> t == u
  {
    ParseToken(t);
    ParseToken(u);
  }

  /** The field types whose `options` list is meaningful. */
  predicate HasOptions(t: FieldType) {
    t == Select || t == MultiCheckbox
  }

  /** One input slot. `caption` is the field's display label (`label` is a reserved
      word in Dafny). `kind` is the stored `type` token: a template synthesised by
      the AI assistant may carry any string there, so the token is kept as a string
      and `Kind` recovers the enumeration value. */
  datatype FormField = FormField(
    id: string,
    caption: string,
    kind: string,
    required: bool,
    options: Option<seq<string>>,
    placeholder: Option<string>)
  {
    function Kind(): Option<FieldType> {
      ParseFieldType(kind)
    }
  }

  /** A field whose type token is one of the eight and which, when its type offers
      choices, has a non-empty list of them. */
  predicate WellFormedField(f: FormField) {
    && f.Kind().Some?
    && (HasOptions(f.Kind().value) ==> f.options.Some? && |f.options.value| > 0)
  }

  /** A named, ordered schema of fields. */
  datatype FormTemplate = FormTemplate(
    id: string,
    title: string,
    description: string,
    fields: seq<FormField>,
    createdAt: int)

  /** The ids of a template's fields are pairwise distinct. */
  predicate UniqueFieldIds(fields: seq<FormField>) {
    forall i, j :: 0 <= i < j < |fields| ==> fields[i].id != fields[j].id
  }

  /** One value of a submission's `data` record. `Absent` is JavaScript's `undefined`. */
  datatype Value = Absent | Str(s: string) | Arr(items: seq<string>) | Bool(b: bool)

  /** JavaScript truthiness: `undefined`, `""` and `false` are falsy; every array,
      even the empty one, is truthy. */
  predicate Falsy(v: Value) {
    v == Absent || v == Str("") || v == Bool(false)
  }

  /** One completed response. `formId` is a reference by id, not a copy of the template. */
  datatype FormSubmission = FormSubmission(
    id: string,
    formId: string,
    data: map<string, Value>,
    timestamp: nat)

  /** `data[id]`: a key that is not there reads as `undefined`. */
  function Lookup(data: map<string, Value>, id: string): (v: Value)
    ensures id in data ==> v == data[id]
    ensures id !in data ==> v == Absent
  {
    if id in data then data[id] else Absent
  }

  /** Reading after a write: the written key reads as the new value, every other key
      as before. */
  lemma LookupAfterWrite(data: map<string, Value>, id: string, v: Value, k: string)
    ensures Lookup(data[id := v], id) == v
    ensures k != id ==> Lookup(data[id := v], k) == Lookup(data, k)
  {
  }

  /** `templates.find(t => t.id === id)`: the first template with that id. */
  function FindTemplate(templates: seq<FormTemplate>, id: string): (r: Option<FormTemplate>)
    ensures r.None? <==> forall i :: 0 <= i < |templates| ==> templates[i].id != id
    ensures r.Some? ==> exists i :: 0 <= i < |templates| && templates[i] == r.value
                           && r.value.id == id
                           && forall j :: 0 <= j < i ==> templates[j].id != id
    decreases |templates|
  {
    if templates == [] then None
    else if templates[0].id == id then Some(templates[0])
    else
      var r := FindTemplate(templates[1..], id);
      if r.Some? then
        assert exists i :: 0 <= i < |templates| && templates[i] == r.value
                           && forall j :: 0 <= j < i ==> templates[j].id != id by {
          var k :| 0 <= k < |templates[1..]| && templates[1..][k] == r.value
                   && forall j :: 0 <= j < k ==> templates[1..][j].id != id;
          assert templates[k + 1] == r.value;
          forall j | 0 <= j < k + 1 ensures templates[j].id != id {
            if j > 0 { assert templates[j] == templates[1..][j - 1]; }
          }
        }
        r
      else
        assert forall i :: 1 <= i < |templates| ==> templates[i] == templates[1..][i - 1];
        r
  }

  /** True when a submission's template can be found. */
  predicate Resolves(templates: seq<FormTemplate>, s: FormSubmission) {
    exists i :: 0 <= i < |templates| && templates[i].id == s.formId
  }
}
