/** The history view's pure logic (components/SubmissionsView.tsx): template titles,
    value formatting, the scope filter and the two CSV table shapes. */
module Export {
  import opened Schema
  import opened Text
  import opened Seqs
  import opened Wrappers

  /** The scope that selects every submission. */
  const AllScope := "all"
  const UnknownForm := "Unknown Form"
  const ImagePrefix := "data:image"
  const PhotoPlaceholder := "[Photo Attached]"
  const ItemSeparator := "; "
  const CellSeparator := ","
  const LineSeparator := "\n"
  const LongHeader := ["Timestamp", "Form Title", "Field Name", "Value"]

  /** `getTemplateTitle`: the title of the first template with that id, or the
      placeholder when there is none or its title is empty. */
  function TemplateTitle(templates: seq<FormTemplate>, id: string): (title: string)
    ensures (forall i :: 0 <= i < |templates| ==> templates[i].id != id) ==> title == UnknownForm
    ensures title == UnknownForm ||
              exists i :: 0 <= i < |templates| && templates[i].id == id && templates[i].title == title
                          && forall j :: 0 <= j < i ==> templates[j].id != id
    ensures forall i :: 0 <= i < |templates| && templates[i].id == id
                          && (forall j :: 0 <= j < i ==> templates[j].id != id) ==>
              title == if templates[i].title != "" then templates[i].title else UnknownForm
  {
    FirstMatchIsFound(templates, id);
    match FindTemplate(templates, id)
    case Some(t) => if t.title != "" then t.title else UnknownForm
    case None => UnknownForm
  }

  /** The template `find` returns is the one at the first index with that id. */
  lemma FirstMatchIsFound(templates: seq<FormTemplate>, id: string)
    ensures forall i :: 0 <= i < |templates| && templates[i].id == id
                          && (forall j :: 0 <= j < i ==> templates[j].id != id) ==>
              FindTemplate(templates, id) == Some(templates[i])
  {
    forall i | 0 <= i < |templates| && templates[i].id == id && (forall j :: 0 <= j < i ==> templates[j].id != id)
      ensures FindTemplate(templates, id) == Some(templates[i])
    {
      var r := FindTemplate(templates, id);
      var k :| 0 <= k < |templates| && templates[k] == r.value && r.value.id == id
               && forall j :: 0 <= j < k ==> templates[j].id != id;
      assert k == i;
    }
  }

  /** `formatValue`: lists joined with "; ", booleans as Ya/Tidak, image data URIs as
      a placeholder, anything else as its text with `undefined` as the empty string. */
  function FormatValue(v: Value): (r: string)
    ensures !v.Arr? ==> !StartsWith(r, ImagePrefix)
    ensures v.Str? && !StartsWith(v.s, ImagePrefix) ==> r == v.s
    ensures v == Absent || v == Str("") ==> r == ""
    ensures v.Str? && StartsWith(v.s, ImagePrefix) ==> r == PhotoPlaceholder
    ensures v.Bool? ==> r == (if v.b then "Ya" else "Tidak")
    ensures v.Arr? ==> r == Join(v.items, ItemSeparator)
  {
    assert PhotoPlaceholder[0] != ImagePrefix[0];
    match v
    case Arr(xs) => Join(xs, ItemSeparator)
    case Bool(b) => if b then "Ya" else "Tidak"
    case Str(s) => if s != "" && StartsWith(s, ImagePrefix) then PhotoPlaceholder else s
    case Absent => ""
  }

  /** A formatted multi-checkbox answer splits back into the selected options, when
      no option contains a semicolon. */
  lemma FormatListRoundTrip(xs: seq<string>)
    requires xs != [] && AllAvoid(xs, ';')
    ensures Split(FormatValue(Arr(xs)), ItemSeparator) == xs
  {
    SplitJoin(xs, ItemSeparator);
  }

  /** ``"${s}"``: wrapping in double quotes, with no escaping of the contents. */
  function Quote(s: string): (q: string)
    ensures |q| == |s| + 2 && q[0] == '"' && q[|q| - 1] == '"' && q[1..|q| - 1] == s
  {
    "\"" + s + "\""
  }

  predicate IsQuoted(cell: string) {
    |cell| >= 2 && cell[0] == '"' && cell[|cell| - 1] == '"'
  }

  /** A long-format row: four quoted cells. */
  predicate IsLongRow(row: seq<string>) {
    |row| == 4 && forall c :: 0 <= c < 4 ==> IsQuoted(row[c])
  }

  function HasFormId(formId: string): FormSubmission -> bool {
    (s: FormSubmission) => s.formId == formId
  }

  /** `filteredSubmissions` and the export's target set: every submission for the
      "all" scope, otherwise exactly those with that form id, in their order. */
  function TargetSubmissions(submissions: seq<FormSubmission>, scope: string): (r: seq<FormSubmission>)
    ensures scope == AllScope ==> r == submissions
    ensures scope != AllScope ==> forall i :: 0 <= i < |r| ==> r[i].formId == scope && r[i] in submissions
    ensures scope != AllScope ==>
              forall i :: 0 <= i < |submissions| ==> (submissions[i] in r <==> submissions[i].formId == scope)
    ensures scope != AllScope ==>
              forall x :: multiset(r)[x] == if x.formId == scope then multiset(submissions)[x] else 0
  {
    if scope == AllScope then submissions
    else
      var r := Filter(HasFormId(scope), submissions);
      assert forall x :: multiset(r)[x] == if x.formId == scope then multiset(submissions)[x] else 0 by {
        forall x ensures multiset(r)[x] == if x.formId == scope then multiset(submissions)[x] else 0 {
          FilterCount(HasFormId(scope), submissions, x);
        }
      }
      r
  }

  /** The scope filter works segment by segment, so it keeps the submissions' order. */
  lemma TargetConcat(a: seq<FormSubmission>, b: seq<FormSubmission>, scope: string)
    ensures TargetSubmissions(a + b, scope) == TargetSubmissions(a, scope) + TargetSubmissions(b, scope)
  {
    if scope != AllScope {
      FilterConcat(HasFormId(scope), a, b);
    }
  }

  /** The field labels of a template, in field order. */
  function Labels(fields: seq<FormField>): (ls: seq<string>)
    ensures |ls| == |fields| && forall j :: 0 <= j < |fields| ==> ls[j] == fields[j].caption
  {
    seq(|fields|, j requires 0 <= j < |fields| => fields[j].caption)
  }

  /** One wide-format row: the quoted formatted timestamp, then one quoted formatted
      value per field. */
  function WideRow(t: FormTemplate, sub: FormSubmission, formatTime: nat -> string): (row: seq<string>)
    ensures |row| == 1 + |t.fields|
    ensures row[0] == Quote(formatTime(sub.timestamp))
    ensures forall j :: 0 <= j < |t.fields| ==>
              row[j + 1] == Quote(FormatValue(Lookup(sub.data, t.fields[j].id)))
    ensures forall c :: 0 <= c < |row| ==> IsQuoted(row[c])
  {
    [Quote(formatTime(sub.timestamp))]
      + seq(|t.fields|, j requires 0 <= j < |t.fields| => Quote(FormatValue(Lookup(sub.data, t.fields[j].id))))
  }

  /** The single-template table: an unquoted header of "Timestamp" and the labels,
      then one row per submission. */
  function WideTable(t: FormTemplate, subs: seq<FormSubmission>, formatTime: nat -> string): (table: seq<seq<string>>)
    ensures |table| == 1 + |subs|
    ensures table[0] == ["Timestamp"] + Labels(t.fields)
    ensures forall i :: 0 <= i < |subs| ==> table[i + 1] == WideRow(t, subs[i], formatTime)
    ensures forall i :: 1 <= i < |table| ==>
              |table[i]| == 1 + |t.fields| && forall c :: 0 <= c < |table[i]| ==> IsQuoted(table[i][c])
  {
    var rows := seq(|subs|, i requires 0 <= i < |subs| => WideRow(t, subs[i], formatTime));
    assert forall i :: 1 <= i < 1 + |rows| ==> ([["Timestamp"] + Labels(t.fields)] + rows)[i] == rows[i - 1];
    [["Timestamp"] + Labels(t.fields)] + rows
  }

  /** The long-format rows of one submission: one per field of its template, none when
      the template cannot be found. */
  function LongRowsOf(templates: seq<FormTemplate>, sub: FormSubmission, formatTime: nat -> string): (rows: seq<seq<string>>)
    ensures FindTemplate(templates, sub.formId).None? ==> rows == []
    ensures |rows| == ResolvedFieldCount(templates, sub)
    ensures FindTemplate(templates, sub.formId).Some? ==>
              var t := FindTemplate(templates, sub.formId).value;
              && |rows| == |t.fields|
              && forall j :: 0 <= j < |t.fields| ==>
                   rows[j] == [Quote(formatTime(sub.timestamp)), Quote(t.title), Quote(t.fields[j].caption),
                               Quote(FormatValue(Lookup(sub.data, t.fields[j].id)))]
    ensures forall i :: 0 <= i < |rows| ==> IsLongRow(rows[i])
  {
    match FindTemplate(templates, sub.formId)
    case None => []
    case Some(t) =>
      seq(|t.fields|, j requires 0 <= j < |t.fields| =>
        [Quote(formatTime(sub.timestamp)), Quote(t.title), Quote(t.fields[j].caption),
         Quote(FormatValue(Lookup(sub.data, t.fields[j].id)))])
  }

  /** The number of fields of the template a submission resolves to, 0 for an orphan. */
  function ResolvedFieldCount(templates: seq<FormTemplate>, sub: FormSubmission): nat {
    match FindTemplate(templates, sub.formId)
    case None => 0
    case Some(t) => |t.fields|
  }

  /** The total number of (submission, field) pairs over resolvable submissions. */
  function PairCount(templates: seq<FormTemplate>, subs: seq<FormSubmission>): nat
    decreases |subs|
  {
    if subs == [] then 0 else ResolvedFieldCount(templates, subs[0]) + PairCount(templates, subs[1..])
  }

  /** Two runs of long-format rows concatenate into one. */
  lemma LongRowsJoin(first: seq<seq<string>>, rest: seq<seq<string>>)
    requires forall i :: 0 <= i < |first| ==> IsLongRow(first[i])
    requires forall i :: 0 <= i < |rest| ==> IsLongRow(rest[i])
    ensures forall i :: 0 <= i < |first + rest| ==> IsLongRow((first + rest)[i])
  {
    forall i | 0 <= i < |first + rest| ensures IsLongRow((first + rest)[i]) {
      if i >= |first| {
        assert (first + rest)[i] == rest[i - |first|];
      }
    }
  }

  /** The long-format rows of all submissions, in submission order (`flatMap`). */
  function LongRows(templates: seq<FormTemplate>, subs: seq<FormSubmission>, formatTime: nat -> string): (rows: seq<seq<string>>)
    ensures |rows| == PairCount(templates, subs)
    ensures forall i :: 0 <= i < |rows| ==> IsLongRow(rows[i])
    decreases |subs|
  {
    if subs == [] then []
    else
      var first := LongRowsOf(templates, subs[0], formatTime);
      var rest := LongRows(templates, subs[1..], formatTime);
      LongRowsJoin(first, rest);
      first + rest
  }

  /** One submission's rows are those of `LongRowsOf`. */
  lemma LongRowsSingle(templates: seq<FormTemplate>, s: FormSubmission, formatTime: nat -> string)
    ensures LongRows(templates, [s], formatTime) == LongRowsOf(templates, s, formatTime)
  {
    assert [s][1..] == [];
    assert LongRowsOf(templates, s, formatTime) + [] == LongRowsOf(templates, s, formatTime);
  }

  /** The long rows of consecutive runs of submissions are concatenated in order: the
      rows are `flatMap` of `LongRowsOf` over the submissions. */
  lemma {:induction false} LongRowsConcat(templates: seq<FormTemplate>, a: seq<FormSubmission>, b: seq<FormSubmission>,
                                          formatTime: nat -> string)
    ensures LongRows(templates, a + b, formatTime) == LongRows(templates, a, formatTime) + LongRows(templates, b, formatTime)
    decreases |a|
  {
    if a == [] {
      assert a + b == b;
    } else {
      assert (a + b)[0] == a[0];
      assert (a + b)[1..] == a[1..] + b;
      LongRowsConcat(templates, a[1..], b, formatTime);
    }
  }

  function IsResolved(templates: seq<FormTemplate>): FormSubmission -> bool {
    (s: FormSubmission) => FindTemplate(templates, s.formId).Some?
  }

  /** Orphan submissions contribute nothing: exporting only the resolvable ones gives
      the same rows. */
  lemma {:induction false} OrphansSkipped(templates: seq<FormTemplate>, subs: seq<FormSubmission>, formatTime: nat -> string)
    ensures LongRows(templates, Filter(IsResolved(templates), subs), formatTime) == LongRows(templates, subs, formatTime)
    decreases |subs|
  {
    if subs != [] {
      OrphansSkipped(templates, subs[1..], formatTime);
      var p := IsResolved(templates);
      var rest := Filter(p, subs[1..]);
      if p(subs[0]) {
        assert Filter(p, subs) == [subs[0]] + rest;
        assert ([subs[0]] + rest)[1..] == rest;
      } else {
        assert Filter(p, subs) == rest;
        assert LongRowsOf(templates, subs[0], formatTime) == [];
      }
    }
  }

  /** `[headers, ...rows].map(e => e.join(",")).join("\n")`. */
  function Render(table: seq<seq<string>>): (csv: string)
    ensures table != [] && PlainCells(table) ==> Split(csv, LineSeparator) == RenderLines(table)
  {
    var lines := RenderLines(table);
    assert table != [] && PlainCells(table) ==> Split(Join(lines, LineSeparator), LineSeparator) == lines by {
      if table != [] && PlainCells(table) {
        forall i | 0 <= i < |table| ensures Avoids(lines[i], '\n') {
          JoinAvoids(table[i], CellSeparator, '\n');
        }
        SplitJoin(lines, LineSeparator);
      }
    }
    Join(lines, LineSeparator)
  }

  function RenderLines(table: seq<seq<string>>): (lines: seq<string>)
    ensures |lines| == |table| && forall i :: 0 <= i < |table| ==> lines[i] == Join(table[i], CellSeparator)
  {
    seq(|table|, i requires 0 <= i < |table| => Join(table[i], CellSeparator))
  }

  /** No cell of the table contains a comma or a line break. */
  predicate PlainCells(table: seq<seq<string>>) {
    forall i :: 0 <= i < |table| ==> AllAvoid(table[i], ',') && AllAvoid(table[i], '\n')
  }

  /** Since nothing is escaped, the CSV text splits back into its table when no cell
      contains a comma or a line break: one line per row, one cell per comma. */
  lemma CsvRoundTrip(table: seq<seq<string>>)
    requires table != [] && (forall i :: 0 <= i < |table| ==> table[i] != [])
    requires PlainCells(table)
    ensures |Split(Render(table), LineSeparator)| == |table|
    ensures forall i :: 0 <= i < |table| ==> Split(Split(Render(table), LineSeparator)[i], CellSeparator) == table[i]
  {
    var lines := RenderLines(table);
    assert Split(Render(table), LineSeparator) == lines;
    forall i | 0 <= i < |table| ensures Split(lines[i], CellSeparator) == table[i] {
      SplitJoin(table[i], CellSeparator);
    }
  }

  /** The table `exportToCSV` writes, or `None` when it returns without output: the
      target set is empty, or a single-template scope names no template. */
  function ExportTable(scope: string, submissions: seq<FormSubmission>, templates: seq<FormTemplate>,
                       formatTime: nat -> string): (r: Option<seq<seq<string>>>)
    ensures r.None? <==> |TargetSubmissions(submissions, scope)| == 0
                         || (scope != AllScope && FindTemplate(templates, scope).None?)
    ensures r.Some? && scope != AllScope ==>
              r.value == WideTable(FindTemplate(templates, scope).value, TargetSubmissions(submissions, scope), formatTime)
    ensures r.Some? && scope == AllScope ==>
              r.value == [LongHeader] + LongRows(templates, submissions, formatTime)
  {
    var targets := TargetSubmissions(submissions, scope);
    if |targets| == 0 then None
    else if scope != AllScope then
      match FindTemplate(templates, scope)
      case None => None
      case Some(t) => Some(WideTable(t, targets, formatTime))
    else Some([LongHeader] + LongRows(templates, targets, formatTime))
  }

  /** `exportToCSV`'s text, or `None` when it produces no download. */
  function ExportToCsv(scope: string, submissions: seq<FormSubmission>, templates: seq<FormTemplate>,
                       formatTime: nat -> string): (r: Option<string>)
    ensures r.None? <==> ExportTable(scope, submissions, templates, formatTime).None?
    ensures r.Some? ==> r.value == Render(ExportTable(scope, submissions, templates, formatTime).value)
  {
    match ExportTable(scope, submissions, templates, formatTime)
    case None => None
    case Some(table) => Some(Render(table))
  }
}
