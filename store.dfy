/** The application shell of App.tsx: the template and submission collections, the
    built-in seed templates, and the add/delete actions. */
module Store {
  import opened Schema
  import opened Seqs
  import opened Wrappers

  /** A field with no options and no placeholder. */
  function Plain(id: string, caption: string, t: FieldType, required: bool): FormField {
    FormField(id, caption, Token(t), required, None, None)
  }

  /** A choice field with its options. */
  function Choice(id: string, caption: string, t: FieldType, required: bool, options: seq<string>): FormField {
    FormField(id, caption, Token(t), required, Some(options), None)
  }

  const InspectionFields: seq<FormField> := [
    Plain("i1", "Tanggal Inspeksi", Date, true),
    Plain("i2", "Nama Inspektor", Text, true),
    Plain("i3", "Lokasi / Area", Text, true),
    Choice("i4", "Jenis Temuan", Select, true, ["Unsafe Act", "Unsafe Condition"]),
    Plain("i5", "Keterangan", TextArea, true),
    Plain("i6", "Follow-up Action", TextArea, true),
    Choice("i7", "Status", Select, true, ["Open", "Close"]),
    Plain("i8", "Photo Upload", File, false)
  ]

  const BriefingFields: seq<FormField> := [
    Plain("b1", "Tanggal", Date, true),
    Plain("b2", "Nama Pembicara", Text, true),
    Plain("b3", "Lokasi / Area", Text, true),
    Plain("b4", "Topik Briefing", Text, true),
    Plain("b5", "Keterangan", TextArea, false),
    Plain("b6", "Photo Upload", File, false)
  ]

  const IncidentFields: seq<FormField> := [
    Plain("r1", "Tanggal Kejadian", Date, true),
    FormField("r2", "Waktu Kejadian", Token(Text), true, None, Some("HH:mm")),
    Plain("r3", "Lokasi Kejadian", Text, true),
    Plain("r4", "Nama Pelapor", Text, true),
    Plain("r5", "Nama Pekerja Terlibat", Text, true),
    Choice("r6", "Jenis Kejadian", Select, true,
           ["Near Miss", "Fire Case", "Property Damage", "First Aid", "Medical Treatment",
            "Restricted Work Case", "Lost Time Injury", "Fatality"]),
    Plain("r7", "Kronologi Kejadian", TextArea, true),
    Choice("r8", "Faktor Penyebab", MultiCheckbox, true,
           ["Faktor Personil", "Faktor Alat", "Faktor Metode/Prosedur", "Faktor Lingkungan"]),
    Plain("r9", "Keterangan", TextArea, false),
    Plain("r10", "Tindakan Perbaikan", TextArea, true),
    Plain("r11", "Tindakan Pencegahan", TextArea, true),
    Plain("r12", "Photo Upload", File, false)
  ]

  const PunishmentFields: seq<FormField> := [
    Plain("p7", "Tanggal Pelaporan", Date, true),
    Plain("p1", "Nama Pelapor", Text, true),
    Plain("p2", "Nama Pelanggar", Text, true),
    Plain("p3", "Jabatan Pelanggar", Text, true),
    Plain("p4", "Jenis Pelanggaran", Text, true),
    Plain("p5", "Keterangan", TextArea, true),
    Plain("p6", "Poin Pelanggaran", Number, true)
  ]

  /** The four built-in templates, created at clock reading `now`. */
  function SeedTemplates(now: int): (ts: seq<FormTemplate>)
    ensures |ts| == 4
    ensures ts[0].id == "tpl-inspection" && ts[1].id == "tpl-briefing"
    ensures ts[2].id == "tpl-incident" && ts[3].id == "tpl-punishment"
    ensures forall k :: 0 <= k < 4 ==> ts[k].createdAt == now - 1000 * k
    ensures |ts[0].fields| == 8 && |ts[1].fields| == 6 && |ts[2].fields| == 12 && |ts[3].fields| == 7
  {
    [
      FormTemplate("tpl-inspection", "Inspection Form",
                   "Laporan inspeksi rutin area kerja dan temuan K3.", InspectionFields, now),
      FormTemplate("tpl-briefing", "Safety Briefing Log",
                   "Catatan pelaksanaan briefing keselamatan harian atau mingguan.", BriefingFields, now - 1000),
      FormTemplate("tpl-incident", "Incident Report",
                   "Laporan detail kejadian kecelakaan kerja atau nyaris celaka (near miss).", IncidentFields, now - 2000),
      FormTemplate("tpl-punishment", "Safety Punishment",
                   "Catatan pelanggaran aturan K3 dan pemberian poin sanksi.", PunishmentFields, now - 3000)
    ]
  }

  /** The seed templates have distinct ids. */
  lemma SeedIdsDistinct(now: int)
    ensures forall i, j :: 0 <= i < j < 4 ==> SeedTemplates(now)[i].id != SeedTemplates(now)[j].id
  {
  }

  /** What every seed template's field list satisfies: distinct field ids, known type
      tokens, and options for every select and multi-checkbox field. */
  predicate SeedShaped(fields: seq<FormField>) {
    UniqueFieldIds(fields) && forall j :: 0 <= j < |fields| ==> WellFormedField(fields[j])
  }

  /** Fields built by `Plain` (of a type without options) and by `Choice` (with a
      non-empty option list) are well formed. */
  lemma BuildersWellFormed()
    ensures forall id, c, t, r :: !HasOptions(t) ==> WellFormedField(Plain(id, c, t, r))
    ensures forall id, c, t, r, os :: |os| > 0 ==> WellFormedField(Choice(id, c, t, r, os))
  {
    forall t: FieldType ensures ParseFieldType(Token(t)) == Some(t) {
      ParseToken(t);
    }
  }

  lemma InspectionShaped() ensures SeedShaped(InspectionFields) {
    BuildersWellFormed();
  }

  lemma BriefingShaped() ensures SeedShaped(BriefingFields) {
    BuildersWellFormed();
  }

  lemma IncidentShaped() ensures SeedShaped(IncidentFields) {
    IncidentIdsUnique();
    BuildersWellFormed();
    ParseToken(Text);
  }

  lemma IncidentIdsUnique() ensures UniqueFieldIds(IncidentFields) {
    var ids := seq(|IncidentFields|, i requires 0 <= i < |IncidentFields| => IncidentFields[i].id);
    assert ids == ["r1", "r2", "r3", "r4", "r5", "r6", "r7", "r8", "r9", "r10", "r11", "r12"];
    assert forall i, j :: 0 <= i < j < |ids| ==> ids[i] != ids[j];
  }

  lemma PunishmentShaped() ensures SeedShaped(PunishmentFields) {
    BuildersWellFormed();
  }

  /** Within each seed template the field ids are distinct, every type token is one of
      the eight, and every select and multi-checkbox field lists its options. */
  lemma SeedFieldsWellFormed(now: int)
    ensures forall k :: 0 <= k < 4 ==> SeedShaped(SeedTemplates(now)[k].fields)
  {
    InspectionShaped();
    BriefingShaped();
    IncidentShaped();
    PunishmentShaped();
  }

  /** The template list after start-up: the saved list when it is present and
      non-empty, the seed templates otherwise; it is never empty. */
  function InitialTemplates(saved: Option<seq<FormTemplate>>, now: int): (ts: seq<FormTemplate>)
    ensures ts != []
    ensures saved.Some? && saved.value != [] ==> ts == saved.value
    ensures saved.None? || saved.value == [] ==> ts == SeedTemplates(now)
  {
    if saved.Some? && |saved.value| > 0 then saved.value else SeedTemplates(now)
  }

  function TemplateIdIsNot(id: string): FormTemplate -> bool {
    (t: FormTemplate) => t.id != id
  }

  function FormIdIsNot(id: string): FormSubmission -> bool {
    (s: FormSubmission) => s.formId != id
  }

  function SubmissionIdIsNot(id: string): FormSubmission -> bool {
    (s: FormSubmission) => s.id != id
  }

  /** Every submission's template can be found: no orphans. */
  ghost predicate AllResolve(templates: seq<FormTemplate>, submissions: seq<FormSubmission>) {
    forall i :: 0 <= i < |submissions| ==> Resolves(templates, submissions[i])
  }

  /** Deleting a template together with its submissions creates no orphan. */
  lemma CascadeKeepsResolution(templates: seq<FormTemplate>, submissions: seq<FormSubmission>, id: string)
    requires AllResolve(templates, submissions)
    ensures AllResolve(Filter(TemplateIdIsNot(id), templates), Filter(FormIdIsNot(id), submissions))
  {
    var ts := Filter(TemplateIdIsNot(id), templates);
    var ss := Filter(FormIdIsNot(id), submissions);
    forall i | 0 <= i < |ss| ensures Resolves(ts, ss[i]) {
      var s := ss[i];
      assert s in submissions && s.formId != id;
      var k :| 0 <= k < |submissions| && submissions[k] == s;
      assert Resolves(templates, submissions[k]);
      var j :| 0 <= j < |templates| && templates[j].id == s.formId;
      assert TemplateIdIsNot(id)(templates[j]);
      assert templates[j] in ts;
      var m :| 0 <= m < |ts| && ts[m] == templates[j];
    }
  }

  /** Deleting single submissions never creates an orphan. */
  lemma DeleteSubmissionKeepsResolution(templates: seq<FormTemplate>, submissions: seq<FormSubmission>, id: string)
    requires AllResolve(templates, submissions)
    ensures AllResolve(templates, Filter(SubmissionIdIsNot(id), submissions))
  {
    var ss := Filter(SubmissionIdIsNot(id), submissions);
    forall i | 0 <= i < |ss| ensures Resolves(templates, ss[i]) {
      var k :| 0 <= k < |submissions| && submissions[k] == ss[i];
      assert Resolves(templates, submissions[k]);
    }
  }

  /** The views the shell switches between. */
  datatype Tab = Home | Ai | History

  /** The application state of App.tsx. */
  class AppState {
    var templates: seq<FormTemplate>
    var submissions: seq<FormSubmission>
    var activeTab: Tab
    var selectedTemplate: Option<FormTemplate>
    var isFilling: bool

    /** Start-up: load the saved collections, seeding the templates when the saved list
        is missing or empty. */
    constructor Load(savedTemplates: Option<seq<FormTemplate>>, savedSubmissions: Option<seq<FormSubmission>>, now: int)
      ensures templates == InitialTemplates(savedTemplates, now)
      ensures submissions == if savedSubmissions.Some? then savedSubmissions.value else []
      ensures activeTab == Home && selectedTemplate == None && !isFilling
    {
      templates := InitialTemplates(savedTemplates, now);
      submissions := if savedSubmissions.Some? then savedSubmissions.value else [];
      activeTab := Home;
      selectedTemplate := None;
      isFilling := false;
    }

    /** `addTemplate`: prepend and return to the template list. */
    method AddTemplate(t: FormTemplate)
      modifies this
      ensures templates == [t] + old(templates)
      ensures submissions == old(submissions) && activeTab == Home
      ensures selectedTemplate == old(selectedTemplate) && isFilling == old(isFilling)
      ensures AllResolve(old(templates), old(submissions)) ==> AllResolve(templates, submissions)
    {
      templates := [t] + templates;
      activeTab := Home;
      forall i | 0 <= i < |submissions| && Resolves(old(templates), submissions[i])
        ensures Resolves(templates, submissions[i])
      {
        var j :| 0 <= j < |old(templates)| && old(templates)[j].id == submissions[i].formId;
        assert templates[j + 1] == old(templates)[j];
      }
    }

    /** `handleStartFill`: open a template for filling. */
    method StartFill(t: FormTemplate)
      modifies this
      ensures selectedTemplate == Some(t) && isFilling
      ensures templates == old(templates) && submissions == old(submissions) && activeTab == old(activeTab)
    {
      selectedTemplate := Some(t);
      isFilling := true;
    }

    /** The cancel buttons: leave the filling view without submitting anything. */
    method CancelFill()
      modifies this
      ensures !isFilling
      ensures templates == old(templates) && submissions == old(submissions)
      ensures selectedTemplate == old(selectedTemplate) && activeTab == old(activeTab)
    {
      isFilling := false;
    }

    /** `addSubmission`: prepend, end the filling session and show the history. */
    method AddSubmission(s: FormSubmission)
      modifies this
      ensures submissions == [s] + old(submissions)
      ensures templates == old(templates)
      ensures !isFilling && selectedTemplate == None && activeTab == History
      ensures AllResolve(old(templates), old(submissions)) && Resolves(templates, s) ==>
                AllResolve(templates, submissions)
    {
      submissions := [s] + submissions;
      isFilling := false;
      selectedTemplate := None;
      activeTab := History;
      assert forall i :: 1 <= i < |submissions| ==> submissions[i] == old(submissions)[i - 1];
    }

    /** `deleteTemplate`: when confirmed, remove the templates with that id and every
        submission that refers to it; when declined, change nothing. */
    method DeleteTemplate(id: string, confirmed: bool)
      modifies this
      ensures confirmed ==> templates == Filter(TemplateIdIsNot(id), old(templates))
      ensures confirmed ==> submissions == Filter(FormIdIsNot(id), old(submissions))
      ensures !confirmed ==> templates == old(templates) && submissions == old(submissions)
      ensures activeTab == old(activeTab) && selectedTemplate == old(selectedTemplate) && isFilling == old(isFilling)
      ensures forall i :: 0 <= i < |submissions| ==> confirmed ==> submissions[i].formId != id
      ensures AllResolve(old(templates), old(submissions)) ==> AllResolve(templates, submissions)
    {
      if confirmed {
        if AllResolve(templates, submissions) {
          CascadeKeepsResolution(templates, submissions, id);
        }
        templates := Filter(TemplateIdIsNot(id), templates);
        submissions := Filter(FormIdIsNot(id), submissions);
      }
    }

    /** The history view's delete: remove the submissions with that id. */
    method DeleteSubmission(id: string)
      modifies this
      ensures submissions == Filter(SubmissionIdIsNot(id), old(submissions))
      ensures templates == old(templates)
      ensures activeTab == old(activeTab) && selectedTemplate == old(selectedTemplate) && isFilling == old(isFilling)
      ensures AllResolve(old(templates), old(submissions)) ==> AllResolve(templates, submissions)
    {
      if AllResolve(templates, submissions) {
        DeleteSubmissionKeepsResolution(templates, submissions, id);
      }
      submissions := Filter(SubmissionIdIsNot(id), submissions);
    }
  }
}
