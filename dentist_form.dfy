/**
 * The add/edit form: its option tables, the initial field values, the
 * single-field update, and what a submission hands to `onSave`.
 */
module DentistForm {
  import opened JsText
  import opened DentistCard
  import CRMDashboard

  // ---------------------------------------------------------------------
  // Option tables
  // ---------------------------------------------------------------------

  /** `brazilianStates` */
  const BrazilianStates: seq<string> := [
    "AC", "AL", "AP", "AM", "BA", "CE", "DF", "ES", "GO", "MA",
    "MT", "MS", "MG", "PA", "PB", "PR", "PE", "PI", "RJ", "RN",
    "RS", "RO", "RR", "SC", "SP", "SE", "TO"
  ]

  predicate IsUpperAscii(c: char) {
    'A' <= c <= 'Z'
  }

  /** The 26 states and the Federal District, each a two-letter upper-case code. */
  lemma BrazilianStatesAreCodes()
    ensures |BrazilianStates| == 27
    ensures forall k :: 0 <= k < |BrazilianStates| ==>
      |BrazilianStates[k]| == 2 && IsUpperAscii(BrazilianStates[k][0]) && IsUpperAscii(BrazilianStates[k][1])
  {
  }

  /** No state in rows `lo` to `hi - 1` of the list is offered again further on. */
  predicate DistinctFrom(lo: nat, hi: nat) {
    forall i, j :: lo <= i < hi && i < j < |BrazilianStates| ==> BrazilianStates[i] != BrazilianStates[j]
  }

  lemma BrazilianStatesDistinctHead()
    ensures DistinctFrom(0, 6)
  {
    BrazilianStatesAreCodes();
    forall i, j | 0 <= i < 6 && i < j < |BrazilianStates| ensures BrazilianStates[i] != BrazilianStates[j] {
      assert BrazilianStates[i][0] != BrazilianStates[j][0] || BrazilianStates[i][1] != BrazilianStates[j][1];
    }
  }

  lemma BrazilianStatesDistinctMiddle()
    ensures DistinctFrom(6, 14)
  {
    BrazilianStatesAreCodes();
    forall i, j | 6 <= i < 14 && i < j < |BrazilianStates| ensures BrazilianStates[i] != BrazilianStates[j] {
      assert BrazilianStates[i][0] != BrazilianStates[j][0] || BrazilianStates[i][1] != BrazilianStates[j][1];
    }
  }

  lemma BrazilianStatesDistinctTail()
    ensures DistinctFrom(14, 27)
  {
    BrazilianStatesAreCodes();
    forall i, j | 14 <= i < 27 && i < j < |BrazilianStates| ensures BrazilianStates[i] != BrazilianStates[j] {
      assert BrazilianStates[i][0] != BrazilianStates[j][0] || BrazilianStates[i][1] != BrazilianStates[j][1];
    }
  }

  /** No state is offered twice. */
  lemma BrazilianStatesDistinct()
    ensures forall i, j :: 0 <= i < j < |BrazilianStates| ==> BrazilianStates[i] != BrazilianStates[j]
  {
    BrazilianStatesDistinctHead();
    BrazilianStatesDistinctMiddle();
    BrazilianStatesDistinctTail();
  }

  /** `specialties` */
  const Specialties: seq<string> := [
    "Orthodontics", "Endodontics", "Implants", "Prosthodontics",
    "Periodontics", "Pediatric Dentistry", "Aesthetic Dentistry"
  ]

  /** `statusOptions` */
  const StatusOptions: seq<string> := ["Prospecting", "Contacted", "Negotiation", "Closed", "Lost"]

  /** `specialtyLabels` */
  const FormSpecialtyLabels: map<string, string> := map[
    "Orthodontics" := "Ortodontia",
    "Endodontics" := "Endodontia",
    "Implants" := "Implantes",
    "Prosthodontics" := "Prótese",
    "Periodontics" := "Periodontia",
    "Pediatric Dentistry" := "Odontopediatria",
    "Aesthetic Dentistry" := "Dentística"
  ]

  /** `statusLabels` */
  const FormStatusLabels: map<string, string> := map[
    "Prospecting" := "Prospecção",
    "Contacted" := "Contatado",
    "Negotiation" := "Negociação",
    "Closed" := "Fechado",
    "Lost" := "Perdido"
  ]

  /** The form offers exactly the five stages, in board order. */
  lemma StatusOptionsAreTheStages()
    ensures |StatusOptions| == |AllStatuses|
    ensures forall k :: 0 <= k < |StatusOptions| ==> StatusOptions[k] == AllStatuses[k].Key()
  {
  }

  /** The form offers the seven specialty codes and labels them as the card does. */
  lemma SpecialtyTablesAgreeWithCard()
    ensures Specialties == SpecialtyCodes
    ensures FormSpecialtyLabels == SpecialtyLabels
  {
  }

  /** The form labels every stage as the card's badge does. */
  lemma StatusLabelsAgreeWithCard()
    ensures FormStatusLabels.Keys == set o | o in StatusOptions
    ensures forall s: Status :: s.Key() in FormStatusLabels && FormStatusLabels[s.Key()] == StatusLabel(s)
  {
    forall s: Status ensures s.Key() in FormStatusLabels && FormStatusLabels[s.Key()] == StatusLabel(s) {
      match s
      case Prospecting =>
      case Contacted =>
      case Negotiation =>
      case Closed =>
      case Lost =>
    }
  }

  // ---------------------------------------------------------------------
  // Initial values
  // ---------------------------------------------------------------------

  /** The nine fields that start empty when the lead does not have them. */
  const PlainFields: set<string> := {
    "name", "phone", "instagram", "clinic", "city", "state", "specialty",
    "last_contact_date", "notes"
  }

  /** Every key of `formData`. */
  const FormFields: set<string> := PlainFields + {"status", "account_manager"}

  /** `dentist?.f`, for a form that may have no lead. */
  function LeadField(dentist: Option<Record>, f: string): Option<string> {
    if dentist.Some? then Field(dentist.value, f) else None
  }

  /** The default a field falls back to when the lead has no value for it. */
  function DefaultValue(f: string): string {
    if f == "status" then Prospecting.Key()
    else if f == "account_manager" then "Usuário Demo"
    else ""
  }

  /** The initial `formData` for editing `dentist` (or for a new lead):
      each field is the lead's value when it has a non-empty one, and the
      field's default otherwise. */
  function InitialForm(dentist: Option<Record>): (r: Record)
    ensures r.Keys == FormFields
    ensures forall f :: f in FormFields ==>
      (LeadField(dentist, f).Some? && LeadField(dentist, f).value != "" ==> r[f] == LeadField(dentist, f).value)
      && (LeadField(dentist, f).None? || LeadField(dentist, f).value == "" ==>
            r[f] == (if f == "status" then "Prospecting" else if f == "account_manager" then "Usuário Demo" else ""))
  {
    map f | f in FormFields :: OrElse(LeadField(dentist, f), DefaultValue(f))
  }

  // ---------------------------------------------------------------------
  // Submission
  // ---------------------------------------------------------------------

  /** The test in `dataToSave`: a stage past prospecting with no date entered. */
  predicate NeedsContactDate(formData: Record) {
    Field(formData, "status") != Some(Prospecting.Key()) && Get(formData, "last_contact_date") == ""
  }

  /** `dataToSave` */
  function DataToSave(formData: Record, today: string): (r: Record)
    ensures NeedsContactDate(formData) ==> Field(r, "last_contact_date") == Some(today)
    ensures !NeedsContactDate(formData) ==> Field(r, "last_contact_date") == Field(formData, "last_contact_date")
    ensures forall k :: k != "last_contact_date" ==> Field(r, k) == Field(formData, k)
  {
    if NeedsContactDate(formData) then formData["last_contact_date" := today] else formData
  }

  /** What `handleSubmit` passes to `onSave`: `{ id, ...dataToSave }` with the
      lead's id when editing and `freshId` (for `Date.now().toString()`)
      otherwise. An edited lead without an id gives no id. */
  function Submit(formData: Record, dentist: Option<Record>, today: string, freshId: string): (r: Record)
    ensures NeedsContactDate(formData) ==> Field(r, "last_contact_date") == Some(today)
    ensures !NeedsContactDate(formData) ==> Field(r, "last_contact_date") == Field(formData, "last_contact_date")
    ensures forall k :: k != "id" && k != "last_contact_date" ==> Field(r, k) == Field(formData, k)
    ensures "id" in formData ==> Field(r, "id") == Some(formData["id"])
    ensures "id" !in formData && dentist.Some? ==> Field(r, "id") == Field(dentist.value, "id")
    ensures "id" !in formData && dentist.None? ==> Field(r, "id") == Some(freshId)
  {
    var id: Record := match LeadField(dentist, "id") {
      case Some(v) => map["id" := v]
      case None => if dentist.Some? then map[] else map["id" := freshId]
    };
    id + DataToSave(formData, today)
  }

  /** Opening a complete lead and saving it untouched gives the lead back:
      nothing is stamped, nothing is lost, and the id is kept. */
  lemma SubmitUntouchedRoundTrip(d: Record, today: string, freshId: string)
    requires d.Keys == FormFields + {"id"}
    requires forall f :: f in FormFields ==> d[f] != ""
    ensures Submit(InitialForm(Some(d)), Some(d), today, freshId) == d
  {
    var fd := InitialForm(Some(d));
    assert !NeedsContactDate(fd);
    var r := Submit(fd, Some(d), today, freshId);
    assert r.Keys == d.Keys;
    forall k | k in d.Keys ensures r[k] == d[k] {
      assert Field(r, k) == Field(d, k);
    }
  }

  /** A date the user entered is never replaced, whatever the stage. */
  lemma EnteredDateKept(formData: Record, dentist: Option<Record>, today: string, freshId: string)
    requires Get(formData, "last_contact_date") != ""
    ensures Submit(formData, dentist, today, freshId)["last_contact_date"] == formData["last_contact_date"]
  {
  }

  /** Saving an edit made in the form changes only the lead being edited,
      when ids are unique, and keeps them unique. */
  lemma EditFromFormChangesOnlyThatLead(ds: seq<Record>, j: nat, formData: Record, today: string, freshId: string)
    requires CRMDashboard.UniqueIds(ds) && j < |ds| && "id" !in formData
    ensures var saved := Submit(formData, Some(ds[j]), today, freshId);
      var r := CRMDashboard.Edited(ds, saved);
      |r| == |ds| && r[j] == ds[j] + saved
      && (forall k :: 0 <= k < |ds| && k != j ==> r[k] == ds[k])
      && CRMDashboard.UniqueIds(r)
  {
    var saved := Submit(formData, Some(ds[j]), today, freshId);
    assert Field(saved, "id") == Some(ds[j]["id"]);
    forall k | 0 <= k < |ds| && k != j ensures !CRMDashboard.SameId(ds[k], saved) {
    }
    CRMDashboard.EditKeepsIdsUnique(ds, saved);
  }

  // ---------------------------------------------------------------------
  // The component's state
  // ---------------------------------------------------------------------

  class Form {
    const dentist: Option<Record>
    var formData: Record

    constructor (dentist: Option<Record>)
      ensures this.dentist == dentist && formData == InitialForm(dentist)
      ensures formData.Keys == FormFields
    {
      this.dentist := dentist;
      formData := InitialForm(dentist);
    }

    /** `handleInputChange(field, value)`: only `field` changes. */
    method HandleInputChange(field: string, value: string)
      modifies this
      ensures formData == old(formData)[field := value]
      ensures formData[field] == value
      ensures forall k :: k != field ==> Field(formData, k) == Field(old(formData), k)
      ensures field in FormFields && old(formData).Keys == FormFields ==> formData.Keys == FormFields
    {
      formData := formData[field := value];
    }

    /** `handleSubmit`: the record handed to `onSave`. */
    method HandleSubmit(today: string, freshId: string) returns (saved: Record)
      ensures saved == Submit(formData, dentist, today, freshId)
    {
      saved := Submit(formData, dentist, today, freshId);
    }
  }
}
