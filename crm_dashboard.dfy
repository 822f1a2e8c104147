/**
 * The dashboard owns the lead collection `dentists` and replaces it on add,
 * edit, delete and status change. Each new value is computed from the old
 * one by the pure functions below; the class applies them.
 */
module CRMDashboard {
  import opened JsText
  import opened Seqs
  import opened DentistCard

  /** `dentist.id === id` for an id that is a string. */
  predicate HasId(d: Record, id: string) {
    Field(d, "id") == Some(id)
  }

  /** `dentist.id === dentistData.id`, where either side may be `undefined`. */
  predicate SameId(d: Record, data: Record) {
    Field(d, "id") == Field(data, "id")
  }

  /** The ids of the collection, in order (`undefined` where a record has none). */
  function Ids(ds: seq<Record>): (r: seq<Option<string>>)
    ensures |r| == |ds|
    ensures forall k :: 0 <= k < |ds| ==> r[k] == Field(ds[k], "id")
  {
    if ds == [] then [] else [Field(ds[0], "id")] + Ids(ds[1..])
  }

  /** Every record has an id and no two records share one. */
  predicate UniqueIds(ds: seq<Record>) {
    (forall k :: 0 <= k < |ds| ==> "id" in ds[k])
    && (forall i, j :: 0 <= i < j < |ds| ==> ds[i]["id"] != ds[j]["id"])
  }

  // ---------------------------------------------------------------------
  // handleAddDentist
  // ---------------------------------------------------------------------

  /** `[...prev, { ...dentistData, id: freshId }]` */
  function Added(ds: seq<Record>, data: Record, freshId: string): (r: seq<Record>)
    ensures |r| == |ds| + 1
    ensures r[..|ds|] == ds
    ensures Field(r[|ds|], "id") == Some(freshId)
    ensures forall k :: k != "id" ==> Field(r[|ds|], k) == Field(data, k)
  {
    ds + [data["id" := freshId]]
  }

  /** Adding under an id no record has keeps the ids unique. */
  lemma AddKeepsIdsUnique(ds: seq<Record>, data: Record, freshId: string)
    requires UniqueIds(ds)
    requires forall k :: 0 <= k < |ds| ==> ds[k]["id"] != freshId
    ensures UniqueIds(Added(ds, data, freshId))
  {
    var r := Added(ds, data, freshId);
    forall i, j | 0 <= i < j < |r| ensures r[i]["id"] != r[j]["id"] {
      if j < |ds| {
        assert r[i] == ds[i] && r[j] == ds[j];
      } else {
        assert r[i] == ds[i];
      }
    }
  }

  // ---------------------------------------------------------------------
  // handleEditDentist
  // ---------------------------------------------------------------------

  /** `prev.map(d => d.id === data.id ? { ...d, ...data } : d)` */
  function Edited(ds: seq<Record>, data: Record): (r: seq<Record>)
    ensures |r| == |ds|
    ensures forall k :: 0 <= k < |ds| && SameId(ds[k], data) ==> r[k] == ds[k] + data
    ensures forall k :: 0 <= k < |ds| && !SameId(ds[k], data) ==> r[k] == ds[k]
  {
    if ds == [] then []
    else [if SameId(ds[0], data) then ds[0] + data else ds[0]] + Edited(ds[1..], data)
  }

  /** In a merged record the supplied fields win and the others are kept. */
  lemma MergeFields(d: Record, data: Record, k: string)
    ensures k in data ==> Field(d + data, k) == Field(data, k)
    ensures k !in data ==> Field(d + data, k) == Field(d, k)
  {
  }

  /** An edit whose id matches no record leaves the collection as it was. */
  lemma EditNoMatchUnchanged(ds: seq<Record>, data: Record)
    requires forall k :: 0 <= k < |ds| ==> !SameId(ds[k], data)
    ensures Edited(ds, data) == ds
  {
  }

  /** An edit never changes an id: a record is only merged with data carrying its own id. */
  lemma EditKeepsIds(ds: seq<Record>, data: Record)
    ensures Ids(Edited(ds, data)) == Ids(ds)
  {
    var r := Edited(ds, data);
    forall k | 0 <= k < |ds| ensures Field(r[k], "id") == Field(ds[k], "id") {
      MergeFields(ds[k], data, "id");
    }
  }

  lemma UniqueIdsFromIds(a: seq<Record>, b: seq<Record>)
    requires UniqueIds(a) && Ids(b) == Ids(a)
    ensures UniqueIds(b)
  {
    forall k | 0 <= k < |b| ensures "id" in b[k] {
      assert Ids(b)[k] == Ids(a)[k];
    }
    forall i, j | 0 <= i < j < |b| ensures b[i]["id"] != b[j]["id"] {
      assert Ids(b)[i] == Ids(a)[i] && Ids(b)[j] == Ids(a)[j];
    }
  }

  lemma EditKeepsIdsUnique(ds: seq<Record>, data: Record)
    requires UniqueIds(ds)
    ensures UniqueIds(Edited(ds, data))
  {
    EditKeepsIds(ds, data);
    UniqueIdsFromIds(ds, Edited(ds, data));
  }

  /** Submitting the same edit twice has the effect of submitting it once. */
  lemma EditIdempotent(ds: seq<Record>, data: Record)
    ensures Edited(Edited(ds, data), data) == Edited(ds, data)
  {
    var r := Edited(ds, data);
    forall k | 0 <= k < |ds| ensures Edited(r, data)[k] == r[k] {
      MergeFields(ds[k], data, "id");
      if SameId(ds[k], data) {
        assert r[k] + data == ds[k] + data + data;
        assert ds[k] + data + data == ds[k] + data;
      }
    }
  }

  // ---------------------------------------------------------------------
  // handleDeleteDentist
  // ---------------------------------------------------------------------

  /** The filter predicate `d => d.id !== id`. */
  function HasOtherId(id: string): Record -> bool {
    d => !HasId(d, id)
  }

  /** `prev.filter(d => d.id !== id)` */
  function Deleted(ds: seq<Record>, id: string): (r: seq<Record>)
    ensures forall k :: 0 <= k < |r| ==> !HasId(r[k], id)
    ensures forall d :: d in ds && !HasId(d, id) ==> d in r
    ensures IsSubsequence(r, ds)
    ensures |r| == CountWhere(HasOtherId(id), ds)
  {
    Filter(HasOtherId(id), ds)
  }

  /** Deleting an id no record has leaves the collection as it was. */
  lemma DeleteAbsentUnchanged(ds: seq<Record>, id: string)
    requires forall k :: 0 <= k < |ds| ==> !HasId(ds[k], id)
    ensures Deleted(ds, id) == ds
  {
    FilterAll(HasOtherId(id), ds);
  }

  /** With unique ids, deleting a present id removes exactly one record. */
  lemma DeleteRemovesOne(ds: seq<Record>, id: string, j: nat)
    requires UniqueIds(ds) && j < |ds| && HasId(ds[j], id)
    ensures Deleted(ds, id) == ds[..j] + ds[j + 1..]
  {
    var p := HasOtherId(id);
    var front, back := ds[..j], ds[j + 1..];
    assert ds == front + [ds[j]] + back;
    forall x | x in front ensures p(x) {
      var m :| 0 <= m < |front| && front[m] == x;
      assert ds[m]["id"] != ds[j]["id"];
    }
    forall x | x in back ensures p(x) {
      var m :| 0 <= m < |back| && back[m] == x;
      assert ds[j + 1 + m]["id"] != ds[j]["id"];
    }
    FilterConcat(p, front, [ds[j]]);
    FilterAll(p, front);
    FilterNone(p, [ds[j]]);
    assert Filter(p, front + [ds[j]]) == front;
    FilterConcat(p, front + [ds[j]], back);
    FilterAll(p, back);
  }

  /** A subsequence of a collection with unique ids has unique ids. */
  lemma {:induction false} SubsequenceKeepsIdsUnique(a: seq<Record>, b: seq<Record>)
    requires IsSubsequence(a, b) && UniqueIds(b)
    ensures UniqueIds(a)
    decreases |b|
  {
    if a != [] {
      assert b != [];
      assert UniqueIds(b[1..]) by {
        forall i, j | 0 <= i < j < |b| - 1 ensures b[1..][i]["id"] != b[1..][j]["id"] {
          assert b[1..][i] == b[i + 1] && b[1..][j] == b[j + 1];
        }
      }
      if a[0] == b[0] {
        SubsequenceKeepsIdsUnique(a[1..], b[1..]);
        forall j | 0 < j < |a| ensures a[0]["id"] != a[j]["id"] {
          assert a[j] == a[1..][j - 1];
          SubsequenceMember(a[1..], b[1..], j - 1);
          var m :| 0 <= m < |b[1..]| && b[1..][m] == a[j];
          assert b[m + 1] == a[j];
        }
      } else {
        SubsequenceKeepsIdsUnique(a, b[1..]);
      }
    }
  }

  lemma {:induction false} SubsequenceMember<T>(a: seq<T>, b: seq<T>, k: nat)
    requires IsSubsequence(a, b) && k < |a|
    ensures exists m :: 0 <= m < |b| && b[m] == a[k]
    decreases |b|
  {
    assert b != [];
    if a[0] == b[0] {
      if k > 0 {
        SubsequenceMember(a[1..], b[1..], k - 1);
        var m :| 0 <= m < |b[1..]| && b[1..][m] == a[1..][k - 1];
        assert b[m + 1] == a[k];
      }
    } else {
      SubsequenceMember(a, b[1..], k);
      var m :| 0 <= m < |b[1..]| && b[1..][m] == a[k];
      assert b[m + 1] == a[k];
    }
  }

  lemma DeleteKeepsIdsUnique(ds: seq<Record>, id: string)
    requires UniqueIds(ds)
    ensures UniqueIds(Deleted(ds, id))
  {
    SubsequenceKeepsIdsUnique(Deleted(ds, id), ds);
  }

  // ---------------------------------------------------------------------
  // handleStatusChange
  // ---------------------------------------------------------------------

  /** One record after a status change: the new status and, for any stage
      other than `Prospecting`, today's date, overwriting any earlier one. */
  function WithStatus(d: Record, s: Status, today: string): (r: Record)
    ensures Field(r, "status") == Some(s.Key())
    ensures s != Prospecting ==> Field(r, "last_contact_date") == Some(today)
    ensures s == Prospecting ==> Field(r, "last_contact_date") == Field(d, "last_contact_date")
    ensures forall k :: k != "status" && k != "last_contact_date" ==> Field(r, k) == Field(d, k)
  {
    if s != Prospecting then d["status" := s.Key()]["last_contact_date" := today]
    else d["status" := s.Key()]
  }

  /** `prev.map(d => d.id === id ? { ...d, status, last_contact_date } : d)` */
  function StatusChanged(ds: seq<Record>, id: string, s: Status, today: string): (r: seq<Record>)
    ensures |r| == |ds|
    ensures forall k :: 0 <= k < |ds| && HasId(ds[k], id) ==> r[k] == WithStatus(ds[k], s, today)
    ensures forall k :: 0 <= k < |ds| && !HasId(ds[k], id) ==> r[k] == ds[k]
  {
    if ds == [] then []
    else [if HasId(ds[0], id) then WithStatus(ds[0], s, today) else ds[0]] + StatusChanged(ds[1..], id, s, today)
  }

  /** What a status change does to one record's fields: status set; date set
      to today unless the new stage is `Prospecting`, when it is kept; every
      other field unchanged. */
  lemma WithStatusFields(d: Record, s: Status, today: string, k: string)
    ensures WithStatus(d, s, today)["status"] == s.Key()
    ensures s != Prospecting ==> WithStatus(d, s, today)["last_contact_date"] == today
    ensures s == Prospecting ==> Field(WithStatus(d, s, today), "last_contact_date") == Field(d, "last_contact_date")
    ensures k != "status" && k != "last_contact_date" ==> Field(WithStatus(d, s, today), k) == Field(d, k)
  {
  }

  lemma StatusChangeKeepsIds(ds: seq<Record>, id: string, s: Status, today: string)
    ensures Ids(StatusChanged(ds, id, s, today)) == Ids(ds)
  {
    var r := StatusChanged(ds, id, s, today);
    forall k | 0 <= k < |ds| ensures Field(r[k], "id") == Field(ds[k], "id") {
      WithStatusFields(ds[k], s, today, "id");
    }
  }

  lemma StatusChangeKeepsIdsUnique(ds: seq<Record>, id: string, s: Status, today: string)
    requires UniqueIds(ds)
    ensures UniqueIds(StatusChanged(ds, id, s, today))
  {
    StatusChangeKeepsIds(ds, id, s, today);
    UniqueIdsFromIds(ds, StatusChanged(ds, id, s, today));
  }

  // ---------------------------------------------------------------------
  // The sample state
  // ---------------------------------------------------------------------

  const SampleAna: Record := map[
    "name" := "Ana Silva Santos", "phone" := "(11) 99999-1234",
    "instagram" := "https://instagram.com/dranasilva", "clinic" := "Clínica Sorrir",
    "city" := "São Paulo", "state" := "SP", "specialty" := "Orthodontics",
    "account_manager" := "Usuário Demo",
    "notes" := "Especialista em ortodontia estética, consultório moderno na Vila Madalena.",
    "status" := "Prospecting", "id" := "1"]

  const SampleCarlos: Record := map[
    "name" := "Carlos Eduardo Lima", "phone" := "(21) 98888-5678",
    "instagram" := "https://instagram.com/drcarlosendo", "clinic" := "Lima Endodontia",
    "city" := "Rio de Janeiro", "state" := "RJ", "specialty" := "Endodontics",
    "last_contact_date" := "2024-12-20", "account_manager" := "Usuário Demo",
    "notes" := "Endodontista experiente, interesse em novas tecnologias.",
    "status" := "Contacted", "id" := "2"]

  const SampleMarina: Record := map[
    "name" := "Marina Costa Oliveira", "phone" := "(85) 97777-9012",
    "clinic" := "Implantes Premium", "city" := "Fortaleza", "state" := "CE",
    "specialty" := "Implants", "last_contact_date" := "2024-12-18",
    "account_manager" := "Usuário Demo",
    "notes" := "Clínica especializada em implantes, alta demanda de pacientes.",
    "status" := "Negotiation", "id" := "3"]

  const SampleRoberto: Record := map[
    "name" := "Roberto Mendes Jr", "phone" := "(31) 96666-3456",
    "instagram" := "https://instagram.com/drrobertomendes",
    "clinic" := "Centro Odontológico BH", "city" := "Belo Horizonte", "state" := "MG",
    "specialty" := "Aesthetic Dentistry", "last_contact_date" := "2024-12-15",
    "account_manager" := "Usuário Demo",
    "notes" := "✅ Cliente fechado! Interesse em sistema completo de gestão.",
    "status" := "Closed", "id" := "4"]

  /** `sampleDentists`: one lead in each of the first four stages. */
  function SampleDentists(): (r: seq<Record>)
    ensures Ids(r) == [Some("1"), Some("2"), Some("3"), Some("4")]
    ensures forall k :: 0 <= k < |r| ==> Field(r[k], "status") == Some(AllStatuses[k].Key())
  {
    [SampleAna, SampleCarlos, SampleMarina, SampleRoberto]
  }

  /** The samples have unique ids. */
  lemma SampleIdsUnique()
    ensures UniqueIds(SampleDentists())
  {
    var s := SampleDentists();
    var ids := ["1", "2", "3", "4"];
    assert forall k :: 0 <= k < |s| ==> "id" in s[k] && s[k]["id"] == ids[k];
  }

  /** Exactly one sample is `Closed`: the fourth. */
  lemma SampleOneClosed()
    ensures CountWhere(HasStatus(Closed), SampleDentists()) == 1
  {
    var s := SampleDentists();
    var p := HasStatus(Closed);
    assert !p(s[0]) && !p(s[1]) && !p(s[2]) && p(s[3]);
    assert s[1..] == [s[1], s[2], s[3]];
    assert s[1..][1..] == [s[2], s[3]];
    assert s[1..][1..][1..] == [s[3]];
    assert s[1..][1..][1..][1..] == [];
  }

  // ---------------------------------------------------------------------
  // The component's state
  // ---------------------------------------------------------------------

  class Dashboard {
    var dentists: seq<Record>

    /** `useState<Dentist[]>([])` */
    constructor ()
      ensures dentists == []
    {
      dentists := [];
    }

    /** The mount effect: `setDentists(sampleDentists)`. */
    method Mount()
      modifies this
      ensures dentists == SampleDentists()
      ensures UniqueIds(dentists)
    {
      dentists := SampleDentists();
      SampleIdsUnique();
    }

    /** `handleAddDentist`, with `Date.now().toString()` given as `freshId`. */
    method HandleAddDentist(data: Record, freshId: string)
      modifies this
      ensures dentists == Added(old(dentists), data, freshId)
      ensures old(UniqueIds(dentists)) && (forall k :: 0 <= k < |old(dentists)| ==> old(dentists)[k]["id"] != freshId)
        ==> UniqueIds(dentists)
    {
      if UniqueIds(dentists) && forall k :: 0 <= k < |dentists| ==> dentists[k]["id"] != freshId {
        AddKeepsIdsUnique(dentists, data, freshId);
      }
      dentists := Added(dentists, data, freshId);
    }

    method HandleEditDentist(data: Record)
      modifies this
      ensures dentists == Edited(old(dentists), data)
      ensures old(UniqueIds(dentists)) ==> UniqueIds(dentists)
    {
      if UniqueIds(dentists) {
        EditKeepsIdsUnique(dentists, data);
      }
      dentists := Edited(dentists, data);
    }

    method HandleDeleteDentist(id: string)
      modifies this
      ensures dentists == Deleted(old(dentists), id)
      ensures old(UniqueIds(dentists)) ==> UniqueIds(dentists)
    {
      if UniqueIds(dentists) {
        DeleteKeepsIdsUnique(dentists, id);
      }
      dentists := Deleted(dentists, id);
    }

    /** `handleStatusChange`, with today's ISO 8601 calendar date given as `today`. */
    method HandleStatusChange(id: string, newStatus: Status, today: string)
      modifies this
      ensures dentists == StatusChanged(old(dentists), id, newStatus, today)
      ensures old(UniqueIds(dentists)) ==> UniqueIds(dentists)
    {
      if UniqueIds(dentists) {
        StatusChangeKeepsIdsUnique(dentists, id, newStatus, today);
      }
      dentists := StatusChanged(dentists, id, newStatus, today);
    }
  }
}
