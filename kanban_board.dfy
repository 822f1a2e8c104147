/**
 * The board: the search over the leads, the five stage columns, the drop
 * guard that turns a drag into a status change, the closed-lead total, and
 * the form dialog's state (`showForm`, `editingDentist`).
 */
module KanbanBoard {
  import opened JsText
  import opened Seqs
  import opened DentistCard
  import CRMDashboard

  /** `statusColumns`: the column keys and headings, in board order. */
  const StatusColumns: seq<(string, string)> := [
    ("Prospecting", "Prospecção"),
    ("Contacted", "Contatado"),
    ("Negotiation", "Negociação"),
    ("Closed", "Fechado"),
    ("Lost", "Perdido")
  ]

  /** One column per stage, in stage order, headed with the badge label the card shows. */
  lemma StatusColumnsAreTheStages()
    ensures |StatusColumns| == |AllStatuses|
    ensures forall k :: 0 <= k < |StatusColumns| ==>
      StatusColumns[k].0 == AllStatuses[k].Key() && StatusColumns[k].1 == StatusLabel(AllStatuses[k])
  {
  }

  // ---------------------------------------------------------------------
  // Search
  // ---------------------------------------------------------------------

  /** `(dentist.f || '').toLowerCase().includes(query.toLowerCase())` */
  predicate FieldMatches(d: Record, f: string, query: string) {
    Contains(Lower(Get(d, f)), Lower(query))
  }

  /** A lead matches when the query occurs in its name, city, state or specialty. */
  predicate Matches(d: Record, query: string) {
    FieldMatches(d, "name", query) || FieldMatches(d, "city", query)
    || FieldMatches(d, "state", query) || FieldMatches(d, "specialty", query)
  }

  function MatchesQuery(query: string): Record -> bool {
    d => Matches(d, query)
  }

  /** `filteredDentists`: the leads that match, in their order. */
  function Filtered(ds: seq<Record>, query: string): (r: seq<Record>)
    ensures forall k :: 0 <= k < |r| ==> Matches(r[k], query)
    ensures forall d :: d in ds && Matches(d, query) ==> d in r
    ensures forall d :: d in r ==> d in ds
    ensures IsSubsequence(r, ds)
    ensures |r| == CountWhere(MatchesQuery(query), ds)
  {
    Filter(MatchesQuery(query), ds)
  }

  /** An empty search box shows every lead. */
  lemma EmptyQueryKeepsAll(ds: seq<Record>)
    ensures Filtered(ds, "") == ds
  {
    forall d | d in ds ensures MatchesQuery("")(d) {
      ContainsEmpty(Lower(Get(d, "name")));
    }
    FilterAll(MatchesQuery(""), ds);
  }

  /** The search ignores the case of the query (for the ASCII letters). */
  lemma QueryCaseInsensitive(d: Record, query: string)
    ensures Matches(d, query) == Matches(d, Lower(query))
  {
    LowerIdempotent(query);
  }

  // ---------------------------------------------------------------------
  // Columns
  // ---------------------------------------------------------------------

  /** `getDentistsByStatus(s)` over the records `ds` it is given. */
  function ByStatus(ds: seq<Record>, s: Status): (r: seq<Record>)
    ensures forall k :: 0 <= k < |r| ==> Field(r[k], "status") == Some(s.Key())
    ensures forall d :: d in ds && Field(d, "status") == Some(s.Key()) ==> d in r
    ensures forall d :: d in r ==> d in ds
    ensures IsSubsequence(r, ds)
    ensures |r| == CountWhere(HasStatus(s), ds)
  {
    Filter(HasStatus(s), ds)
  }

  /** Every lead is in one of the five stages. */
  predicate AllStaged(ds: seq<Record>) {
    forall k :: 0 <= k < |ds| ==> "status" in ds[k] && StatusOfKey(ds[k]["status"]).Some?
  }

  /** All five columns' cards, as a multiset. */
  function ColumnsUnion(ds: seq<Record>): multiset<Record> {
    multiset(ByStatus(ds, Prospecting)) + multiset(ByStatus(ds, Contacted))
    + multiset(ByStatus(ds, Negotiation)) + multiset(ByStatus(ds, Closed))
    + multiset(ByStatus(ds, Lost))
  }

  /** The column of stage `t` for a list with `d` in front. */
  lemma ByStatusCons(d: Record, rest: seq<Record>, t: Status)
    ensures Field(d, "status") == Some(t.Key()) ==> multiset(ByStatus([d] + rest, t)) == multiset{d} + multiset(ByStatus(rest, t))
    ensures Field(d, "status") != Some(t.Key()) ==> ByStatus([d] + rest, t) == ByStatus(rest, t)
  {
    assert ([d] + rest)[1..] == rest;
  }

  /** Adding one element to any of five multisets adds it to their sum. */
  lemma SumOfFive<T>(x: multiset<T>, a: multiset<T>, b: multiset<T>, c: multiset<T>, e: multiset<T>, f: multiset<T>)
    ensures (x + a) + b + c + e + f == x + (a + b + c + e + f)
    ensures a + (x + b) + c + e + f == x + (a + b + c + e + f)
    ensures a + b + (x + c) + e + f == x + (a + b + c + e + f)
    ensures a + b + c + (x + e) + f == x + (a + b + c + e + f)
    ensures a + b + c + e + (x + f) == x + (a + b + c + e + f)
  {
  }

  /** The five columns of a list with `d` in front, where `d` is in stage `s`. */
  lemma UnionConsAt(d: Record, rest: seq<Record>, s: Status)
    requires Field(d, "status") == Some(s.Key())
    ensures ColumnsUnion([d] + rest) == multiset{d} + ColumnsUnion(rest)
  {
    var a, b, c, e, f := multiset(ByStatus(rest, Prospecting)), multiset(ByStatus(rest, Contacted)),
      multiset(ByStatus(rest, Negotiation)), multiset(ByStatus(rest, Closed)), multiset(ByStatus(rest, Lost));
    assert ColumnsUnion(rest) == a + b + c + e + f;
    ByStatusCons(d, rest, Prospecting);
    ByStatusCons(d, rest, Contacted);
    ByStatusCons(d, rest, Negotiation);
    ByStatusCons(d, rest, Closed);
    ByStatusCons(d, rest, Lost);
    SumOfFive(multiset{d}, a, b, c, e, f);
    match s
    case Prospecting => assert ColumnsUnion([d] + rest) == (multiset{d} + a) + b + c + e + f;
    case Contacted => assert ColumnsUnion([d] + rest) == a + (multiset{d} + b) + c + e + f;
    case Negotiation => assert ColumnsUnion([d] + rest) == a + b + (multiset{d} + c) + e + f;
    case Closed => assert ColumnsUnion([d] + rest) == a + b + c + (multiset{d} + e) + f;
    case Lost => assert ColumnsUnion([d] + rest) == a + b + c + e + (multiset{d} + f);
  }

  /** A lead in one of the stages shows in exactly one column. */
  lemma UnionCons(d: Record, rest: seq<Record>)
    requires "status" in d && StatusOfKey(d["status"]).Some?
    ensures ColumnsUnion([d] + rest) == multiset{d} + ColumnsUnion(rest)
  {
    UnionConsAt(d, rest, StatusOfKey(d["status"]).value);
  }

  /** When every lead is in one of the stages, the five columns together show
      each lead exactly as often as it occurs in the list. */
  lemma {:induction false} ColumnsPartition(ds: seq<Record>)
    requires AllStaged(ds)
    ensures ColumnsUnion(ds) == multiset(ds)
  {
    if ds != [] {
      var d, rest := ds[0], ds[1..];
      assert AllStaged(rest) by {
        forall k | 0 <= k < |rest| ensures "status" in rest[k] && StatusOfKey(rest[k]["status"]).Some? {
          assert rest[k] == ds[k + 1];
        }
      }
      ColumnsPartition(rest);
      assert ds == [d] + rest;
      UnionCons(d, rest);
    }
  }

  /** The columns shown for a search: the search result, split by stage. */
  lemma FilteredColumnsPartition(ds: seq<Record>, query: string)
    requires AllStaged(ds)
    ensures ColumnsUnion(Filtered(ds, query)) == multiset(Filtered(ds, query))
  {
    var f := Filtered(ds, query);
    forall k | 0 <= k < |f| ensures "status" in f[k] && StatusOfKey(f[k]["status"]).Some? {
      assert f[k] in ds;
      var m :| 0 <= m < |ds| && ds[m] == f[k];
    }
    ColumnsPartition(f);
  }

  /** A lead shown in the column of stage `s` under the search `query`. */
  function InColumn(s: Status, query: string): Record -> bool {
    d => Field(d, "status") == Some(s.Key()) && Matches(d, query)
  }

  // ---------------------------------------------------------------------
  // Drop guard
  // ---------------------------------------------------------------------

  /** A call `onStatusChange(id, status)`; `id` may be `undefined`. */
  datatype StatusChangeCall = StatusChangeCall(id: Option<string>, status: Status)

  /** `handleDrop` on the column of stage `target`, given the dropped record:
      a status change exactly when the record is not already in that stage. */
  function HandleDrop(dragged: Record, target: Status): (r: Option<StatusChangeCall>)
    ensures r.Some? <==> Field(dragged, "status") != Some(target.Key())
    ensures r.Some? ==> r.value == StatusChangeCall(Field(dragged, "id"), target)
  {
    if Field(dragged, "status") != Some(target.Key()) then
      Some(StatusChangeCall(Field(dragged, "id"), target))
    else None
  }

  /** Dropping a card back on its own column does nothing; dropping it on any
      other column asks for a move to exactly one other stage. */
  lemma DropOnOwnColumn(d: Record, s: Status)
    requires Field(d, "status") == Some(s.Key())
    ensures HandleDrop(d, s) == None
    ensures forall t: Status :: t != s ==> HandleDrop(d, t).Some?
  {
    forall t: Status | t != s ensures HandleDrop(d, t).Some? {
      StatusKeysRoundTrip(t);
      StatusKeysRoundTrip(s);
    }
  }

  /** A drop that asks for a move, applied by the dashboard, puts the card
      in the target column. */
  lemma DropMovesCard(ds: seq<Record>, j: nat, target: Status, today: string)
    requires j < |ds| && "id" in ds[j] && HandleDrop(ds[j], target).Some?
    ensures var call := HandleDrop(ds[j], target).value;
      var r := CRMDashboard.StatusChanged(ds, call.id.value, call.status, today);
      r[j] in ByStatus(r, target)
  {
    var r := CRMDashboard.StatusChanged(ds, ds[j]["id"], target, today);
    CRMDashboard.WithStatusFields(ds[j], target, today, "status");
    assert r[j] in r;
  }

  // ---------------------------------------------------------------------
  // Totals
  // ---------------------------------------------------------------------

  /** `totalClosed` */
  function TotalClosed(ds: seq<Record>): (r: nat)
    ensures r <= |ds|
    ensures r == CountWhere(HasStatus(Closed), ds)
  {
    |Filter(HasStatus(Closed), ds)|
  }

  /** With an empty search, the `Closed` column holds exactly `totalClosed` cards. */
  lemma TotalClosedIsClosedColumn(ds: seq<Record>)
    ensures TotalClosed(ds) == |ByStatus(Filtered(ds, ""), Closed)|
  {
    EmptyQueryKeepsAll(ds);
  }

  // ---------------------------------------------------------------------
  // The form dialog's state
  // ---------------------------------------------------------------------

  /** The handler `handleSave` passes the form's data to. */
  datatype SaveCall = EditCall(data: Record) | AddCall(data: Record)

  class Board {
    var showForm: bool
    var editingDentist: Option<Record>
    var searchQuery: string

    /** The dialog is open whenever a lead is being edited. */
    predicate Consistent()
      reads this
    {
      editingDentist.Some? ==> showForm
    }

    constructor ()
      ensures !showForm && editingDentist == None && searchQuery == ""
      ensures Consistent()
    {
      showForm := false;
      editingDentist := None;
      searchQuery := "";
    }

    /** The "Novo Dentista" button. */
    method OpenNewForm()
      modifies this
      ensures showForm && editingDentist == old(editingDentist) && searchQuery == old(searchQuery)
      ensures Consistent()
    {
      showForm := true;
    }

    method HandleEdit(d: Record)
      modifies this
      ensures showForm && editingDentist == Some(d) && searchQuery == old(searchQuery)
      ensures Consistent()
    {
      editingDentist := Some(d);
      showForm := true;
    }

    method HandleClose()
      modifies this
      ensures !showForm && editingDentist == None && searchQuery == old(searchQuery)
      ensures Consistent()
    {
      showForm := false;
      editingDentist := None;
    }

    /** Edit when a lead was being edited, add otherwise; then close the dialog. */
    method HandleSave(data: Record) returns (call: SaveCall)
      modifies this
      ensures call.data == data
      ensures call.EditCall? <==> old(editingDentist).Some?
      ensures !showForm && editingDentist == None && searchQuery == old(searchQuery)
      ensures Consistent()
    {
      if editingDentist.Some? {
        call := EditCall(data);
      } else {
        call := AddCall(data);
      }
      showForm := false;
      editingDentist := None;
    }

    /** The search box's `onChange`. */
    method SetSearchQuery(query: string)
      modifies this
      ensures searchQuery == query && showForm == old(showForm) && editingDentist == old(editingDentist)
      ensures Consistent() == old(Consistent())
    {
      searchQuery := query;
    }

    /** The records in the column of stage `s` for the current search: the
        leads of that stage that match the query, in list order, each as
        often as in the list. */
    function Column(ds: seq<Record>, s: Status): (r: seq<Record>)
      reads this
      ensures r == Filter(InColumn(s, searchQuery), ds)
      ensures forall k :: 0 <= k < |r| ==> Field(r[k], "status") == Some(s.Key()) && Matches(r[k], searchQuery)
      ensures forall d :: d in ds && Field(d, "status") == Some(s.Key()) && Matches(d, searchQuery) ==> d in r
      ensures forall d :: d in r ==> d in ds
      ensures IsSubsequence(r, ds)
      ensures |r| == CountWhere(InColumn(s, searchQuery), ds)
    {
      FilterFilter(HasStatus(s), MatchesQuery(searchQuery), InColumn(s, searchQuery), ds);
      ByStatus(Filtered(ds, searchQuery), s)
    }
  }
}
