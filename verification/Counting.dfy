/** `CountByStatus`, the availability total the admission policy uses, and conservation of units. */
module Counting {
  import opened Types
  import opened SeatTable
  import opened Purchase

  /** The units of one ticket category of one event. */
  function Units(rows: map<Id, Row>, tenant: Id, event: Id, category: Id): set<Id> {
    set id | id in rows && rows[id].tenant == tenant && rows[id].event == event && rows[id].category == category
  }

  function WithStatus(rows: map<Id, Row>, tenant: Id, event: Id, category: Id, status: Status): set<Id> {
    set id | id in Units(rows, tenant, event, category) && rows[id].status == status
  }

  // ---- CountByStatus ----

  datatype Counts = Counts(available: nat, held: nat, sold: nat, voided: nat)

  const ZERO := Counts(0, 0, 0, 0)

  /** One line of `SELECT category, status, count(*) ... GROUP BY category, status`. */
  datatype Group = Group(category: Id, status: Status, count: nat)

  function Direct(rows: map<Id, Row>, tenant: Id, event: Id, category: Id): Counts {
    Counts(|WithStatus(rows, tenant, event, category, Available)|, |WithStatus(rows, tenant, event, category, Held)|,
           |WithStatus(rows, tenant, event, category, Sold)|, |WithStatus(rows, tenant, event, category, Void)|)
  }

  /** What the query returns: each non-empty class once, with its size, in any order. */
  ghost predicate IsGrouping(groups: seq<Group>, rows: map<Id, Row>, tenant: Id, event: Id) {
    && (forall k | 0 <= k < |groups| ::
          groups[k].count == |WithStatus(rows, tenant, event, groups[k].category, groups[k].status)| > 0)
    && (forall i, j | 0 <= i < j < |groups| ::
          groups[i].category != groups[j].category || groups[i].status != groups[j].status)
    && (forall category, status | WithStatus(rows, tenant, event, category, status) != {} ::
          exists k :: 0 <= k < |groups| && groups[k].category == category && groups[k].status == status)
  }

  function Lookup(counts: map<Id, Counts>, category: Id): Counts {
    if category in counts then counts[category] else ZERO
  }

  function Field(c: Counts, status: Status): nat {
    match status
    case Available => c.available
    case Held => c.held
    case Sold => c.sold
    case Void => c.voided
  }

  function SetField(c: Counts, status: Status, n: nat): Counts {
    match status
    case Available => c.(available := n)
    case Held => c.(held := n)
    case Sold => c.(sold := n)
    case Void => c.(voided := n)
  }

  /** The map after the first n lines: each line is recorded, and nothing else is. */
  ghost predicate Folded(counts: map<Id, Counts>, groups: seq<Group>, n: nat) {
    && n <= |groups|
    && (forall k | 0 <= k < n ::
          groups[k].category in counts && Field(counts[groups[k].category], groups[k].status) == groups[k].count)
    && (forall category | category in counts :: exists k :: 0 <= k < n && groups[k].category == category)
    && (forall category, status | Field(Lookup(counts, category), status) != 0 ::
          exists k :: 0 <= k < n && groups[k].category == category && groups[k].status == status)
  }

  lemma FoldedField(counts: map<Id, Counts>, groups: seq<Group>, rows: map<Id, Row>, tenant: Id, event: Id,
                    category: Id, status: Status)
    requires IsGrouping(groups, rows, tenant, event) && Folded(counts, groups, |groups|)
    ensures Field(Lookup(counts, category), status) == |WithStatus(rows, tenant, event, category, status)|
  {
    hide WithStatus;
    if k :| 0 <= k < |groups| && groups[k].category == category && groups[k].status == status {
    }
  }

  lemma FoldedIsDirect(counts: map<Id, Counts>, groups: seq<Group>, rows: map<Id, Row>, tenant: Id, event: Id, category: Id)
    requires IsGrouping(groups, rows, tenant, event) && Folded(counts, groups, |groups|)
    ensures Lookup(counts, category) == Direct(rows, tenant, event, category)
    ensures category in counts <==> Units(rows, tenant, event, category) != {}
  {
    FoldedField(counts, groups, rows, tenant, event, category, Available);
    FoldedField(counts, groups, rows, tenant, event, category, Held);
    FoldedField(counts, groups, rows, tenant, event, category, Sold);
    FoldedField(counts, groups, rows, tenant, event, category, Void);
    if id :| id in Units(rows, tenant, event, category) {
      assert id in WithStatus(rows, tenant, event, category, rows[id].status);
    }
    if category in counts {
      var k :| 0 <= k < |groups| && groups[k].category == category;
      assert |WithStatus(rows, tenant, event, category, groups[k].status)| > 0;
      var id :| id in WithStatus(rows, tenant, event, category, groups[k].status);
      assert id in Units(rows, tenant, event, category);
    }
  }

  /** Recording one more line, which is about a class of its own. */
  lemma FoldsNext(counts: map<Id, Counts>, groups: seq<Group>, i: nat)
    requires i < |groups| && Folded(counts, groups, i)
    requires forall k | 0 <= k < i :: groups[k].category != groups[i].category || groups[k].status != groups[i].status
    ensures
      var g := groups[i];
      Folded(counts[g.category := SetField(Lookup(counts, g.category), g.status, g.count)], groups, i + 1)
  {
    var g := groups[i];
    var after := counts[g.category := SetField(Lookup(counts, g.category), g.status, g.count)];
    forall category, status | category != g.category || status != g.status
      ensures Field(Lookup(after, category), status) == Field(Lookup(counts, category), status)
    {
    }
    assert Field(Lookup(after, g.category), g.status) == g.count;
    hide Field, SetField;
  }

  /** The folded map is the direct count of rows for every category, and has a key exactly where there are units. */
  method CountByStatus(groups: seq<Group>, ghost rows: map<Id, Row>, ghost tenant: Id, ghost event: Id)
    returns (counts: map<Id, Counts>)
    requires IsGrouping(groups, rows, tenant, event)
    ensures forall category :: Lookup(counts, category) == Direct(rows, tenant, event, category)
    ensures forall category :: category in counts <==> Units(rows, tenant, event, category) != {}
    ensures forall category | category in counts ::
      && counts[category].available == |WithStatus(rows, tenant, event, category, Available)|
      && counts[category].held == |WithStatus(rows, tenant, event, category, Held)|
      && counts[category].sold == |WithStatus(rows, tenant, event, category, Sold)|
      && counts[category].voided == |WithStatus(rows, tenant, event, category, Void)|
  {
    hide WithStatus, Units;
    counts := map[];
    for i := 0 to |groups|
      invariant Folded(counts, groups, i)
    {
      hide Folded;
      var g := groups[i];
      FoldsNext(counts, groups, i);
      counts := counts[g.category := SetField(Lookup(counts, g.category), g.status, g.count)];
    }
    forall category {
      FoldedIsDirect(counts, groups, rows, tenant, event, category);
    }
  }

  function AvailableUnits(rows: map<Id, Row>, tenant: Id, event: Id): set<Id> {
    set id | id in rows && rows[id].tenant == tenant && rows[id].event == event && rows[id].status == Available
  }

  /** Summing the Available fields, in whatever order the map is walked, counts the event's available units. */
  method TotalAvailable(counts: map<Id, Counts>, ghost rows: map<Id, Row>, ghost tenant: Id, ghost event: Id)
    returns (total: nat)
    requires forall category :: Lookup(counts, category) == Direct(rows, tenant, event, category)
    ensures total == |AvailableUnits(rows, tenant, event)|
    ensures total == |set id | id in rows && rows[id].tenant == tenant && rows[id].event == event && rows[id].status == Available|
  {
    total := 0;
    var todo := counts.Keys;
    ghost var seen: set<Id> := {};
    while todo != {}
      invariant todo <= counts.Keys
      invariant seen == set id | id in AvailableUnits(rows, tenant, event) && rows[id].category in counts.Keys - todo
      invariant total == |seen|
      decreases todo
    {
      var category :| category in todo;
      ghost var units := WithStatus(rows, tenant, event, category, Available);
      assert Lookup(counts, category) == Direct(rows, tenant, event, category);
      assert seen !! units;
      total := total + counts[category].available;
      todo := todo - {category};
      seen := seen + units;
    }
    forall id | id in AvailableUnits(rows, tenant, event) ensures id in seen {
      assert id in WithStatus(rows, tenant, event, rows[id].category, Available);
      assert Lookup(counts, rows[id].category) == Direct(rows, tenant, event, rows[id].category);
    }
    assert seen == AvailableUnits(rows, tenant, event);
    assert AvailableUnits(rows, tenant, event)
        == set id | id in rows && rows[id].tenant == tenant && rows[id].event == event && rows[id].status == Available;
  }

  // ---- conservation ----

  /** The four statuses partition a category's units. */
  lemma FourStatuses(rows: map<Id, Row>, tenant: Id, event: Id, category: Id)
    ensures
      var c := Direct(rows, tenant, event, category);
      c.available + c.held + c.sold + c.voided == |Units(rows, tenant, event, category)|
  {
    var a := WithStatus(rows, tenant, event, category, Available);
    var h := WithStatus(rows, tenant, event, category, Held);
    var s := WithStatus(rows, tenant, event, category, Sold);
    var v := WithStatus(rows, tenant, event, category, Void);
    assert Units(rows, tenant, event, category) == (a + h) + (s + v) by {
      forall id | id in Units(rows, tenant, event, category) ensures id in (a + h) + (s + v) {
        assert id in WithStatus(rows, tenant, event, category, rows[id].status);
      }
    }
    hide WithStatus, Units;
    assert |a + h| == |a| + |h| && |s + v| == |s| + |v|;
    assert |(a + h) + (s + v)| == |a + h| + |s + v|;
  }

  /** The unit this action inserts into the category, if it does. */
  predicate Inserts(s: State, a: Action, tenant: Id, event: Id, category: Id) {
    a.CreateUnit? && CanInsert(s.table, a.id, a.event, a.seat)
    && a.tenant == tenant && a.event == event && a.category == category
  }

  /** How many units of the category the run inserted. */
  function Created(s: State, run: seq<Action>, tenant: Id, event: Id, category: Id): nat
    decreases run
  {
    if run == [] then 0
    else
      (if Inserts(s, run[0], tenant, event, category) then 1 else 0)
      + Created(Step(s, run[0]), run[1..], tenant, event, category)
  }

  /** A statement that is not an INSERT moves no unit between categories, and none appears or vanishes. */
  lemma StepConserves(s: State, a: Action, tenant: Id, event: Id, category: Id)
    ensures |Units(Step(s, a).table.rows, tenant, event, category)|
         == |Units(s.table.rows, tenant, event, category)| + if Inserts(s, a, tenant, event, category) then 1 else 0
  {
    hide Units, Step;
    if a.CreateUnit? {
      InsertConserves(s, a, tenant, event, category);
    } else {
      OthersKeepClasses(s, a);
      SameUnitsInClass(s.table.rows, Step(s, a).table.rows, tenant, event, category);
    }
  }

  lemma InsertConserves(s: State, a: Action, tenant: Id, event: Id, category: Id)
    requires a.CreateUnit?
    ensures |Units(Step(s, a).table.rows, tenant, event, category)|
         == |Units(s.table.rows, tenant, event, category)| + if Inserts(s, a, tenant, event, category) then 1 else 0
  {
    var t := Insert(s.table, a.id, a.tenant, a.event, a.category, a.seat);
    assert Step(s, a).table == t;
    hide Step;
    if CanInsert(s.table, a.id, a.event, a.seat) {
      assert Units(t.rows, tenant, event, category)
          == Units(s.table.rows, tenant, event, category)
             + if Inserts(s, a, tenant, event, category) then {a.id} else {};
    }
  }

  lemma OthersKeepClasses(s: State, a: Action)
    requires !a.CreateUnit?
    ensures SameClasses(s.table.rows, Step(s, a).table.rows)
  {
    hide DoCreateStart, DoCreateRead, DoCreateCommit, DoAuthorizeStart, DoAuthorizeRecord, DoAuthorizeFinish,
      DoConfirmStart, DoConfirmLoad, DoConfirmSell, DoConfirmCapture, DoRefundSend, DoRefundNote, DoRefundClose,
      DoCrash, DoDispatch, Insert;
    if a.ConfirmCommit? {
      hide DoHold, DoRelease, DoSellUnit, DoVoid;
    } else {
      hide DoConfirmCommit;
    }
  }

  ghost predicate SameClasses(rows: map<Id, Row>, rows': map<Id, Row>) {
    && rows.Keys == rows'.Keys
    && forall id | id in rows ::
         rows'[id].tenant == rows[id].tenant && rows'[id].event == rows[id].event && rows'[id].category == rows[id].category
  }

  lemma SameUnitsInClass(rows: map<Id, Row>, rows': map<Id, Row>, tenant: Id, event: Id, category: Id)
    requires SameClasses(rows, rows')
    ensures Units(rows', tenant, event, category) == Units(rows, tenant, event, category)
  {
  }

  lemma {:induction false} ExecConserves(s: State, run: seq<Action>, tenant: Id, event: Id, category: Id)
    ensures |Units(Exec(s, run).table.rows, tenant, event, category)|
         == |Units(s.table.rows, tenant, event, category)| + Created(s, run, tenant, event, category)
    decreases run
  {
    hide Step, Units, Inserts;
    if run != [] {
      StepConserves(s, run[0], tenant, event, category);
      ExecConserves(Step(s, run[0]), run[1..], tenant, event, category);
    }
  }

  /** In every run: available + held + sold + void of a category is the number of units ever created for it. */
  lemma UnitsConserved(run: seq<Action>, tenant: Id, event: Id, category: Id)
    ensures
      var c := Direct(Exec(START, run).table.rows, tenant, event, category);
      c.available + c.held + c.sold + c.voided == Created(START, run, tenant, event, category)
  {
    hide Step, Exec, Created;
    ExecConserves(START, run, tenant, event, category);
    FourStatuses(Exec(START, run).table.rows, tenant, event, category);
  }
}
