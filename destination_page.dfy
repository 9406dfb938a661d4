/** The destination management page: a table of SIEM destinations with a
    per-row action menu, a delete confirmation dialog, the add/edit drawer,
    and the delayed activation of a newly added destination. */
module DestinationPage {
  import opened Text
  import opened Seqs
  import opened DestinationDrawer

  /** A row together with the identity of its object. The activation step
      compares objects by identity (`dest === newDestination`), so two rows
      with equal fields are still different rows; `key` stands for that
      identity. */
  datatype Row = Row(key: nat, record: DestinationRecord)

  function InitialRecords(): (records: seq<DestinationRecord>)
    ensures |records| == 3
  {
    [ DestinationRecord("Splunk Production", "Splunk", "active", "$5", "192.168.1.100", MaskedApiKey, "1/15/2024"),
      DestinationRecord("QRadar Secondary", "QRadar", "active", "$4.5", "192.168.1.101", MaskedApiKey, "1/15/2024"),
      DestinationRecord("Sentinel Cloud", "Sentinel", "inactive", "$6", "sentinel.azure.com", MaskedApiKey, "1/10/2024") ]
  }

  function RecordsOf(rows: seq<Row>): (records: seq<DestinationRecord>)
    ensures |records| == |rows|
    ensures forall i :: 0 <= i < |rows| ==> records[i] == rows[i].record
  {
    seq(|rows|, i requires 0 <= i < |rows| => rows[i].record)
  }

  /** Every row object is a different object. */
  predicate UniqueKeys(rows: seq<Row>) {
    forall i, j :: 0 <= i < j < |rows| ==> rows[i].key != rows[j].key
  }

  /** Keys below `next` are the ones handed out so far. */
  predicate KeysBelow(rows: seq<Row>, next: nat) {
    forall i :: 0 <= i < |rows| ==> rows[i].key < next
  }

  // ---------------------------------------------------------------------------
  // Deleting

  datatype PendingDelete = PendingDelete(index: int, name: string)

  /** `confirmDelete` on the list: the recorded index goes, if any. */
  function ConfirmedRows(rows: seq<Row>, pending: Option<PendingDelete>): (r: seq<Row>)
    ensures pending.None? ==> r == rows
    ensures pending.Some? ==> r == DropIndex(rows, pending.value.index)
  {
    if pending.Some? then DropIndex(rows, pending.value.index) else rows
  }

  /** Deleting a row removes exactly that row: the list shrinks by one, the
      rows before it keep their places and the rows after it move up one. */
  lemma ConfirmRemovesRecordedIndex(rows: seq<Row>, i: int)
    requires 0 <= i < |rows|
    ensures var r := ConfirmedRows(rows, Some(PendingDelete(i, rows[i].record.name)));
      |r| == |rows| - 1 &&
      (forall j :: 0 <= j < i ==> r[j] == rows[j]) &&
      (forall j :: i <= j < |r| ==> r[j] == rows[j + 1])
  {
  }

  /** Deleting keeps the rows distinct, and the deleted row is gone. */
  lemma ConfirmKeepsOthers(rows: seq<Row>, i: int)
    requires UniqueKeys(rows) && 0 <= i < |rows|
    ensures var r := ConfirmedRows(rows, Some(PendingDelete(i, rows[i].record.name)));
      UniqueKeys(r) && (forall j :: 0 <= j < |r| ==> r[j].key != rows[i].key)
  {
    ConfirmRemovesRecordedIndex(rows, i);
  }

  /** Whatever was recorded, deleting keeps the keys distinct and below the
      next fresh key. */
  lemma ConfirmKeepsKeys(rows: seq<Row>, pending: Option<PendingDelete>, next: nat)
    requires UniqueKeys(rows) && KeysBelow(rows, next)
    ensures UniqueKeys(ConfirmedRows(rows, pending)) && KeysBelow(ConfirmedRows(rows, pending), next)
  {
    if pending.Some? && 0 <= pending.value.index < |rows| {
      var i := pending.value.index;
      ConfirmRemovesRecordedIndex(rows, i);
      var r := ConfirmedRows(rows, pending);
      assert r == ConfirmedRows(rows, Some(PendingDelete(i, rows[i].record.name)));
      forall j, k | 0 <= j < k < |r| ensures r[j].key != r[k].key {
        var j' := if j < i then j else j + 1;
        var k' := if k < i then k else k + 1;
        assert r[j] == rows[j'] && r[k] == rows[k'];
      }
    }
  }

  // ---------------------------------------------------------------------------
  // Adding and activating

  /** The activation step: the row that is the added object becomes
      "active"; every other row is left alone. */
  function Activate(rows: seq<Row>, key: nat): (r: seq<Row>)
    ensures |r| == |rows|
    ensures forall i :: 0 <= i < |rows| && rows[i].key == key ==>
      r[i] == Row(key, rows[i].record.(status := "active"))
    ensures forall i :: 0 <= i < |rows| && rows[i].key != key ==> r[i] == rows[i]
  {
    seq(|rows|, i requires 0 <= i < |rows| =>
      if rows[i].key == key then Row(key, rows[i].record.(status := "active")) else rows[i])
  }

  /** A new destination is appended at the end; the activation that follows
      turns exactly that row active and leaves the rows before it unchanged. */
  lemma AddThenActivate(rows: seq<Row>, next: nat, d: DestinationRecord)
    requires KeysBelow(rows, next)
    ensures var r := Activate(rows + [Row(next, d)], next);
      r[..|rows|] == rows && r[|rows|] == Row(next, d.(status := "active"))
  {
    var r := Activate(rows + [Row(next, d)], next);
    assert forall i :: 0 <= i < |rows| ==> (rows + [Row(next, d)])[i] == rows[i];
  }

  /** If the added row was deleted before its activation, the activation
      changes nothing. */
  lemma ActivateAbsentRow(rows: seq<Row>, key: nat)
    requires forall i :: 0 <= i < |rows| ==> rows[i].key != key
    ensures Activate(rows, key) == rows
  {
  }

  lemma AppendKeepsUniqueKeys(rows: seq<Row>, next: nat, d: DestinationRecord)
    requires UniqueKeys(rows) && KeysBelow(rows, next)
    ensures UniqueKeys(rows + [Row(next, d)]) && KeysBelow(rows + [Row(next, d)], next + 1)
  {
  }

  // ---------------------------------------------------------------------------
  // The row menu and the badges

  /** The menu button of row `index`: it closes that row's menu when it is
      open and otherwise opens that row's menu, closing any other. */
  function ToggleMenu(openDropdown: Option<int>, index: int): (r: Option<int>)
    ensures openDropdown == Some(index) ==> r.None?
    ensures openDropdown != Some(index) ==> r == Some(index)
  {
    if openDropdown == Some(index) then None else Some(index)
  }

  /** Pressing the same menu button twice restores the closed state. */
  lemma ToggleMenuTwice(openDropdown: Option<int>, index: int)
    requires openDropdown != Some(index)
    ensures ToggleMenu(ToggleMenu(openDropdown, index), index).None?
  {
  }

  /** The menu of a row opens upward when the row is one of the last two. */
  function MenuOpensUpward(index: int, length: int): bool {
    index >= length - 2
  }

  lemma LastTwoRowsOpenUpward(length: nat, index: nat)
    requires index < length
    ensures MenuOpensUpward(index, length) <==> index + 2 >= length
    ensures length <= 2 ==> MenuOpensUpward(index, length)
  {
  }

  datatype Badge = Badge(text: string, classes: string)

  /** `getStatusBadge`: a labelled badge for the four known statuses and
      nothing for any other text. */
  function StatusBadge(status: string): (b: Option<Badge>)
    ensures b.Some? <==> status in ["active", "connecting", "error", "inactive"]
    ensures b.Some? ==> b.value.text == status
  {
    if status == "active" then Some(Badge("active", "bg-green-50 text-green-700 " + "border-green-200"))
    else if status == "connecting" then Some(Badge("connecting", "bg-blue-50 text-blue-700 " + "border-blue-200"))
    else if status == "error" then Some(Badge("error", "bg-red-50 text-red-700 " + "border-red-200"))
    else if status == "inactive" then Some(Badge("inactive", "bg-slate-50 text-slate-700 " + "border-slate-200"))
    else None
  }

  /** The rows the drawer adds show the "connecting" badge until their
      activation and the "active" badge after it. */
  lemma AddedRowBadges(f: DestinationForm, today: string)
    ensures StatusBadge(NewDestinationRecord(f, today).status) == Some(Badge("connecting", "bg-blue-50 text-blue-700 " + "border-blue-200"))
    ensures StatusBadge(NewDestinationRecord(f, today).(status := "active").status).value.text == "active"
  {
  }

  // ---------------------------------------------------------------------------
  // Page state

  class DestinationManagement {
    var isDrawerOpen: bool
    var editingDestination: Option<DestinationRecord>
    var drawerMode: DrawerMode
    var rows: seq<Row>
    var nextKey: nat
    var openDropdown: Option<int>
    var deleteDialogOpen: bool
    var destinationToDelete: Option<PendingDelete>

    predicate Valid()
      reads this
    {
      UniqueKeys(rows) && KeysBelow(rows, nextKey)
    }

    function Destinations(): seq<DestinationRecord>
      reads this
    {
      RecordsOf(rows)
    }

    constructor ()
      ensures Destinations() == InitialRecords() && Valid()
      ensures !isDrawerOpen && editingDestination.None? && drawerMode == AddMode
      ensures openDropdown.None? && !deleteDialogOpen && destinationToDelete.None?
    {
      var records := InitialRecords();
      rows := [Row(0, records[0]), Row(1, records[1]), Row(2, records[2])];
      nextKey := 3;
      isDrawerOpen := false;
      editingDestination := None;
      drawerMode := AddMode;
      openDropdown := None;
      deleteDialogOpen := false;
      destinationToDelete := None;
      new;
      assert RecordsOf(rows) == records;
    }

    /** `handleEditDestination`. */
    method HandleEditDestination(d: DestinationRecord)
      modifies this
      ensures editingDestination == Some(d) && drawerMode == EditMode && isDrawerOpen && openDropdown.None?
      ensures rows == old(rows) && nextKey == old(nextKey)
      ensures deleteDialogOpen == old(deleteDialogOpen) && destinationToDelete == old(destinationToDelete)
    {
      editingDestination := Some(d);
      drawerMode := EditMode;
      isDrawerOpen := true;
      openDropdown := None;
    }

    /** `handleDeleteDestination`: the row's index and name are recorded and
        the dialog opens; the list itself is not touched yet. */
    method HandleDeleteDestination(index: int)
      modifies this
      requires 0 <= index < |rows|
      ensures destinationToDelete == Some(PendingDelete(index, old(rows[index].record.name)))
      ensures deleteDialogOpen && openDropdown.None?
      ensures rows == old(rows) && nextKey == old(nextKey)
      ensures isDrawerOpen == old(isDrawerOpen) && editingDestination == old(editingDestination) && drawerMode == old(drawerMode)
    {
      destinationToDelete := Some(PendingDelete(index, rows[index].record.name));
      deleteDialogOpen := true;
      openDropdown := None;
    }

    /** `confirmDelete`: the recorded row goes; the dialog always closes and
        the record is cleared. */
    method ConfirmDelete()
      modifies this
      requires Valid()
      ensures rows == ConfirmedRows(old(rows), old(destinationToDelete))
      ensures !deleteDialogOpen && destinationToDelete.None?
      ensures nextKey == old(nextKey) && openDropdown == old(openDropdown)
      ensures Valid()
    {
      ConfirmKeepsKeys(rows, destinationToDelete, nextKey);
      if destinationToDelete.Some? {
        rows := DropIndex(rows, destinationToDelete.value.index);
      }
      deleteDialogOpen := false;
      destinationToDelete := None;
    }

    /** `cancelDelete`: the dialog closes and nothing is removed. */
    method CancelDelete()
      modifies this
      ensures rows == old(rows) && !deleteDialogOpen && destinationToDelete.None?
      ensures nextKey == old(nextKey) && openDropdown == old(openDropdown)
    {
      deleteDialogOpen := false;
      destinationToDelete := None;
    }

    /** `handleAddDestination`: the drawer opens in the add mode with nothing
        to edit. */
    method HandleAddDestination()
      modifies this
      ensures editingDestination.None? && drawerMode == AddMode && isDrawerOpen
      ensures rows == old(rows) && nextKey == old(nextKey) && openDropdown == old(openDropdown)
    {
      editingDestination := None;
      drawerMode := AddMode;
      isDrawerOpen := true;
    }

    /** `handleCloseDrawer`. */
    method HandleCloseDrawer()
      modifies this
      ensures !isDrawerOpen && editingDestination.None? && openDropdown.None?
      ensures rows == old(rows) && nextKey == old(nextKey) && drawerMode == old(drawerMode)
    {
      isDrawerOpen := false;
      editingDestination := None;
      openDropdown := None;
    }

    /** `handleAddNewDestination`: the record is appended as a new object;
        the returned key names it for the activation three seconds later. */
    method HandleAddNewDestination(d: DestinationRecord) returns (key: nat)
      modifies this
      requires Valid()
      ensures rows == old(rows) + [Row(key, d)] && key == old(nextKey)
      ensures Destinations() == old(Destinations()) + [d]
      ensures Valid()
    {
      AppendKeepsUniqueKeys(rows, nextKey, d);
      key := nextKey;
      rows := rows + [Row(key, d)];
      nextKey := nextKey + 1;
      assert RecordsOf(rows) == RecordsOf(old(rows)) + [d];
    }

    /** The timer's step: the added object, if still listed, becomes active. */
    method ActivateDestination(key: nat)
      modifies this
      requires Valid()
      ensures rows == Activate(old(rows), key) && nextKey == old(nextKey)
      ensures Valid()
    {
      rows := Activate(rows, key);
    }

    /** The row's menu button. */
    method HandleMenuButton(index: int)
      modifies this
      ensures openDropdown == ToggleMenu(old(openDropdown), index)
      ensures rows == old(rows) && nextKey == old(nextKey)
    {
      openDropdown := if openDropdown == Some(index) then None else Some(index);
    }

    /** A click on the overlay behind an open menu. */
    method HandleMenuOverlay()
      modifies this
      ensures openDropdown.None? && rows == old(rows) && nextKey == old(nextKey)
    {
      openDropdown := None;
    }

    /** The name the dialog shows: the recorded name, or nothing. */
    function DialogName(): (name: string)
      reads this
      ensures destinationToDelete.Some? ==> name == destinationToDelete.value.name
      ensures destinationToDelete.None? ==> name == ""
    {
      if destinationToDelete.Some? then destinationToDelete.value.name else ""
    }
  }
}
