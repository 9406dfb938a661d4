/** The "Add New SIEM" / "Edit SIEM" drawer: a six-field form that is
    prefilled from the row being edited or reset to its defaults, and a
    submit that either hands a new destination record to the page or runs a
    simulated connection with two flags. */
module DestinationDrawer {
  import opened Text

  /** A row of the destination table; `destinationType` is the record's
      `type` field. */
  datatype DestinationRecord = DestinationRecord(
    name: string, destinationType: string, status: string, costPerGB: string,
    ipAddress: string, apiKey: string, lastSync: string)

  /** The drawer's `editData`: every field optional. */
  datatype EditData = EditData(
    name: Option<string>, destinationType: Option<string>, costPerGB: Option<string>,
    apiKey: Option<string>, ipAddress: Option<string>, port: Option<string>)

  datatype DrawerMode = AddMode | EditMode

  datatype DestinationForm = DestinationForm(
    siemName: string, siemType: string, costPerGB: string, apiKey: string, ipAddress: string, port: string)

  datatype FormField = SiemNameField | SiemTypeField | CostPerGBField | ApiKeyField | IpAddressField | PortField

  const MaskedApiKey := "****-****-****"

  /** The form the drawer starts from and resets to. */
  function DefaultForm(): (f: DestinationForm)
    ensures f.siemType == "Splunk" && f.costPerGB == "5" && f.port == "8089"
    ensures f.siemName == "" && f.apiKey == "" && f.ipAddress == ""
  {
    DestinationForm("", "Splunk", "5", "", "", "8089")
  }

  /** `value || fallback` for an optional text: missing and empty both give
      the fallback. */
  function OrDefault(value: Option<string>, fallback: string): (r: string)
    ensures value.Some? && value.value != "" ==> r == value.value
    ensures value.None? || value.value == "" ==> r == fallback
  {
    if value.Some? && value.value != "" then value.value else fallback
  }

  /** `s.replace('$', '')`: a string pattern replaces only its first
      occurrence. */
  function RemoveFirstDollar(s: string): (r: string)
    ensures '$' !in s ==> r == s
    ensures '$' in s ==> |r| == |s| - 1
  {
    var k := IndexOfChar(s, '$');
    if k < 0 then s else s[..k] + s[k + 1..]
  }

  /** The cost field's prefill: the text without its first "$", or "5" when
      that leaves nothing or the row has no cost. */
  function PrefillCost(cost: Option<string>): (r: string)
    ensures r != ""
  {
    match cost
    case None => "5"
    case Some(c) => OrDefault(Some(RemoveFirstDollar(c)), "5")
  }

  /** Prefill of the edit mode: each field copied, with its default where the
      row has nothing. */
  function Prefill(data: EditData): (f: DestinationForm)
    ensures f.siemName == OrDefault(data.name, "") && f.siemType == OrDefault(data.destinationType, "Splunk")
    ensures f.costPerGB == PrefillCost(data.costPerGB) && f.apiKey == OrDefault(data.apiKey, "")
    ensures f.ipAddress == OrDefault(data.ipAddress, "") && f.port == OrDefault(data.port, "8089")
  {
    DestinationForm(
      OrDefault(data.name, ""), OrDefault(data.destinationType, "Splunk"), PrefillCost(data.costPerGB),
      OrDefault(data.apiKey, ""), OrDefault(data.ipAddress, ""), OrDefault(data.port, "8089"))
  }

  /** The effect on `editData`, `mode` and `isOpen`: prefill when editing a
      row, otherwise reset. */
  function FormForProps(editData: Option<EditData>, mode: DrawerMode): (f: DestinationForm)
    ensures editData.Some? && mode == EditMode ==> f == Prefill(editData.value)
    ensures editData.None? || mode == AddMode ==> f == DefaultForm()
  {
    if editData.Some? && mode == EditMode then Prefill(editData.value) else DefaultForm()
  }

  /** The cost round trip: a cost written with a leading "$" prefills back
      to the number, and an empty one to the default "5". */
  lemma CostRoundTrip(c: string)
    ensures c != "" ==> PrefillCost(Some("$" + c)) == c
    ensures c == "" ==> PrefillCost(Some("$" + c)) == "5"
  {
    var s := "$" + c;
    assert IndexOfChar(s, '$') == 0;
    assert s[..0] + s[1..] == c;
  }

  /** A missing cost and an empty cost both prefill as "5"; a cost without a
      "$" is kept as it is. */
  lemma CostWithoutDollar(c: string)
    requires '$' !in c
    ensures PrefillCost(Some(c)) == (if c == "" then "5" else c)
    ensures PrefillCost(None) == "5"
  {
  }

  function FieldValue(f: DestinationForm, field: FormField): string {
    match field
    case SiemNameField => f.siemName
    case SiemTypeField => f.siemType
    case CostPerGBField => f.costPerGB
    case ApiKeyField => f.apiKey
    case IpAddressField => f.ipAddress
    case PortField => f.port
  }

  /** `handleInputChange`: exactly the named field takes the value. */
  function SetField(f: DestinationForm, field: FormField, value: string): (r: DestinationForm)
    ensures FieldValue(r, field) == value
    ensures forall other :: other != field ==> FieldValue(r, other) == FieldValue(f, other)
  {
    match field
    case SiemNameField => f.(siemName := value)
    case SiemTypeField => f.(siemType := value)
    case CostPerGBField => f.(costPerGB := value)
    case ApiKeyField => f.(apiKey := value)
    case IpAddressField => f.(ipAddress := value)
    case PortField => f.(port := value)
  }

  /** The record the add mode hands to the page: status "connecting", the
      cost with a "$" in front, a masked key, today's date, and no port. */
  function NewDestinationRecord(f: DestinationForm, today: string): (d: DestinationRecord)
    ensures d.status == "connecting" && d.apiKey == MaskedApiKey && d.lastSync == today
    ensures d.name == f.siemName && d.destinationType == f.siemType && d.ipAddress == f.ipAddress
    ensures d.costPerGB == "$" + f.costPerGB
  {
    DestinationRecord(f.siemName, f.siemType, "connecting", "$" + f.costPerGB, f.ipAddress, MaskedApiKey, today)
  }

  /** What the page passes as `editData` for one of its rows: the rows have
      no port. */
  function EditDataOf(d: DestinationRecord): (e: EditData)
    ensures e.port.None?
  {
    EditData(Some(d.name), Some(d.destinationType), Some(d.costPerGB), Some(d.apiKey), Some(d.ipAddress), None)
  }

  /** Editing a row the drawer added prefills the form it was added from,
      except that the key shows masked and the port falls back to "8089". */
  lemma AddThenEditPrefill(f: DestinationForm, today: string)
    requires f.siemType != "" && f.costPerGB != ""
    ensures Prefill(EditDataOf(NewDestinationRecord(f, today))) == f.(apiKey := MaskedApiKey, port := "8089")
  {
    CostRoundTrip(f.costPerGB);
  }

  // ---------------------------------------------------------------------------
  // The simulated connection of the edit path

  datatype ConnectionFlags = ConnectionFlags(isConnecting: bool, connectionSuccess: bool)

  function Idle(): ConnectionFlags {
    ConnectionFlags(false, false)
  }

  /** The submit button is disabled while connecting or showing success; the
      cancel button only while connecting. */
  function SubmitDisabled(flags: ConnectionFlags): (b: bool)
    ensures b <==> flags != Idle()
  {
    flags.isConnecting || flags.connectionSuccess
  }

  function CancelDisabled(flags: ConnectionFlags): bool {
    flags.isConnecting
  }

  function StartConnecting(flags: ConnectionFlags): ConnectionFlags {
    flags.(isConnecting := true)
  }

  /** After the 2.5 second wait. */
  function FinishConnecting(flags: ConnectionFlags): ConnectionFlags {
    ConnectionFlags(false, true)
  }

  /** After the 1.5 second success display; the drawer then closes. */
  function DismissSuccess(flags: ConnectionFlags): ConnectionFlags {
    flags.(connectionSuccess := false)
  }

  /** The edit path from an idle drawer: connecting, then success, then idle
      again; submitting is disabled until the end and cancelling only during
      the first wait. */
  lemma EditPathSequence()
    ensures StartConnecting(Idle()) == ConnectionFlags(true, false)
    ensures FinishConnecting(StartConnecting(Idle())) == ConnectionFlags(false, true)
    ensures DismissSuccess(FinishConnecting(StartConnecting(Idle()))) == Idle()
    ensures SubmitDisabled(StartConnecting(Idle())) && SubmitDisabled(FinishConnecting(StartConnecting(Idle())))
    ensures CancelDisabled(StartConnecting(Idle())) && !CancelDisabled(FinishConnecting(StartConnecting(Idle())))
  {
  }

  /** The drawer's state. */
  class DestinationDrawerState {
    var formData: DestinationForm
    var isConnecting: bool
    var connectionSuccess: bool

    constructor ()
      ensures formData == DefaultForm() && !isConnecting && !connectionSuccess
    {
      formData := DefaultForm();
      isConnecting := false;
      connectionSuccess := false;
    }

    function Flags(): ConnectionFlags
      reads this
    {
      ConnectionFlags(isConnecting, connectionSuccess)
    }

    /** The effect, run whenever `editData`, `mode` or `isOpen` changes. */
    method SyncWithProps(editData: Option<EditData>, mode: DrawerMode)
      modifies this
      ensures formData == FormForProps(editData, mode) && Flags() == old(Flags())
    {
      if editData.Some? && mode == EditMode {
        formData := Prefill(editData.value);
      } else {
        formData := DefaultForm();
      }
    }

    method HandleInputChange(field: FormField, value: string)
      modifies this
      ensures formData == SetField(old(formData), field, value) && Flags() == old(Flags())
    {
      formData := SetField(formData, field, value);
    }

    /** `handleSubmit`. In the add mode with a receiver the new record goes to
        the page and the drawer asks to close; otherwise, also in the add
        mode without a receiver, the simulated connection starts. */
    method HandleSubmit(mode: DrawerMode, hasReceiver: bool, today: string)
      returns (added: Option<DestinationRecord>, requestClose: bool)
      modifies this
      ensures formData == old(formData)
      ensures mode == AddMode && hasReceiver ==>
        added == Some(NewDestinationRecord(formData, today)) && requestClose && Flags() == old(Flags())
      ensures !(mode == AddMode && hasReceiver) ==>
        added.None? && !requestClose && Flags() == StartConnecting(old(Flags()))
    {
      if mode == AddMode && hasReceiver {
        added := Some(NewDestinationRecord(formData, today));
        requestClose := true;
      } else {
        isConnecting := true;
        added := None;
        requestClose := false;
      }
    }

    /** The end of the simulated 2.5 second connection. */
    method ConnectionFinished()
      modifies this
      ensures Flags() == FinishConnecting(old(Flags())) && formData == old(formData)
    {
      isConnecting := false;
      connectionSuccess := true;
    }

    /** The end of the 1.5 second success display: the drawer asks to close. */
    method SuccessDismissed() returns (requestClose: bool)
      modifies this
      ensures Flags() == DismissSuccess(old(Flags())) && formData == old(formData) && requestClose
    {
      connectionSuccess := false;
      requestClose := true;
    }
  }
}
