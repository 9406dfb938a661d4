/** The "Add New Source" drawer: a form record edited field by field, with a
    tag list that grows through a separate tag input. */
module SourceDrawer {
  import opened Text
  import opened Seqs

  /** The text fields of the form that `handleInputChange` is called with. */
  datatype SourceField =
    | NameField | TypeField | EndpointField | PortField | ProtocolField
    | AuthenticationField | UsernameField | PasswordField | DescriptionField | NewTagField

  /** The form record; `sourceType` is the record's `type` field. */
  datatype SourceForm = SourceForm(
    name: string, sourceType: string, endpoint: string, port: string, protocol: string,
    authentication: string, username: string, password: string, description: string,
    tags: seq<string>, newTag: string)

  /** The initial form: everything empty except the protocol. */
  function InitialSourceForm(): (f: SourceForm)
    ensures f.protocol == "syslog" && f.tags == [] && f.newTag == "" && f.name == ""
  {
    SourceForm("", "", "", "", "syslog", "", "", "", "", [], "")
  }

  function FieldValue(f: SourceForm, field: SourceField): string {
    match field
    case NameField => f.name
    case TypeField => f.sourceType
    case EndpointField => f.endpoint
    case PortField => f.port
    case ProtocolField => f.protocol
    case AuthenticationField => f.authentication
    case UsernameField => f.username
    case PasswordField => f.password
    case DescriptionField => f.description
    case NewTagField => f.newTag
  }

  /** `handleInputChange`: the named field takes the value; every other field
      and the tag list keep theirs. */
  function SetField(f: SourceForm, field: SourceField, value: string): (r: SourceForm)
    ensures FieldValue(r, field) == value
    ensures forall other :: other != field ==> FieldValue(r, other) == FieldValue(f, other)
    ensures r.tags == f.tags
  {
    match field
    case NameField => f.(name := value)
    case TypeField => f.(sourceType := value)
    case EndpointField => f.(endpoint := value)
    case PortField => f.(port := value)
    case ProtocolField => f.(protocol := value)
    case AuthenticationField => f.(authentication := value)
    case UsernameField => f.(username := value)
    case PasswordField => f.(password := value)
    case DescriptionField => f.(description := value)
    case NewTagField => f.(newTag := value)
  }

  /** A form is determined by its field values and its tags. */
  lemma FormExtensional(f: SourceForm, g: SourceForm)
    requires forall field :: FieldValue(f, field) == FieldValue(g, field)
    requires f.tags == g.tags
    ensures f == g
  {
    assert FieldValue(f, NameField) == FieldValue(g, NameField);
    assert FieldValue(f, TypeField) == FieldValue(g, TypeField);
    assert FieldValue(f, EndpointField) == FieldValue(g, EndpointField);
    assert FieldValue(f, PortField) == FieldValue(g, PortField);
    assert FieldValue(f, ProtocolField) == FieldValue(g, ProtocolField);
    assert FieldValue(f, AuthenticationField) == FieldValue(g, AuthenticationField);
    assert FieldValue(f, UsernameField) == FieldValue(g, UsernameField);
    assert FieldValue(f, PasswordField) == FieldValue(g, PasswordField);
    assert FieldValue(f, DescriptionField) == FieldValue(g, DescriptionField);
    assert FieldValue(f, NewTagField) == FieldValue(g, NewTagField);
  }

  /** Writing back the value a field already has changes nothing. */
  lemma SetFieldToItself(f: SourceForm, field: SourceField)
    ensures SetField(f, field, FieldValue(f, field)) == f
  {
    FormExtensional(SetField(f, field, FieldValue(f, field)), f);
  }

  /** The tag typed into the tag input, as `addTag` would store it. */
  function PendingTag(f: SourceForm): string {
    Trim(f.newTag)
  }

  /** `addTag` accepts the pending tag when it is not blank and not yet a tag. */
  predicate AcceptsTag(f: SourceForm) {
    PendingTag(f) != [] && PendingTag(f) !in f.tags
  }

  /** `addTag`: an accepted tag is appended in trimmed form and the tag input
      is cleared; otherwise the form is left exactly as it was. */
  function AddTag(f: SourceForm): (r: SourceForm)
    ensures AcceptsTag(f) ==> r.tags == f.tags + [Trim(f.newTag)] && r.newTag == ""
    ensures AcceptsTag(f) ==> forall field :: field != NewTagField ==> FieldValue(r, field) == FieldValue(f, field)
    ensures !AcceptsTag(f) ==> r == f
  {
    if AcceptsTag(f) then
      TagUpdateKeepsFields(f, f.tags + [PendingTag(f)], "");
      f.(tags := f.tags + [PendingTag(f)], newTag := "")
    else f
  }

  /** Replacing the tag list and the tag input leaves every other field. */
  lemma TagUpdateKeepsFields(f: SourceForm, tags: seq<string>, newTag: string)
    ensures forall field :: field != NewTagField ==> FieldValue(f.(tags := tags, newTag := newTag), field) == FieldValue(f, field)
  {
  }

  /** `addTag` changes the form exactly when it accepts the tag. */
  lemma AddTagChangesIff(f: SourceForm)
    ensures AddTag(f) != f <==> AcceptsTag(f)
  {
    if AcceptsTag(f) {
      assert |AddTag(f).tags| == |f.tags| + 1;
    }
  }

  /** `removeTag`: every copy of the tag goes, the others keep their order. */
  function RemoveTag(f: SourceForm, tag: string): (r: SourceForm)
    ensures tag !in r.tags && IsSubsequence(r.tags, f.tags)
    ensures forall i :: 0 <= i < |f.tags| && f.tags[i] != tag ==> f.tags[i] in r.tags
    ensures forall field :: FieldValue(r, field) == FieldValue(f, field)
  {
    f.(tags := RemoveValue(f.tags, tag))
  }

  /** The tag list of a form that only `addTag` and `removeTag` have built:
      no duplicates, no empty tag, every tag its own trim. */
  predicate ValidTags(tags: seq<string>) {
    NoDuplicates(tags) && forall i :: 0 <= i < |tags| ==> tags[i] != [] && Trim(tags[i]) == tags[i]
  }

  lemma AddTagKeepsValid(f: SourceForm)
    requires ValidTags(f.tags)
    ensures ValidTags(AddTag(f).tags)
  {
    if AcceptsTag(f) {
      var t := PendingTag(f);
      AppendFreshNoDuplicates(f.tags, t);
      TrimIdempotent(f.newTag);
      AppendTrimmedTag(f.tags, t);
    }
  }

  lemma AppendTrimmedTag(tags: seq<string>, t: string)
    requires forall i :: 0 <= i < |tags| ==> tags[i] != [] && Trim(tags[i]) == tags[i]
    requires t != [] && Trim(t) == t
    ensures forall i :: 0 <= i < |tags + [t]| ==> (tags + [t])[i] != [] && Trim((tags + [t])[i]) == (tags + [t])[i]
  {
  }

  lemma RemoveTagKeepsValid(f: SourceForm, tag: string)
    requires ValidTags(f.tags)
    ensures ValidTags(RemoveTag(f, tag).tags)
  {
    RemoveValueNoDuplicates(f.tags, tag);
    var r := RemoveTag(f, tag).tags;
    forall i | 0 <= i < |r| ensures r[i] != [] && Trim(r[i]) == r[i] {
      assert r[i] in f.tags;
    }
  }

  /** Adding a fresh tag and removing it again restores the tag list. */
  lemma AddThenRemoveTag(f: SourceForm)
    requires AcceptsTag(f)
    ensures RemoveTag(AddTag(f), PendingTag(f)).tags == f.tags
  {
    RemoveAppended(f.tags, PendingTag(f));
  }

  /** Typing a tag with surrounding spaces stores it without them, and typing
      it again, spaced differently, is rejected as a duplicate. */
  lemma TrimmedDuplicateRejected(f: SourceForm, again: string)
    requires AcceptsTag(f) && Trim(again) == PendingTag(f)
    ensures !AcceptsTag(SetField(AddTag(f), NewTagField, again))
    ensures AddTag(SetField(AddTag(f), NewTagField, again)).tags == AddTag(f).tags
  {
    var g := SetField(AddTag(f), NewTagField, again);
    assert g.tags[|g.tags| - 1] == PendingTag(f);
  }

  /** The drawer's form state. */
  class SourceDrawerState {
    var formData: SourceForm

    constructor ()
      ensures formData == InitialSourceForm() && Valid()
    {
      formData := InitialSourceForm();
    }

    predicate Valid()
      reads this
    {
      ValidTags(formData.tags)
    }

    method HandleInputChange(field: SourceField, value: string)
      modifies this
      requires Valid()
      ensures formData == SetField(old(formData), field, value)
      ensures Valid()
    {
      formData := SetField(formData, field, value);
    }

    /** `addTag`, reached by the "+" button and by Enter in the tag input. */
    method HandleAddTag()
      modifies this
      requires Valid()
      ensures formData == AddTag(old(formData))
      ensures Valid()
    {
      AddTagKeepsValid(formData);
      if Trim(formData.newTag) != [] && Trim(formData.newTag) !in formData.tags {
        formData := formData.(tags := formData.tags + [Trim(formData.newTag)], newTag := "");
      }
    }

    /** The tag input's key handler: only Enter adds the tag. */
    method HandleTagKeyPress(key: string)
      modifies this
      requires Valid()
      ensures key == "Enter" ==> formData == AddTag(old(formData))
      ensures key != "Enter" ==> formData == old(formData)
      ensures Valid()
    {
      if key == "Enter" {
        HandleAddTag();
      }
    }

    method HandleRemoveTag(tag: string)
      modifies this
      requires Valid()
      ensures formData == RemoveTag(old(formData), tag)
      ensures Valid()
    {
      RemoveTagKeepsValid(formData, tag);
      formData := formData.(tags := RemoveValue(formData.tags, tag));
    }

    /** `handleSubmit`: the form is handed to the log unchanged, and the
        drawer asks its owner to close. */
    method HandleSubmit() returns (logged: SourceForm, requestClose: bool)
      ensures logged == formData && requestClose
    {
      logged := formData;
      requestClose := true;
    }
  }
}
