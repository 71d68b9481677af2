/**
 * The guestbook of the contact section: the form record and its change handlers,
 * the validation and normalisation that turn the form into the row to insert, the
 * email-visibility rule of the entry list, and the component's state around a submit.
 */
module ContactSection {
  import opened Wrappers
  import opened JsText

  /** The emoji picker's choices; the first is the form's default. */
  const Emojis: seq<string> := ["\U{1F60A}", "\U{1F64F}", "\U{1F496}", "\U{1F31F}", "\U{1F44D}", "\U{1F389}", "\U{2728}", "\U{1F91D}"]
  const DefaultEmoji: string := "\U{1F60A}"

  /** The name stored for a visitor who left the name blank ("anonymous"). */
  const AnonymousName: string := "익명"

  const MessageRequired: string := "메시지를 입력해주세요."
  const Registered: string := "방명록이 등록되었습니다!"
  const RegisterFailed: string := "등록에 실패했습니다. 다시 시도해주세요."

  // ---------------------------------------------------------------------------
  // The form

  datatype FormData = FormData(
    name: string, message: string, affiliation: string, email: string,
    emoji: string, isEmailPublic: bool)

  /** The form on mount and after a successful submit. */
  const InitialForm: FormData := FormData("", "", "", "", DefaultEmoji, false)

  /** The form's text inputs, by their `name` attribute. */
  datatype TextField = Name | Message | Affiliation | Email

  /**
   * A change event of the form: a text input reports its `value`, the one checkbox
   * (`isEmailPublic`) reports `checked`.
   */
  datatype InputEvent = TextInput(field: TextField, value: string) | CheckboxInput(checked: bool)

  function Text(form: FormData, field: TextField): string {
    match field
    case Name => form.name
    case Message => form.message
    case Affiliation => form.affiliation
    case Email => form.email
  }

  /** The field named by the event takes the event's value; every other field is kept. */
  function HandleInputChange(form: FormData, e: InputEvent): (next: FormData)
    ensures e.TextInput? ==> Text(next, e.field) == e.value
    ensures e.TextInput? ==> forall g :: g != e.field ==> Text(next, g) == Text(form, g)
    ensures e.TextInput? ==> next.isEmailPublic == form.isEmailPublic
    ensures e.CheckboxInput? ==> next.isEmailPublic == e.checked
    ensures e.CheckboxInput? ==> forall g :: Text(next, g) == Text(form, g)
    ensures next.emoji == form.emoji
  {
    match e
    case CheckboxInput(checked) => form.(isEmailPublic := checked)
    case TextInput(field, value) =>
      match field
      case Name => form.(name := value)
      case Message => form.(message := value)
      case Affiliation => form.(affiliation := value)
      case Email => form.(email := value)
  }

  /** Picking an emoji changes the emoji and nothing else. */
  function HandleEmojiSelect(form: FormData, emoji: string): (next: FormData)
    ensures next.emoji == emoji
    ensures forall g :: Text(next, g) == Text(form, g)
    ensures next.isEmailPublic == form.isEmailPublic
  {
    form.(emoji := emoji)
  }

  /**
   * The form's emoji is always one of the picker's choices: the default is the first
   * choice, and the picker only hands over its choices. The choices are distinct, so
   * at most one of them is drawn as selected (`formData.emoji === emoji`).
   */
  lemma EmojiAlwaysAChoice(form: FormData, i: nat)
    requires i < |Emojis|
    ensures InitialForm.emoji == Emojis[0]
    ensures HandleEmojiSelect(form, Emojis[i]).emoji in Emojis
    ensures forall j :: 0 <= j < |Emojis| && j != i ==> Emojis[j] != HandleEmojiSelect(form, Emojis[i]).emoji
  {
    EmojisDistinct();
  }

  lemma EmojisDistinct()
    ensures forall a, b :: 0 <= a < b < |Emojis| ==> Emojis[a] != Emojis[b]
  {
    assert forall a :: 0 <= a < |Emojis| ==> |Emojis[a]| == 1;
    assert forall a, b :: 0 <= a < b < |Emojis| ==> Emojis[a][0] != Emojis[b][0];
  }

  /** Two forms that agree on every field are the same form. */
  lemma FormExtensionality(a: FormData, b: FormData)
    requires forall g :: Text(a, g) == Text(b, g)
    requires a.emoji == b.emoji && a.isEmailPublic == b.isEmailPublic
    ensures a == b
  {
    assert Text(a, Name) == Text(b, Name) && Text(a, Message) == Text(b, Message);
    assert Text(a, Affiliation) == Text(b, Affiliation) && Text(a, Email) == Text(b, Email);
  }

  /** Typing into a field twice keeps only the later value. */
  lemma InputChangeLastWins(form: FormData, field: TextField, a: string, b: string)
    ensures HandleInputChange(HandleInputChange(form, TextInput(field, a)), TextInput(field, b))
         == HandleInputChange(form, TextInput(field, b))
  {
    var left := HandleInputChange(HandleInputChange(form, TextInput(field, a)), TextInput(field, b));
    var right := HandleInputChange(form, TextInput(field, b));
    FormExtensionality(left, right);
  }

  /** Changes to two different fields can be made in either order. */
  lemma InputChangesCommute(form: FormData, f: TextField, g: TextField, a: string, b: string)
    requires f != g
    ensures HandleInputChange(HandleInputChange(form, TextInput(f, a)), TextInput(g, b))
         == HandleInputChange(HandleInputChange(form, TextInput(g, b)), TextInput(f, a))
  {
    var left := HandleInputChange(HandleInputChange(form, TextInput(f, a)), TextInput(g, b));
    var right := HandleInputChange(HandleInputChange(form, TextInput(g, b)), TextInput(f, a));
    FormExtensionality(left, right);
  }

  /** An event that reports a field's current value leaves the form as it is. */
  lemma InputChangeToSameValue(form: FormData, field: TextField)
    ensures HandleInputChange(form, TextInput(field, Text(form, field))) == form
  {
    FormExtensionality(HandleInputChange(form, TextInput(field, Text(form, field))), form);
  }

  // ---------------------------------------------------------------------------
  // Validation and the row to insert

  /** The submit guard `!formData.message.trim()`: the message is blank. */
  function MessageMissing(form: FormData): (missing: bool)
    ensures missing <==> AllWhiteSpace(form.message)
  {
    TrimEmptyIff(form.message);
    Trim(form.message) == ""
  }

  /** JavaScript's `s || null` on a string: the empty string becomes null. */
  function OrNull(s: string): (r: Option<string>)
    ensures r.None? <==> s == ""
    ensures r.Some? ==> r.value == s
  {
    if s == "" then None else Some(s)
  }

  /** The guestbook row as inserted (and as read back for the entry list). */
  datatype GuestbookRow = GuestbookRow(
    name: string, message: string, affiliation: Option<string>, email: Option<string>,
    emoji: string, isEmailPublic: bool)

  /** Text with no whitespace at either end (what trim returns). */
  predicate Trimmed(s: string) {
    s == [] || (!IsWhiteSpace(s[0]) && !IsWhiteSpace(s[|s| - 1]))
  }

  /**
   * The row of a submit: trimmed name or the anonymous name, trimmed message,
   * trimmed affiliation and email or null when blank, emoji and the public flag as they are.
   */
  function NewRow(form: FormData): (row: GuestbookRow)
    ensures AllWhiteSpace(form.name) ==> row.name == AnonymousName
    ensures !AllWhiteSpace(form.name) ==> row.name == Trim(form.name)
    ensures row.message == Trim(form.message)
    ensures row.affiliation.None? <==> AllWhiteSpace(form.affiliation)
    ensures row.affiliation.Some? ==> row.affiliation.value == Trim(form.affiliation)
    ensures row.email.None? <==> AllWhiteSpace(form.email)
    ensures row.email.Some? ==> row.email.value == Trim(form.email)
    ensures row.emoji == form.emoji && row.isEmailPublic == form.isEmailPublic
  {
    TrimEmptyIff(form.name);
    TrimEmptyIff(form.affiliation);
    TrimEmptyIff(form.email);
    var name := Trim(form.name);
    GuestbookRow(
      name := if name == "" then AnonymousName else name,
      message := Trim(form.message),
      affiliation := OrNull(Trim(form.affiliation)),
      email := OrNull(Trim(form.email)),
      emoji := form.emoji,
      isEmailPublic := form.isEmailPublic)
  }

  /**
   * Every text of a row is trimmed and every present one is non-empty; the
   * message is non-empty exactly when the submit guard lets the form through.
   */
  lemma NewRowNormalised(form: FormData)
    ensures var row := NewRow(form);
      && row.name != "" && Trimmed(row.name) && Trimmed(row.message)
      && (row.affiliation.Some? ==> row.affiliation.value != "" && Trimmed(row.affiliation.value))
      && (row.email.Some? ==> row.email.value != "" && Trimmed(row.email.value))
    ensures NewRow(form).message != "" <==> !MessageMissing(form)
  {
    TrimIsSlice(form.name);
    TrimIsSlice(form.message);
    TrimIsSlice(form.affiliation);
    TrimIsSlice(form.email);
    TrimEmptyIff(form.message);
  }

  /** The form with every text field trimmed. */
  function TrimmedForm(form: FormData): (t: FormData)
    ensures forall g :: Text(t, g) == Trim(Text(form, g))
    ensures t.emoji == form.emoji && t.isEmailPublic == form.isEmailPublic
  {
    form.(name := Trim(form.name), message := Trim(form.message),
          affiliation := Trim(form.affiliation), email := Trim(form.email))
  }

  /** Normalisation is idempotent: a form whose fields are already trimmed gives the same row. */
  lemma NewRowOfTrimmedForm(form: FormData)
    ensures NewRow(TrimmedForm(form)) == NewRow(form)
  {
    var t := TrimmedForm(form);
    TrimIdempotent(form.name);
    TrimIdempotent(form.message);
    TrimIdempotent(form.affiliation);
    TrimIdempotent(form.email);
    TrimEmptyIff(form.name);
    TrimEmptyIff(t.name);
    TrimEmptyIff(form.affiliation);
    TrimEmptyIff(t.affiliation);
    TrimEmptyIff(form.email);
    TrimEmptyIff(t.email);
  }

  // ---------------------------------------------------------------------------
  // The entry list

  /** An entry shows its email when the visitor made it public and it is present and non-empty. */
  function EmailShown(entry: GuestbookRow): (shown: bool)
    ensures shown ==> entry.isEmailPublic && entry.email.Some? && entry.email.value != ""
    ensures entry.isEmailPublic && entry.email.Some? && entry.email.value != "" ==> shown
  {
    entry.isEmailPublic && entry.email.Some? && entry.email.value != ""
  }

  /** For a row this form inserted, the email shows exactly when it was made public and is not blank. */
  lemma EmailShownOfNewRow(form: FormData)
    ensures EmailShown(NewRow(form)) <==> form.isEmailPublic && !AllWhiteSpace(form.email)
  {
    NewRowNormalised(form);
  }

  /** What the entry list area shows. */
  datatype EntriesView = Spinner | NoEntries | EntryList(entries: seq<GuestbookRow>)

  /** A spinner while loading, else a placeholder when there are no entries, else the list. */
  function ViewEntries(loading: bool, entries: seq<GuestbookRow>): (v: EntriesView)
    ensures v.Spinner? <==> loading
    ensures v.NoEntries? <==> !loading && entries == []
    ensures v.EntryList? ==> v.entries == entries && entries != []
  {
    if loading then Spinner else if |entries| == 0 then NoEntries else EntryList(entries)
  }

  // ---------------------------------------------------------------------------
  // The component's state

  datatype Severity = Success | Error

  datatype Snackbar = Snackbar(open: bool, message: string, severity: Severity)

  const ClosedSnackbar: Snackbar := Snackbar(false, "", Success)

  /**
   * The component's state: the entries read back, whether they are loading, whether
   * an insert is in flight, the snackbar and the form.
   */
  class Guestbook {
    var entries: seq<GuestbookRow>
    var loading: bool
    var submitting: bool
    var snackbar: Snackbar
    var form: FormData

    /** Mounting: no entries yet and loading, nothing in flight, the snackbar closed, the initial form. */
    constructor ()
      ensures entries == [] && loading && !submitting
      ensures snackbar == ClosedSnackbar && form == InitialForm
    {
      entries := [];
      loading := true;
      submitting := false;
      snackbar := ClosedSnackbar;
      form := InitialForm;
    }

    /** The end of a fetch: rows replace the entries (null as none); an error keeps them; loading ends either way. */
    method FetchEntriesDone(response: Response<GuestbookRow>)
      modifies this`entries, this`loading
      ensures response.Rows? ==> entries == response.data.GetOr([])
      ensures response.Failed? ==> entries == old(entries)
      ensures !loading
    {
      if response.Rows? {
        entries := response.data.GetOr([]);
      }
      loading := false;
    }

    method InputChange(e: InputEvent)
      modifies this`form
      ensures form == HandleInputChange(old(form), e)
    {
      form := HandleInputChange(form, e);
    }

    method EmojiSelect(emoji: string)
      modifies this`form
      ensures form == HandleEmojiSelect(old(form), emoji)
    {
      form := HandleEmojiSelect(form, emoji);
    }

    /**
     * The submit handler up to the insert: a blank message opens the error snackbar and
     * stops; otherwise the handler marks the insert in flight and hands back the row to insert.
     */
    method Submit() returns (insert: Option<GuestbookRow>)
      modifies this`snackbar, this`submitting
      ensures MessageMissing(form) ==> insert == None
      ensures MessageMissing(form) ==> snackbar == Snackbar(true, MessageRequired, Error)
      ensures MessageMissing(form) ==> submitting == old(submitting)
      ensures !MessageMissing(form) ==> insert == Some(NewRow(form))
      ensures !MessageMissing(form) ==> submitting && snackbar == old(snackbar)
    {
      if MessageMissing(form) {
        snackbar := Snackbar(true, MessageRequired, Error);
        return None;
      }
      submitting := true;
      insert := Some(NewRow(form));
    }

    /**
     * The submit handler after the insert: success opens the success snackbar, resets the
     * form and asks for a refetch; failure opens the error snackbar and keeps the form.
     * Either way the insert is no longer in flight.
     */
    method InsertDone(succeeded: bool) returns (refetch: bool)
      modifies this`snackbar, this`form, this`submitting
      ensures succeeded ==> snackbar == Snackbar(true, Registered, Success) && form == InitialForm
      ensures !succeeded ==> snackbar == Snackbar(true, RegisterFailed, Error) && form == old(form)
      ensures refetch == succeeded
      ensures !submitting
    {
      if succeeded {
        snackbar := Snackbar(true, Registered, Success);
        form := InitialForm;
      } else {
        snackbar := Snackbar(true, RegisterFailed, Error);
      }
      submitting := false;
      refetch := succeeded;
    }

    /**
     * A whole submit with no other event in between: the row handed to the insert (if any),
     * whose outcome is `succeeded`, and whether the entries are fetched again.
     */
    method HandleSubmit(succeeded: bool) returns (inserted: Option<GuestbookRow>, refetch: bool)
      modifies this`snackbar, this`form, this`submitting
      ensures MessageMissing(old(form)) ==> inserted == None && !refetch
      ensures MessageMissing(old(form)) ==> snackbar == Snackbar(true, MessageRequired, Error)
      ensures MessageMissing(old(form)) ==> form == old(form) && submitting == old(submitting)
      ensures !MessageMissing(old(form)) ==> inserted == Some(NewRow(old(form))) && !submitting
      ensures !MessageMissing(old(form)) && succeeded ==>
        form == InitialForm && snackbar == Snackbar(true, Registered, Success) && refetch
      ensures !MessageMissing(old(form)) && !succeeded ==>
        form == old(form) && snackbar == Snackbar(true, RegisterFailed, Error) && !refetch
    {
      inserted := Submit();
      refetch := false;
      if inserted.Some? {
        refetch := InsertDone(succeeded);
      }
    }

    /** Dismissing the snackbar closes it and keeps its message and severity. */
    method CloseSnackbar()
      modifies this`snackbar
      ensures snackbar == old(snackbar).(open := false)
    {
      snackbar := snackbar.(open := false);
    }
  }
}
