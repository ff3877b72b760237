/**
 * The "Edit Document" modal: it is loaded from a stored template, its phase
 * switches cascade only when switched on, its capex and opex switches are
 * independent, and its save posts the template with its `id`, keeping the
 * stored file URL unless a new file is uploaded to the `documents` bucket.
 */
module EditTemplateForm {
  import opened Text
  import opened Json
  import opened TemplateForms

  // ---------------------------------------------------------------------------
  // Reading a stored template

  /** `p` occurs in `s` at some position. */
  predicate Contains(s: string, p: string)
    decreases |s|
  {
    |p| <= |s| && (s[..|p|] == p || Contains(s[1..], p))
  }

  /** `phase.includes(p)`: an array holding the text, or text containing it. */
  predicate Includes(phase: Value, p: string) {
    match phase
    case Arr(items) => Str(p) in items
    case Str(s) => Contains(s, p)
    case _ => false
  }

  /** A `phase` value the effect reads: truthy, and a list or text, the two
      kinds that have `includes`. */
  predicate Readable(phase: Value) {
    Truthy(phase) && (phase.Arr? || phase.Str?)
  }

  /** The switches for a stored `phase` value. */
  function StoredSelection(phase: Value): (s: seq<bool>)
    ensures |s| == |Phases|
  {
    seq(|Phases|, i requires 0 <= i < |Phases| => Includes(phase, Phases[i]))
  }

  lemma TextsMembers(ps: seq<string>, p: string)
    ensures Str(p) in Texts(ps) <==> p in ps
  {
    if p in ps {
      var i :| 0 <= i < |ps| && ps[i] == p;
      assert Texts(ps)[i] == Str(p);
    }
  }

  /** A stored phase list is read back as the selection of the phases it names. */
  lemma StoredSelectionOfList(ps: seq<string>)
    ensures StoredSelection(Arr(Texts(ps))) == Selection(ps)
  {
    forall i | 0 <= i < |Phases| ensures StoredSelection(Arr(Texts(ps)))[i] == Selection(ps)[i] {
      TextsMembers(ps, Phases[i]);
    }
  }

  /** A template saved from a selection, by either modal, opens with that selection. */
  lemma SavedSelectionReloads(selected: seq<bool>)
    requires |selected| == |Phases|
    ensures StoredSelection(Arr(Texts(Pick(selected, Phases)))) == selected
  {
    StoredSelectionOfList(Pick(selected, Phases));
    SelectionOfPick(selected);
  }

  /** The form fields taken from a stored template, with `""` for what is
      missing; the file URL is read from `document_url`. */
  function LoadedData(doc: Value): map<string, Value> {
    map["name" := Or(Get(doc, "name"), Str("")),
        "arabic_name" := Or(Get(doc, "arabic_name"), Str("")),
        "description" := Or(Get(doc, "description"), Str("")),
        "file_url" := Or(Get(doc, "document_url"), Str(""))]
  }

  // ---------------------------------------------------------------------------
  // The asymmetric phase toggle

  /** `handlePhaseToggle(index)`: switching on cascades to every later phase,
      switching off clears that phase alone. */
  function Toggle(s: seq<bool>, index: nat): seq<bool>
    requires index < |s|
  {
    if !s[index] then seq(|s|, i requires 0 <= i < |s| => if i >= index then true else s[i])
    else s[index := false]
  }

  /** Switching off changes one phase; switching on keeps the earlier phases
      and selects the phase and all later ones. */
  lemma ToggleEffect(s: seq<bool>, index: nat)
    requires index < |s|
    ensures |Toggle(s, index)| == |s|
    ensures Toggle(s, index)[index] == !s[index]
    ensures forall j | 0 <= j < |s| && j != index :: s[index] ==> Toggle(s, index)[j] == s[j]
    ensures forall j | 0 <= j < |s| :: !s[index] ==> Toggle(s, index)[j] == (j >= index || s[j])
  {
  }

  /** Switching a phase off and on again gives back the selection exactly when
      every later phase was already selected. */
  lemma OffThenOnIff(s: seq<bool>, index: nat)
    requires index < |s| && s[index]
    ensures Toggle(Toggle(s, index), index) == s <==> forall j | index <= j < |s| :: s[j]
  {
    var r := Toggle(Toggle(s, index), index);
    if r == s {
      forall j | index <= j < |s| ensures s[j] {
        assert r[j];
      }
    }
  }

  // ---------------------------------------------------------------------------
  // The payload

  /** `{...data, phase: selected.map(...).filter(Boolean), id}` with the flags. */
  function Payload(data: map<string, Value>, selected: seq<bool>, id: Value,
                   internal: bool, external: bool, capex: bool, opex: bool): (r: map<string, Value>)
    requires |selected| == |Phases|
    ensures "phase" in r && r["phase"] == Arr(KeepTruthy(MarkSelected(selected, Phases)))
    ensures "id" in r && r["id"] == id
  {
    data["phase" := Arr(KeepTruthy(MarkSelected(selected, Phases)))]["id" := id]
      + Flags(internal, external, capex, opex)
  }

  /** The edit modal posts the same phase list the add modal would for the same
      switches, and the template's `id`. */
  lemma PayloadPhases(data: map<string, Value>, selected: seq<bool>, id: Value,
                      internal: bool, external: bool, capex: bool, opex: bool)
    requires |selected| == |Phases|
    ensures Payload(data, selected, id, internal, external, capex, opex)["phase"] ==
              Arr(Texts(Pick(selected, Phases)))
    ensures Payload(data, selected, id, internal, external, capex, opex)["id"] == id
  {
    PhasesDistinct();
    MarkThenFilterIsPick(selected, Phases);
  }

  /** The rest of the edit payload: every form field other than the six it
      sets is kept, and the flags follow the internal-only rule. */
  lemma PayloadMeaning(data: map<string, Value>, selected: seq<bool>, id: Value,
                       internal: bool, external: bool, capex: bool, opex: bool)
    requires |selected| == |Phases|
    ensures Payload(data, selected, id, internal, external, capex, opex).Keys ==
              data.Keys + {"phase", "id", "is_capex", "is_opex", "is_internal", "is_external"}
    ensures forall k | k in data && k != "phase" && k != "id" && k != "is_capex" && k != "is_opex" &&
                       k != "is_internal" && k != "is_external" ::
              Payload(data, selected, id, internal, external, capex, opex)[k] == data[k]
    ensures Payload(data, selected, id, internal, external, capex, opex)["is_internal"] == Bool(internal)
    ensures Payload(data, selected, id, internal, external, capex, opex)["is_external"] == Bool(external)
    ensures internal && !external ==>
              Payload(data, selected, id, internal, external, capex, opex)["is_capex"] == Bool(false) &&
              Payload(data, selected, id, internal, external, capex, opex)["is_opex"] == Bool(false)
    ensures !(internal && !external) ==>
              Payload(data, selected, id, internal, external, capex, opex)["is_capex"] == Bool(capex) &&
              Payload(data, selected, id, internal, external, capex, opex)["is_opex"] == Bool(opex)
  {
  }

  /** The storage key of a new file in the `documents` bucket: `<now>_<name>`. */
  function FileKey(now: int, name: string): string {
    IntToString(now) + "_" + name
  }

  /** How the POST of an update ended: an answer body, or a thrown request whose
      `e.response?.data?.message || e.message` is `message`. */
  datatype PostResult = Answered(body: Value) | Thrown(message: string)

  const Updated: string := "Document updated!"
  const UpdateFailed: string := "Update failed"

  /** Only an answer whose `status` is `"success"` is handed to `onSubmit`. */
  function Settle(post: PostResult): (r: (Option<Value>, string))
    ensures r.0.Some? <==> post.Answered? && Get(post.body, "status") == Str("success")
    ensures r.0.Some? ==> r.0.value == Get(post.body, "result") && r.1 == Updated
    ensures post.Answered? && r.0.None? ==> r.1 == UpdateFailed
    ensures post.Thrown? ==> r.1 == "Failed: " + post.message
  {
    match post
    case Answered(body) =>
      if Get(body, "status") == Str("success") then (Some(Get(body, "result")), Updated)
      else (None, UpdateFailed)
    case Thrown(message) => (None, "Failed: " + message)
  }

  datatype SaveStart = Busy | Rejected(message: string) | Started(payload: map<string, Value>) | Crashed

  /** What a started save holds on to across its `await`s: the payload, the
      file chosen and the `file_url` shown when the save began. */
  datatype PendingSave = PendingSave(payload: map<string, Value>, file: Option<string>, fileUrl: Value)

  // ---------------------------------------------------------------------------
  // The modal

  class Form {
    var selected: array<bool>
    var data: map<string, Value>
    var capex: bool
    var opex: bool
    var internal: bool
    var external: bool
    var file: Option<string>
    /** The file name shown under the upload button. */
    var existingFileName: Value
    var loading: bool
    var pending: Option<PendingSave>
    /** The `documentData` prop. */
    var document: Value

    ghost predicate Valid()
      reads this, selected
    {
      selected.Length == |Phases|
    }

    constructor (doc: Value)
      ensures Valid() && fresh(selected)
      ensures selected[..] == seq(|Phases|, _ => false)
      ensures data == map[] && file == None && existingFileName == Str("") && !loading && pending == None
      ensures !capex && !opex && !internal && !external && document == doc
    {
      selected := new bool[|Phases|](_ => false);
      data := map[];
      capex, opex, internal, external := false, false, false, false;
      file := None;
      existingFileName := Str("");
      loading := false;
      pending := None;
      document := doc;
    }

    /** The effect that runs when `documentData` changes: a truthy template
        fills the fields, the flags and, when it has a truthy `phase`, the
        switches. */
    method Load(doc: Value)
      requires Valid()
      modifies this, selected
      ensures Valid() && selected == old(selected) && document == doc
      ensures file == old(file) && loading == old(loading) && pending == old(pending)
      ensures !Truthy(doc) ==>
                data == old(data) && existingFileName == old(existingFileName) &&
                capex == old(capex) && opex == old(opex) && internal == old(internal) &&
                external == old(external) && selected[..] == old(selected[..])
      ensures Truthy(doc) ==>
                data == LoadedData(doc) && existingFileName == Or(Get(doc, "document_name"), Str("")) &&
                capex == Truthy(Get(doc, "is_capex")) && opex == Truthy(Get(doc, "is_opex")) &&
                internal == Truthy(Get(doc, "is_internal")) && external == Truthy(Get(doc, "is_external"))
      ensures Truthy(doc) && Readable(Get(doc, "phase")) ==> selected[..] == StoredSelection(Get(doc, "phase"))
      ensures Truthy(doc) && !Readable(Get(doc, "phase")) ==> selected[..] == old(selected[..])
    {
      document := doc;
      if Truthy(doc) {
        LoadFields(doc);
        var phase := Get(doc, "phase");
        if Readable(phase) {
          SetSelection(StoredSelection(phase));
        }
      }
    }

    /** The fields and flags a truthy template fills. */
    method LoadFields(doc: Value)
      requires Valid()
      modifies this
      ensures Valid() && selected == old(selected) && document == old(document)
      ensures file == old(file) && loading == old(loading) && pending == old(pending)
      ensures data == LoadedData(doc) && existingFileName == Or(Get(doc, "document_name"), Str(""))
      ensures capex == Truthy(Get(doc, "is_capex")) && opex == Truthy(Get(doc, "is_opex"))
      ensures internal == Truthy(Get(doc, "is_internal")) && external == Truthy(Get(doc, "is_external"))
    {
      var d, shown := LoadedData(doc), Or(Get(doc, "document_name"), Str(""));
      var c, o := Truthy(Get(doc, "is_capex")), Truthy(Get(doc, "is_opex"));
      var n, e := Truthy(Get(doc, "is_internal")), Truthy(Get(doc, "is_external"));
      data, existingFileName := d, shown;
      capex, opex, internal, external := c, o, n, e;
    }

    /** `setSelectedPhases(initial)`. */
    method SetSelection(initial: seq<bool>)
      requires Valid() && |initial| == selected.Length
      modifies selected
      ensures selected[..] == initial
    {
      forall i | 0 <= i < selected.Length {
        selected[i] := initial[i];
      }
    }

    method TogglePhase(index: nat)
      requires Valid() && index < selected.Length
      modifies selected
      ensures Valid()
      ensures selected[..] == Toggle(old(selected[..]), index)
    {
      if !selected[index] {
        for i := index to selected.Length
          invariant forall k | 0 <= k < selected.Length ::
                      selected[k] == if index <= k < i then true else old(selected[k])
        {
          selected[i] := true;
        }
      } else {
        selected[index] := false;
      }
    }

    method InputChange(name: string, value: string)
      requires Valid()
      modifies this
      ensures Valid() && selected == old(selected) && document == old(document)
      ensures data == old(data)[name := Str(value)]
      ensures capex == old(capex) && opex == old(opex) && internal == old(internal) && external == old(external)
      ensures file == old(file) && existingFileName == old(existingFileName)
      ensures loading == old(loading) && pending == old(pending)
    {
      data := data[name := Str(value)];
    }

    /** A chosen file replaces the template file and the name shown. */
    method ChooseFile(files: seq<string>)
      requires Valid()
      modifies this
      ensures Valid() && selected == old(selected) && data == old(data) && document == old(document)
      ensures |files| > 0 ==> file == Some(files[0]) && existingFileName == Str(files[0])
      ensures |files| == 0 ==> file == old(file) && existingFileName == old(existingFileName)
      ensures capex == old(capex) && opex == old(opex) && internal == old(internal) && external == old(external)
      ensures loading == old(loading) && pending == old(pending)
    {
      if |files| > 0 {
        file := Some(files[0]);
        existingFileName := Str(files[0]);
      }
    }

    /** Capex and opex are plain switches here: both may be on at once. */
    method ToggleCapex()
      requires Valid() && external
      modifies this
      ensures Valid() && selected == old(selected) && data == old(data) && document == old(document)
      ensures capex == !old(capex)
      ensures opex == old(opex) && internal == old(internal) && external == old(external)
      ensures file == old(file) && existingFileName == old(existingFileName)
      ensures loading == old(loading) && pending == old(pending)
    {
      capex := !capex;
    }

    method ToggleOpex()
      requires Valid() && external
      modifies this
      ensures Valid() && selected == old(selected) && data == old(data) && document == old(document)
      ensures opex == !old(opex)
      ensures capex == old(capex) && internal == old(internal) && external == old(external)
      ensures file == old(file) && existingFileName == old(existingFileName)
      ensures loading == old(loading) && pending == old(pending)
    {
      opex := !opex;
    }

    method ToggleExternal()
      requires Valid()
      modifies this
      ensures Valid() && selected == old(selected) && data == old(data) && document == old(document)
      ensures external == !old(external)
      ensures capex == old(capex) && opex == old(opex) && internal == old(internal)
      ensures file == old(file) && existingFileName == old(existingFileName)
      ensures loading == old(loading) && pending == old(pending)
    {
      external := !external;
    }

    method ToggleInternal()
      requires Valid()
      modifies this
      ensures Valid() && selected == old(selected) && data == old(data) && document == old(document)
      ensures internal == !old(internal)
      ensures capex == old(capex) && opex == old(opex) && external == old(external)
      ensures file == old(file) && existingFileName == old(existingFileName)
      ensures loading == old(loading) && pending == old(pending)
    {
      internal := !internal;
    }

    /** The synchronous part of `handleSave`. Reading `documentData.id` when
        the prop is `null` or `undefined` throws after `loading` was set, and
        nothing resets it. */
    method BeginSave() returns (start: SaveStart)
      requires Valid()
      modifies this
      ensures Valid() && selected == old(selected) && data == old(data) && file == old(file)
      ensures document == old(document) && existingFileName == old(existingFileName)
      ensures capex == old(capex) && opex == old(opex) && internal == old(internal) && external == old(external)
      ensures old(loading) ==> start == Busy && loading && pending == old(pending)
      ensures !old(loading) && SaveCheck(data, selected[..], internal, external, capex, opex).Some? ==>
                start == Rejected(SaveCheck(data, selected[..], internal, external, capex, opex).value) &&
                !loading && pending == old(pending)
      ensures !old(loading) && SaveCheck(data, selected[..], internal, external, capex, opex).None? ==>
                loading &&
                (document.Null? || document.Undefined? ==> start == Crashed && pending == old(pending)) &&
                (!document.Null? && !document.Undefined? ==>
                   start == Started(Payload(data, selected[..], Get(document, "id"), internal, external, capex, opex)) &&
                   pending == Some(PendingSave(start.payload, file, Read(data, "file_url"))))
    {
      if loading {
        return Busy;
      }
      var check := SaveCheck(data, selected[..], internal, external, capex, opex);
      if check.Some? {
        return Rejected(check.value);
      }
      loading := true;
      if document.Null? || document.Undefined? {
        return Crashed;
      }
      var payload := Payload(data, selected[..], Get(document, "id"), internal, external, capex, opex);
      pending := Some(PendingSave(payload, file, Read(data, "file_url")));
      return Started(payload);
    }

    /** The rest of `handleSave`: upload a new file under `FileKey(now, name)`,
        post the payload with the new URL or the loaded `file_url`, hand a
        successful answer's `result` to `onSubmit`, and clear `loading`. */
    method FinishSave(now: int, upload: UploadResult, post: PostResult)
      returns (uploadKey: Option<string>, sent: Option<map<string, Value>>, submitted: Option<Value>, message: string)
      requires Valid() && loading && pending.Some?
      modifies this
      ensures Valid() && selected == old(selected) && data == old(data) && file == old(file)
      ensures document == old(document) && existingFileName == old(existingFileName)
      ensures capex == old(capex) && opex == old(opex) && internal == old(internal) && external == old(external)
      ensures !loading && pending == None
      ensures var saved := old(pending).value.file;
              uploadKey == if saved.Some? then Some(FileKey(now, saved.value)) else None
      ensures var saved := old(pending).value;
              sent == WithFileUrl(saved.payload, saved.fileUrl, saved.file.Some?, upload)
      ensures sent.None? ==> submitted == None && message == "Failed: Upload failed: " + upload.message
      ensures sent.Some? ==> (submitted, message) == Settle(post)
    {
      var saved := pending.value;
      uploadKey := if saved.file.Some? then Some(FileKey(now, saved.file.value)) else None;
      sent := WithFileUrl(saved.payload, saved.fileUrl, saved.file.Some?, upload);
      if sent.None? {
        submitted := None;
        message := "Failed: Upload failed: " + upload.message;
      } else {
        var settled := Settle(post);
        submitted, message := settled.0, settled.1;
      }
      loading := false;
      pending := None;
    }
  }

  /** Saving without a new file posts the URL the template was loaded with. */
  lemma KeepsLoadedFileUrl(doc: Value, payload: map<string, Value>, upload: UploadResult)
    ensures WithFileUrl(payload, Read(LoadedData(doc), "file_url"), false, upload).value["file_url"] ==
              Or(Get(doc, "document_url"), Str(""))
  {
  }
}
