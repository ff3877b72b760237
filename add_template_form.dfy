/**
 * The "Add Document" modal: five phase switches that cascade, the capex/opex
 * pair that excludes each other, the internal/external switches, an optional
 * template file, and a save that validates, uploads the file to the
 * `templates` bucket and posts the metadata.
 */
module AddTemplateForm {
  import opened Text
  import opened Json
  import opened TemplateForms

  // ---------------------------------------------------------------------------
  // The phase cascade

  /** `handlePhaseToggle(index)`: the phase at `index` and every later phase
      take the opposite of the phase's current state. */
  function Toggle(s: seq<bool>, index: nat): seq<bool>
    requires index < |s|
  {
    seq(|s|, i requires 0 <= i < |s| => if i >= index then !s[index] else s[i])
  }

  /** What a toggle does: the index flips, every later phase follows it, the earlier ones stay. */
  lemma ToggleEffect(s: seq<bool>, index: nat)
    requires index < |s|
    ensures |Toggle(s, index)| == |s|
    ensures Toggle(s, index)[index] == !s[index]
    ensures forall j | index <= j < |s| :: Toggle(s, index)[j] == Toggle(s, index)[index]
    ensures Toggle(s, index)[..index] == s[..index]
  {
  }

  /** Every selected phase is followed only by selected phases. */
  predicate UpwardClosed(s: seq<bool>) {
    forall i, j | 0 <= i <= j < |s| :: s[i] ==> s[j]
  }

  /** Switching a phase on keeps a suffix-shaped selection suffix-shaped. */
  lemma ToggleOnKeepsClosed(s: seq<bool>, index: nat)
    requires index < |s| && !s[index] && UpwardClosed(s)
    ensures UpwardClosed(Toggle(s, index))
  {
  }

  /** Switching a phase off keeps the selection suffix-shaped exactly when no
      earlier phase was selected, that is when it clears the whole selection. */
  lemma ToggleOffClosedIff(s: seq<bool>, index: nat)
    requires index < |s| && s[index] && UpwardClosed(s)
    ensures UpwardClosed(Toggle(s, index)) <==> forall j | 0 <= j < index :: !s[j]
  {
    var r := Toggle(s, index);
    if UpwardClosed(r) {
      forall j | 0 <= j < index ensures !s[j] {
        assert r[j] == s[j] && !r[index];
      }
    }
  }

  /** So the cascade does not keep the selection suffix-shaped: from the
      initial all-off state, switching on "Bidding phase" and then switching off
      "Execution" leaves "Bidding phase" and "Pre-execution phase" selected and
      the later phases not. */
  lemma CascadeLeavesWindow()
    ensures var s0 := seq(5, _ => false);
            var s2 := Toggle(Toggle(s0, 1), 3);
            UpwardClosed(s0) && s2 == [false, true, true, false, false] && !UpwardClosed(s2)
  {
    var s0 := seq(5, _ => false);
    var s1 := Toggle(s0, 1);
    assert s1 == [false, true, true, true, true];
    var s2 := Toggle(s1, 3);
    assert s2 == [false, true, true, false, false];
    assert s2[1] && !s2[3];
  }

  /** Toggling the same phase twice restores the selection exactly when the
      phases from it on were all in the same state. */
  lemma ToggleTwiceIff(s: seq<bool>, index: nat)
    requires index < |s|
    ensures Toggle(Toggle(s, index), index) == s <==> forall j | index <= j < |s| :: s[j] == s[index]
  {
    var r := Toggle(Toggle(s, index), index);
    if r == s {
      forall j | index <= j < |s| ensures s[j] == s[index] {
        assert r[j] == r[index];
      }
    }
  }

  // ---------------------------------------------------------------------------
  // The payload

  /** `{...data, phase: [...]}` with the flag fields; `file_url` is added after the upload. */
  function Payload(data: map<string, Value>, phases: seq<string>,
                   internal: bool, external: bool, capex: bool, opex: bool): map<string, Value>
  {
    data["phase" := Arr(Texts(phases))] + Flags(internal, external, capex, opex)
  }

  /** The payload holds every form field, the phase names, and the four flags;
      `phase` and the flags override form fields of the same name. */
  lemma PayloadMeaning(data: map<string, Value>, phases: seq<string>,
                       internal: bool, external: bool, capex: bool, opex: bool)
    ensures Payload(data, phases, internal, external, capex, opex).Keys ==
              data.Keys + {"phase", "is_capex", "is_opex", "is_internal", "is_external"}
    ensures Payload(data, phases, internal, external, capex, opex)["phase"] == Arr(Texts(phases))
    ensures forall k | k in data && k != "phase" && k != "is_capex" && k != "is_opex" &&
                       k != "is_internal" && k != "is_external" ::
              Payload(data, phases, internal, external, capex, opex)[k] == data[k]
    ensures Payload(data, phases, internal, external, capex, opex)["is_internal"] == Bool(internal)
    ensures Payload(data, phases, internal, external, capex, opex)["is_external"] == Bool(external)
    ensures internal && !external ==>
              Payload(data, phases, internal, external, capex, opex)["is_capex"] == Bool(false) &&
              Payload(data, phases, internal, external, capex, opex)["is_opex"] == Bool(false)
    ensures !(internal && !external) ==>
              Payload(data, phases, internal, external, capex, opex)["is_capex"] == Bool(capex) &&
              Payload(data, phases, internal, external, capex, opex)["is_opex"] == Bool(opex)
  {
  }

  /** The storage key of an uploaded template: `document-templates/<now>_<name>`. */
  function TemplateKey(now: int, name: string): string {
    "document-templates/" + IntToString(now) + "_" + name
  }

  const Added: string := "Document template added successfully!"
  const SaveFailed: string := "Failed to save document template."

  datatype SaveStart = Busy | Rejected(message: string) | Started(payload: map<string, Value>)

  /** What a started save holds on to across its `await`s: the payload and the
      file chosen when the save began. */
  datatype PendingSave = PendingSave(payload: map<string, Value>, file: Option<string>)

  // ---------------------------------------------------------------------------
  // The modal

  class Form {
    var selected: array<bool>
    var data: map<string, Value>
    var capex: bool
    var opex: bool
    var internal: bool
    var external: bool
    /** The chosen template file's name. */
    var file: Option<string>
    var loading: bool
    /** The save that is waiting for its upload and POST. */
    var pending: Option<PendingSave>

    /** Five switches, and capex and opex never both on. */
    ghost predicate Valid()
      reads this, selected
    {
      selected.Length == |Phases| && !(capex && opex)
    }

    constructor ()
      ensures Valid() && fresh(selected)
      ensures selected[..] == seq(|Phases|, _ => false)
      ensures data == map[] && file == None && !loading && pending == None
      ensures !capex && !opex && !internal && !external
    {
      selected := new bool[|Phases|](_ => false);
      data := map[];
      capex, opex, internal, external := false, false, false, false;
      file := None;
      loading := false;
      pending := None;
    }

    method TogglePhase(index: nat)
      requires Valid() && index < selected.Length
      modifies selected
      ensures Valid()
      ensures selected[..] == Toggle(old(selected[..]), index)
    {
      var v := !selected[index];
      for i := index to selected.Length
        invariant forall k | 0 <= k < selected.Length ::
                    selected[k] == if index <= k < i then v else old(selected[k])
      {
        selected[i] := v;
      }
    }

    /** `handleInputChange`: the field takes the input's text. */
    method InputChange(name: string, value: string)
      requires Valid()
      modifies this
      ensures Valid() && selected == old(selected)
      ensures data == old(data)[name := Str(value)]
      ensures capex == old(capex) && opex == old(opex) && internal == old(internal) && external == old(external)
      ensures file == old(file) && loading == old(loading) && pending == old(pending)
    {
      data := data[name := Str(value)];
    }

    /** `handleFileUpload`: the first chosen file, if any, becomes the template file. */
    method ChooseFile(files: seq<string>)
      requires Valid()
      modifies this
      ensures Valid() && selected == old(selected) && data == old(data)
      ensures file == if |files| > 0 then Some(files[0]) else old(file)
      ensures capex == old(capex) && opex == old(opex) && internal == old(internal) && external == old(external)
      ensures loading == old(loading) && pending == old(pending)
    {
      if |files| > 0 {
        file := Some(files[0]);
      }
    }

    /** The capex switch, shown only for external templates: switching it on switches opex off. */
    method ToggleCapex()
      requires Valid() && external
      modifies this
      ensures Valid() && selected == old(selected) && data == old(data)
      ensures capex == !old(capex)
      ensures opex == if old(capex) then old(opex) else false
      ensures internal == old(internal) && external == old(external)
      ensures file == old(file) && loading == old(loading) && pending == old(pending)
    {
      var wasOn := capex;
      capex := !capex;
      if !wasOn {
        opex := false;
      }
    }

    /** The opex switch, shown only for external templates: switching it on switches capex off. */
    method ToggleOpex()
      requires Valid() && external
      modifies this
      ensures Valid() && selected == old(selected) && data == old(data)
      ensures opex == !old(opex)
      ensures capex == if old(opex) then old(capex) else false
      ensures internal == old(internal) && external == old(external)
      ensures file == old(file) && loading == old(loading) && pending == old(pending)
    {
      var wasOn := opex;
      opex := !opex;
      if !wasOn {
        capex := false;
      }
    }

    method ToggleExternal()
      requires Valid()
      modifies this
      ensures Valid() && selected == old(selected) && data == old(data)
      ensures external == !old(external)
      ensures capex == old(capex) && opex == old(opex) && internal == old(internal)
      ensures file == old(file) && loading == old(loading) && pending == old(pending)
    {
      external := !external;
    }

    method ToggleInternal()
      requires Valid()
      modifies this
      ensures Valid() && selected == old(selected) && data == old(data)
      ensures internal == !old(internal)
      ensures capex == old(capex) && opex == old(opex) && external == old(external)
      ensures file == old(file) && loading == old(loading) && pending == old(pending)
    {
      internal := !internal;
    }

    /** The `forEach`/`push` over the switches: the selected phase names in list order. */
    method CollectPhases() returns (phase: seq<Value>)
      requires selected.Length == |Phases|
      ensures phase == Texts(Pick(selected[..], Phases))
    {
      phase := [];
      for i := 0 to selected.Length
        invariant phase == Texts(Pick(selected[..i], Phases[..i]))
      {
        assert selected[..i + 1][..i] == selected[..i];
        assert Phases[..i + 1][..i] == Phases[..i];
        var picked := Pick(selected[..i], Phases[..i]);
        var tail := if selected[i] then [Phases[i]] else [];
        assert Texts(picked + tail) == Texts(picked) + Texts(tail);
        if selected[i] {
          phase := phase + [Str(Phases[i])];
        }
      }
      assert selected[..selected.Length] == selected[..];
      assert Phases[..selected.Length] == Phases;
    }

    /** The synchronous part of `handleSave`: nothing while a save is running,
        the first failed check's message, or the payload, with `loading` set. */
    method BeginSave() returns (start: SaveStart)
      requires Valid()
      modifies this
      ensures Valid() && selected == old(selected) && data == old(data) && file == old(file)
      ensures capex == old(capex) && opex == old(opex) && internal == old(internal) && external == old(external)
      ensures old(loading) ==> start == Busy && loading && pending == old(pending)
      ensures !old(loading) && SaveCheck(data, selected[..], internal, external, capex, opex).Some? ==>
                start == Rejected(SaveCheck(data, selected[..], internal, external, capex, opex).value) &&
                !loading && pending == old(pending)
      ensures !old(loading) && SaveCheck(data, selected[..], internal, external, capex, opex).None? ==>
                start == Started(Payload(data, Pick(selected[..], Phases), internal, external, capex, opex)) &&
                loading && pending == Some(PendingSave(start.payload, file))
    {
      if loading {
        return Busy;
      }
      var check := SaveCheck(data, selected[..], internal, external, capex, opex);
      if check.Some? {
        return Rejected(check.value);
      }
      loading := true;
      var phase := CollectPhases();
      var payload := data["phase" := Arr(phase)] + Flags(internal, external, capex, opex);
      pending := Some(PendingSave(payload, file));
      return Started(payload);
    }

    /** The rest of `handleSave`: upload the file the save began with under
        `TemplateKey(now, name)` if there was one, post the payload with its
        `file_url` (`null` without a file) unless the upload failed, and clear
        `loading` whatever happened. A file chosen after the save began plays
        no part. `postOk` is whether the POST was answered with a success. */
    method FinishSave(now: int, upload: UploadResult, postOk: bool)
      returns (uploadKey: Option<string>, sent: Option<map<string, Value>>, message: string)
      requires Valid() && loading && pending.Some?
      modifies this
      ensures Valid() && selected == old(selected) && data == old(data) && file == old(file)
      ensures capex == old(capex) && opex == old(opex) && internal == old(internal) && external == old(external)
      ensures !loading && pending == None
      ensures var saved := old(pending).value.file;
              uploadKey == if saved.Some? then Some(TemplateKey(now, saved.value)) else None
      ensures sent == WithFileUrl(old(pending).value.payload, Null, old(pending).value.file.Some?, upload)
      ensures message == if sent.Some? && postOk then Added else SaveFailed
    {
      var saved := pending.value;
      uploadKey := if saved.file.Some? then Some(TemplateKey(now, saved.file.value)) else None;
      sent := WithFileUrl(saved.payload, Null, saved.file.Some?, upload);
      message := if sent.Some? && postOk then Added else SaveFailed;
      loading := false;
      pending := None;
    }
  }

  /** Without a file the posted `file_url` is `null`; with one it is the upload's
      public URL; a failed upload posts nothing. */
  lemma FileUrlRules(payload: map<string, Value>, upload: UploadResult)
    ensures WithFileUrl(payload, Null, false, upload).value["file_url"] == Null
    ensures upload.UploadOk? ==> WithFileUrl(payload, Null, true, upload).value["file_url"] == Str(upload.publicUrl)
    ensures upload.UploadError? ==> WithFileUrl(payload, Null, true, upload) == None
  {
  }
}
