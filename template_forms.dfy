/**
 * What the two document-template modals share: the five phases, the ordered
 * save checks with their messages, the phase list and flag fields of the
 * payload, and the file URL attached before the POST.
 */
module TemplateForms {
  import opened Text
  import opened Json

  const Phases: seq<string> :=
    ["Planning phase", "Bidding phase", "Pre-execution phase", "Execution", "Closing phase"]

  lemma PhasesDistinct()
    ensures |Phases| == 5
    ensures forall i, j | 0 <= i < j < |Phases| :: Phases[i] != Phases[j]
    ensures forall i | 0 <= i < |Phases| :: Phases[i] != ""
  {
  }

  // ---------------------------------------------------------------------------
  // Phase selections

  /** The names at the selected positions, in list order (the `forEach`/`push`
      of the add form). */
  function Pick(selected: seq<bool>, names: seq<string>): (ps: seq<string>)
    requires |selected| == |names|
    ensures |ps| <= |selected|
    decreases |selected|
  {
    if |selected| == 0 then []
    else
      var n := |selected| - 1;
      Pick(selected[..n], names[..n]) + (if selected[n] then [names[n]] else [])
  }

  /** A name is picked exactly when one of its positions is selected. */
  lemma {:induction false} PickMembers(selected: seq<bool>, names: seq<string>, p: string)
    requires |selected| == |names|
    ensures p in Pick(selected, names) <==> exists i | 0 <= i < |names| :: selected[i] && names[i] == p
    decreases |selected|
  {
    if |selected| > 0 {
      var n := |selected| - 1;
      PickMembers(selected[..n], names[..n], p);
      if p in Pick(selected[..n], names[..n]) {
        var i :| 0 <= i < n && selected[..n][i] && names[..n][i] == p;
        assert selected[i] && names[i] == p;
      }
      if exists i | 0 <= i < |names| :: selected[i] && names[i] == p {
        var i :| 0 <= i < |names| && selected[i] && names[i] == p;
        if i < n {
          assert selected[..n][i] && names[..n][i] == p;
        }
      }
    }
  }

  /** The picked names keep the order of the list they were picked from. */
  lemma {:induction false} PickIsSubsequence(selected: seq<bool>, names: seq<string>)
    requires |selected| == |names|
    ensures Subsequence(Pick(selected, names), names)
    decreases |selected|
  {
    if |selected| > 0 {
      var n := |selected| - 1;
      PickIsSubsequence(selected[..n], names[..n]);
      var ps := Pick(selected, names);
      if selected[n] {
        assert ps[..|ps| - 1] == Pick(selected[..n], names[..n]);
      } else {
        assert ps == Pick(selected[..n], names[..n]);
        SubsequenceExtend(ps, names[..n], names[n]);
        assert names[..n] + [names[n]] == names;
      }
    }
  }

  /** `phasesList.map((phase) => phases.includes(phase))`: the edit form's
      selection for a stored phase list. */
  function Selection(stored: seq<string>): (s: seq<bool>)
    ensures |s| == |Phases|
    ensures forall i | 0 <= i < |Phases| :: s[i] == (Phases[i] in stored)
  {
    seq(|Phases|, i requires 0 <= i < |Phases| => Phases[i] in stored)
  }

  /** Reading back a saved phase list gives the selection it was saved from. */
  lemma SelectionOfPick(selected: seq<bool>)
    requires |selected| == |Phases|
    ensures Selection(Pick(selected, Phases)) == selected
  {
    PhasesDistinct();
    forall i | 0 <= i < |Phases| ensures Selection(Pick(selected, Phases))[i] == selected[i] {
      PickMembers(selected, Phases, Phases[i]);
    }
  }

  /** Saving an unchanged selection stores the same phase list again. */
  lemma PickOfSelectionOfPick(selected: seq<bool>)
    requires |selected| == |Phases|
    ensures Pick(Selection(Pick(selected, Phases)), Phases) == Pick(selected, Phases)
  {
    SelectionOfPick(selected);
  }

  /** `.map((selected, index) => selected && phasesList[index])`. */
  function MarkSelected(selected: seq<bool>, names: seq<string>): (vs: seq<Value>)
    requires |selected| == |names|
    ensures |vs| == |selected|
  {
    seq(|selected|, i requires 0 <= i < |selected| => if selected[i] then Str(names[i]) else Bool(false))
  }

  /** `.filter(Boolean)`. */
  function KeepTruthy(vs: seq<Value>): (r: seq<Value>)
    ensures forall v | v in r :: Truthy(v) && v in vs
    decreases |vs|
  {
    if |vs| == 0 then []
    else
      var n := |vs| - 1;
      KeepTruthy(vs[..n]) + (if Truthy(vs[n]) then [vs[n]] else [])
  }

  function Texts(ps: seq<string>): (vs: seq<Value>)
    ensures |vs| == |ps| && forall i | 0 <= i < |ps| :: vs[i] == Str(ps[i])
  {
    seq(|ps|, i requires 0 <= i < |ps| => Str(ps[i]))
  }

  /** Mapping then filtering (the edit form) gives the same list as picking (the
      add form), because no phase name is empty. */
  lemma {:induction false} MarkThenFilterIsPick(selected: seq<bool>, names: seq<string>)
    requires |selected| == |names|
    requires forall i | 0 <= i < |names| :: names[i] != ""
    ensures KeepTruthy(MarkSelected(selected, names)) == Texts(Pick(selected, names))
    decreases |selected|
  {
    if |selected| > 0 {
      var n := |selected| - 1;
      MarkThenFilterIsPick(selected[..n], names[..n]);
      assert MarkSelected(selected, names)[..n] == MarkSelected(selected[..n], names[..n]);
      var tail := if selected[n] then [names[n]] else [];
      assert Texts(Pick(selected[..n], names[..n]) + tail) == Texts(Pick(selected[..n], names[..n])) + Texts(tail);
    }
  }

  // ---------------------------------------------------------------------------
  // The save checks

  const NamesMissing: string := "Please fill in both English and Arabic names"
  const DescriptionMissing: string := "Please provide a document description"
  const PhaseMissing: string := "Please select at least one phase"
  const TypeMissing: string := "Please select at least one project type (Internal or External)"
  const CategoryMissing: string := "Please select either Capex or Opex for external projects"

  /** `data[k]`, `undefined` when absent. */
  function Read(data: map<string, Value>, k: string): Value {
    if k in data then data[k] else Undefined
  }

  predicate AnySelected(selected: seq<bool>) {
    exists i | 0 <= i < |selected| :: selected[i]
  }

  /** The five checks of `handleSave`, in order; only the first failure is reported. */
  function SaveCheck(data: map<string, Value>, selected: seq<bool>,
                     internal: bool, external: bool, capex: bool, opex: bool): (r: Option<string>)
    ensures var names := Truthy(Read(data, "name")) && Truthy(Read(data, "arabic_name"));
            var description := Truthy(Read(data, "description"));
            var category := !external || capex || opex;
            (r.None? <==> names && description && AnySelected(selected) && (internal || external) && category) &&
            (r == Some(NamesMissing) <==> !names) &&
            (r == Some(DescriptionMissing) <==> names && !description) &&
            (r == Some(PhaseMissing) <==> names && description && !AnySelected(selected)) &&
            (r == Some(TypeMissing) <==>
               names && description && AnySelected(selected) && !internal && !external) &&
            (r == Some(CategoryMissing) <==>
               names && description && AnySelected(selected) && (internal || external) && !category)
  {
    if !Truthy(Read(data, "name")) || !Truthy(Read(data, "arabic_name")) then Some(NamesMissing)
    else if !Truthy(Read(data, "description")) then Some(DescriptionMissing)
    else if !AnySelected(selected) then Some(PhaseMissing)
    else if !internal && !external then Some(TypeMissing)
    else if external && !capex && !opex then Some(CategoryMissing)
    else None
  }

  // ---------------------------------------------------------------------------
  // Payload fields

  /** The flag fields: an internal-only template is neither capex nor opex;
      otherwise the selections are carried over. */
  function Flags(internal: bool, external: bool, capex: bool, opex: bool): (f: map<string, Value>)
    ensures f.Keys == {"is_capex", "is_opex", "is_internal", "is_external"}
  {
    var internalOnly := internal && !external;
    map["is_capex" := Bool(if internalOnly then false else capex),
        "is_opex" := Bool(if internalOnly then false else opex),
        "is_internal" := Bool(internal),
        "is_external" := Bool(external)]
  }

  lemma FlagsMeaning(internal: bool, external: bool, capex: bool, opex: bool)
    ensures var f := Flags(internal, external, capex, opex);
            f.Keys == {"is_capex", "is_opex", "is_internal", "is_external"} &&
            f["is_internal"] == Bool(internal) && f["is_external"] == Bool(external) &&
            (internal && !external ==> f["is_capex"] == Bool(false) && f["is_opex"] == Bool(false)) &&
            (!(internal && !external) ==> f["is_capex"] == Bool(capex) && f["is_opex"] == Bool(opex))
  {
  }

  /** A payload built after the checks passed never says external without a
      category, and with exclusive selections it never says both capex and opex. */
  lemma FlagsAfterChecks(data: map<string, Value>, selected: seq<bool>,
                         internal: bool, external: bool, capex: bool, opex: bool)
    requires SaveCheck(data, selected, internal, external, capex, opex).None?
    ensures var f := Flags(internal, external, capex, opex);
            f["is_external"] == Bool(true) ==> f["is_capex"] == Bool(true) || f["is_opex"] == Bool(true)
    ensures !(capex && opex) ==>
              !(Flags(internal, external, capex, opex)["is_capex"] == Bool(true) &&
                Flags(internal, external, capex, opex)["is_opex"] == Bool(true))
  {
  }

  /** The outcome of the storage upload that precedes the POST. */
  datatype UploadResult = UploadOk(publicUrl: string) | UploadError(message: string)

  /** The payload with its `file_url`: the uploaded file's public URL when a file
      was chosen, `fallback` otherwise; `None` when the upload failed, in which
      case nothing is posted. */
  function WithFileUrl(payload: map<string, Value>, fallback: Value, hasFile: bool,
                       upload: UploadResult): (r: Option<map<string, Value>>)
    ensures r.None? <==> hasFile && upload.UploadError?
    ensures r.Some? ==> r.value.Keys == payload.Keys + {"file_url"}
    ensures r.Some? ==> forall k | k in payload && k != "file_url" :: r.value[k] == payload[k]
    ensures r.Some? ==> r.value["file_url"] == if hasFile then Str(upload.publicUrl) else fallback
  {
    if !hasFile then Some(payload["file_url" := fallback])
    else match upload
      case UploadOk(url) => Some(payload["file_url" := Str(url)])
      case UploadError(_) => None
  }
}
