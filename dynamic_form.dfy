/**
 * The generic update form: for a table name it lists the fields to edit,
 * pre-fills them from the row being edited, offers portfolio- and
 * program-manager choices drawn from the user list, hides single-holder and
 * administrator roles from the role choice, and enables the program-manager
 * checkbox only while the "PM" role is chosen.
 */
module UpdateDynamicForm {
  import opened Text
  import opened Json

  // ---------------------------------------------------------------------------
  // Fields and pre-filling

  /** The `name`s of `getFormFields()[tableName]`, in order; none for a table it does not list. */
  function FieldNames(table: string): seq<string> {
    if table == "initiative" then ["name", "arabic_name", "description", "arabic_description"]
    else if table == "portfolio" then
      ["name", "arabic_name", "portfolio_manager", "initiative_id", "description", "arabic_description"]
    else if table == "program" then ["name", "arabic_name", "program_manager"]
    else if table == "department" then ["name", "arabic_name"]
    else if table == "users" then
      ["first_name", "arabic_first_name", "family_name", "arabic_family_name", "email",
       "password", "rewritePassword", "department", "role", "is_program_manager"]
    else if table == "project" then ["name", "arabic_name", "description", "arabic_description"]
    else if table == "vendor" then ["name", "arabic_name"]
    else if table == "objective" then ["name", "arabic_name"]
    else []
  }

  /** No table has a field called `id`, so the row's `id` is never overwritten. */
  lemma NoFieldIsId(table: string)
    ensures "id" !in FieldNames(table)
  {
  }

  function Elements(s: seq<string>): set<string> {
    set x | x in s
  }

  /** `v?.toString() || ""`. */
  function TextOrEmpty(v: Value): string {
    if v.Undefined? || v.Null? then "" else Display(v)
  }

  /** The value a field is pre-filled with: for users, the department and role
      selects take the row's ids as text; every other field takes the row's
      value when truthy and `""` otherwise. */
  function PrefillValue(table: string, row: Value, name: string): Value {
    if table == "users" && name == "department" then Str(TextOrEmpty(Get(row, "department_id")))
    else if table == "users" && name == "role" then Str(TextOrEmpty(Get(row, "role_id")))
    else Or(Get(row, name), Str(""))
  }

  /** The `forEach` that builds `filteredData` for `reset`. */
  method Prefill(row: Value, table: string) returns (filtered: map<string, Value>)
    ensures filtered.Keys == {"id"} + Elements(FieldNames(table))
    ensures filtered["id"] == Get(row, "id")
    ensures forall name | name in FieldNames(table) :: filtered[name] == PrefillValue(table, row, name)
  {
    NoFieldIsId(table);
    filtered := PrefillFields(row, table, FieldNames(table));
  }

  /** The loop of `Prefill` over a list of field names that does not hold `id`. */
  method PrefillFields(row: Value, table: string, names: seq<string>) returns (filtered: map<string, Value>)
    requires "id" !in names
    ensures filtered.Keys == {"id"} + Elements(names)
    ensures filtered["id"] == Get(row, "id")
    ensures forall name | name in names :: filtered[name] == PrefillValue(table, row, name)
  {
    filtered := map["id" := Get(row, "id")];
    for i := 0 to |names|
      invariant filtered.Keys == {"id"} + Elements(names[..i])
      invariant filtered["id"] == Get(row, "id")
      invariant forall j | 0 <= j < i :: filtered[names[j]] == PrefillValue(table, row, names[j])
    {
      assert Elements(names[..i + 1]) == Elements(names[..i]) + {names[i]} by {
        assert names[..i + 1] == names[..i] + [names[i]];
      }
      filtered := filtered[names[i] := PrefillValue(table, row, names[i])];
    }
    assert names[..|names|] == names;
  }

  /** A users row without a department or role pre-fills both selects empty,
      and an id of 0 is still shown as "0". */
  lemma UsersSelectsFromIds(row: Value)
    ensures Get(row, "department_id").Null? ==> PrefillValue("users", row, "department") == Str("")
    ensures Get(row, "role_id") == Num(0) ==> PrefillValue("users", row, "role") == Str("0")
    ensures Get(row, "role_id") == Num(7) ==> PrefillValue("users", row, "role") == Str("7")
  {
    assert NatToString(0) == "0";
    assert NatToString(7) == "7";
  }

  // ---------------------------------------------------------------------------
  // Choices

  datatype ManagerKind = PortfolioManager | ProgramManager

  /** `user.role_name?.toUpperCase() === title`. */
  predicate RoleNamed(user: Value, title: string) {
    Get(user, "role_name").Str? && Upper(Get(user, "role_name").s) == title
  }

  /** Who may be offered as a manager of the kind. */
  predicate Qualifies(kind: ManagerKind, user: Value) {
    match kind
    case PortfolioManager => RoleNamed(user, "PORTFOLIO MANAGER")
    case ProgramManager => RoleNamed(user, "PROGRAM MANAGER") || Truthy(Get(user, "is_program_manager"))
  }

  /** The users kept by the option list's `filter`, in their order. */
  function Candidates(kind: ManagerKind, users: seq<Value>): (r: seq<Value>)
    ensures forall u | u in r :: u in users && Qualifies(kind, u)
    decreases |users|
  {
    if |users| == 0 then []
    else
      var n := |users| - 1;
      Candidates(kind, users[..n]) + (if Qualifies(kind, users[n]) then [users[n]] else [])
  }

  /** Every qualifying user is kept. */
  lemma {:induction false} CandidatesKeep(kind: ManagerKind, users: seq<Value>, u: Value)
    requires u in users && Qualifies(kind, u)
    ensures u in Candidates(kind, users)
    decreases |users|
  {
    var n := |users| - 1;
    if u != users[n] {
      assert u in users[..n] by {
        var i :| 0 <= i < |users| && users[i] == u;
        assert i < n && users[..n][i] == u;
      }
      CandidatesKeep(kind, users[..n], u);
    }
  }

  /** The users keep their order. */
  lemma {:induction false} CandidatesInOrder(kind: ManagerKind, users: seq<Value>)
    ensures Subsequence(Candidates(kind, users), users)
    decreases |users|
  {
    if |users| > 0 {
      var n := |users| - 1;
      var prev := Candidates(kind, users[..n]);
      CandidatesInOrder(kind, users[..n]);
      if Qualifies(kind, users[n]) {
        var c := prev + [users[n]];
        assert Candidates(kind, users) == c;
        assert c[..|c| - 1] == prev && c[|c| - 1] == users[|users| - 1];
        assert users[..|users| - 1] == users[..n];
      } else {
        assert Candidates(kind, users) == prev;
        SubsequenceExtend(prev, users[..n], users[n]);
        assert users[..n] + [users[n]] == users;
      }
    }
  }

  datatype SelectOption = SelectOption(value: string, text: string)

  /** `{value: user.id.toString(), label: `${first_name} ${family_name || ""}`}`. */
  function UserOption(user: Value): SelectOption {
    SelectOption(Display(Get(user, "id")),
                 Display(Get(user, "first_name")) + " " + Display(Or(Get(user, "family_name"), Str(""))))
  }

  /** The `filter` then `map`: one option per kept user, in the kept order. */
  function ManagerOptions(kind: ManagerKind, users: seq<Value>): (options: seq<SelectOption>)
    ensures |options| == |Candidates(kind, users)|
    ensures forall i | 0 <= i < |options| :: options[i] == UserOption(Candidates(kind, users)[i])
  {
    var c := Candidates(kind, users);
    seq(|c|, i requires 0 <= i < |c| => UserOption(c[i]))
  }

  /** An option is offered exactly when it is the option of a qualifying user. */
  lemma ManagerOptionsMembers(kind: ManagerKind, users: seq<Value>, o: SelectOption)
    ensures o in ManagerOptions(kind, users) <==> exists u | u in users && Qualifies(kind, u) :: UserOption(u) == o
  {
    var c := Candidates(kind, users);
    if o in ManagerOptions(kind, users) {
      var i :| 0 <= i < |c| && ManagerOptions(kind, users)[i] == o;
      assert c[i] in c;
    }
    if exists u | u in users && Qualifies(kind, u) :: UserOption(u) == o {
      var u :| u in users && Qualifies(kind, u) && UserOption(u) == o;
      CandidatesKeep(kind, users, u);
      var i :| 0 <= i < |c| && c[i] == u;
      assert ManagerOptions(kind, users)[i] == o;
    }
  }

  /** The options keep the order of the user list. */
  lemma ManagerOptionsInOrder(kind: ManagerKind, users: seq<Value>)
    ensures Subsequence(ManagerOptions(kind, users), MapSeq(users, UserOption))
  {
    var c := Candidates(kind, users);
    CandidatesInOrder(kind, users);
    SubsequenceMap(c, users, UserOption);
    assert MapSeq(c, UserOption) == ManagerOptions(kind, users);
  }

  /** `finalUsers`: the `users` prop unless it is empty, then the store's list. */
  function ChoiceUsers(given: seq<Value>, stored: seq<Value>): seq<Value> {
    if |given| > 0 then given else stored
  }

  /** The manager options the form offers, drawn from `finalUsers`. */
  function OfferedOptions(kind: ManagerKind, given: seq<Value>, stored: seq<Value>): (options: seq<SelectOption>)
    ensures |given| > 0 ==> options == ManagerOptions(kind, given)
    ensures |given| == 0 ==> options == ManagerOptions(kind, stored)
  {
    ManagerOptions(kind, ChoiceUsers(given, stored))
  }

  /** With a non-empty `users` prop the store's list plays no part. */
  lemma StoreUsersUnused(kind: ManagerKind, given: seq<Value>, stored1: seq<Value>, stored2: seq<Value>)
    requires |given| > 0
    ensures OfferedOptions(kind, given, stored1) == OfferedOptions(kind, given, stored2)
  {
  }

  /** An option is offered exactly when a qualifying user of the prop list
      yields it, or, when the prop list is empty, a qualifying user of the
      store's list. */
  lemma OfferedOptionsMembers(kind: ManagerKind, given: seq<Value>, stored: seq<Value>, o: SelectOption)
    ensures |given| > 0 ==>
              (o in OfferedOptions(kind, given, stored) <==>
                 exists u | u in given && Qualifies(kind, u) :: UserOption(u) == o)
    ensures |given| == 0 ==>
              (o in OfferedOptions(kind, given, stored) <==>
                 exists u | u in stored && Qualifies(kind, u) :: UserOption(u) == o)
  {
    ManagerOptionsMembers(kind, ChoiceUsers(given, stored), o);
  }

  /** A user flagged as program manager is offered whatever the role name. */
  lemma FlaggedUserOffered(users: seq<Value>, u: Value)
    requires u in users && Truthy(Get(u, "is_program_manager"))
    ensures UserOption(u) in ManagerOptions(ProgramManager, users)
  {
    ManagerOptionsMembers(ProgramManager, users, UserOption(u));
  }

  /** `hidden` on an option of the select named `field`. */
  predicate HiddenOption(field: string, text: string) {
    field == "role" && (Upper(text) == "DEPUTY" || Upper(text) == "PMO" || Upper(text) == "ADMIN")
  }

  /** The hiding ignores letter case, applies only to the role select, and
      leaves the "PM" role visible. */
  lemma HiddenOptionRules(field: string, text: string)
    ensures HiddenOption(field, text) == HiddenOption(field, Upper(text))
    ensures field != "role" ==> !HiddenOption(field, text)
    ensures HiddenOption("role", "pmo") && HiddenOption("role", "Deputy") && HiddenOption("role", "ADMIN")
    ensures !HiddenOption("role", "PM")
  {
    UpperIdempotent(text);
  }

  // ---------------------------------------------------------------------------
  // The form

  class Form {
    /** The form values `reset` and the selects set. */
    var values: map<string, Value>
    /** Whether the program-manager checkbox is enabled. */
    var pmRole: bool

    constructor ()
      ensures values == map[] && !pmRole
    {
      values := map[];
      pmRole := false;
    }

    /** The effect on `data`: a truthy row replaces the form values with its
        pre-filled fields. */
    method Load(row: Value, table: string)
      modifies this
      ensures !Truthy(row) ==> values == old(values)
      ensures Truthy(row) ==> values.Keys == {"id"} + Elements(FieldNames(table))
      ensures Truthy(row) ==> values["id"] == Get(row, "id")
      ensures Truthy(row) ==> forall name | name in FieldNames(table) :: values[name] == PrefillValue(table, row, name)
      ensures pmRole == old(pmRole)
    {
      if Truthy(row) {
        values := Prefill(row, table);
      }
    }

    /** A select changed: the form takes the value under the select's name, and
        a change of the role select enables the checkbox exactly when the
        chosen option's text is "PM". */
    method Change(name: string, value: string, selectedText: string)
      modifies this
      ensures values == old(values)[name := Str(value)]
      ensures name == "role" ==> pmRole == (selectedText == "PM")
      ensures name != "role" ==> pmRole == old(pmRole)
    {
      values := values[name := Str(value)];
      if name == "role" {
        pmRole := selectedText == "PM";
      }
    }
  }
}
