/**
 * The user edit accordion: a form over one user's record that tracks the
 * fields edited since the record arrived, lets the role be chosen from the
 * role list, and refuses to give a second user the single-holder roles PMO
 * and DEPUTY.
 */
module UserAccordion {
  import opened Text
  import opened Json

  /** A role as `/admin/getRoles` lists it. */
  datatype Role = Role(id: int, name: string, userCount: int)

  /** The roles only one user may hold. */
  predicate Exclusive(name: string) {
    name == "PMO" || name == "DEPUTY"
  }

  /** The columns the text inputs write to (their `data-dbname`). */
  const InputColumns: set<string> :=
    {"first_name", "arabic_first_name", "email", "family_name", "arabic_family_name", "password"}

  function Read(m: map<string, Value>, k: string): Value {
    if k in m then m[k] else Undefined
  }

  /** `roles.find((role) => role.id === id)`. */
  function FindRole(roles: seq<Role>, id: Value): (r: Option<Role>)
    ensures r.Some? ==> r.value in roles && Num(r.value.id) == id
    ensures r.None? <==> forall i | 0 <= i < |roles| :: Num(roles[i].id) != id
  {
    if |roles| == 0 then None
    else if Num(roles[0].id) == id then Some(roles[0])
    else FindRole(roles[1..], id)
  }

  /** The role found is the first one with the id. */
  lemma {:induction false} FindRoleFirst(roles: seq<Role>, i: nat)
    requires i < |roles|
    requires forall j | 0 <= j < i :: roles[j].id != roles[i].id
    ensures FindRole(roles, Num(roles[i].id)) == Some(roles[i])
  {
    if i > 0 {
      FindRoleFirst(roles[1..], i - 1);
    }
  }

  // ---------------------------------------------------------------------------
  // Edits

  /** `{...prev}` when `prev` may be `undefined`: spreading it adds nothing. */
  function Base(changed: Option<map<string, Value>>): map<string, Value> {
    if changed.Some? then changed.value else map[]
  }

  /** The `role_id` a select choice gives: `parseInt` of an option's value, or
      `NaN` for "Select a role". */
  function ChosenId(choice: Option<int>): Value {
    if choice.Some? then Num(choice.value) else NaN
  }

  /** `selectedRole?.name || ""`. */
  function ChosenName(roles: seq<Role>, choice: Option<int>): string {
    var found := FindRole(roles, ChosenId(choice));
    if found.Some? then found.value.name else ""
  }

  /** `userData` after a role choice. */
  function WithRole(userData: map<string, Value>, roles: seq<Role>, choice: Option<int>): (u: map<string, Value>)
    ensures u.Keys == userData.Keys + {"role_id", "role_name"}
    ensures u["role_id"] == ChosenId(choice) && u["role_name"] == Str(ChosenName(roles, choice))
    ensures forall k | k in userData && k != "role_id" && k != "role_name" :: u[k] == userData[k]
  {
    userData["role_id" := ChosenId(choice)]["role_name" := Str(ChosenName(roles, choice))]
  }

  /** Every tracked change is what the form shows for that column. */
  predicate Agrees(userData: map<string, Value>, changed: Option<map<string, Value>>) {
    changed.Some? ==> forall k | k in changed.value :: k in userData && userData[k] == changed.value[k]
  }

  /** A choice not in the role list leaves the name empty. */
  lemma UnknownRoleHasNoName(roles: seq<Role>, choice: Option<int>)
    requires forall i | 0 <= i < |roles| :: Num(roles[i].id) != ChosenId(choice)
    ensures ChosenName(roles, choice) == ""
  {
  }

  // ---------------------------------------------------------------------------
  // The save gate

  datatype Decision =
    | Throws             // `Object.keys(undefined)`
    | NothingToChange
    | OnlyOne(message: string)
    | Send(id: Value, data: map<string, Value>)

  /** The PMO/DEPUTY check: the role chosen is a single-holder role that already
      has a holder, and the user did not hold it when the record arrived. */
  predicate Taken(selected: Option<Role>, originalRole: Value) {
    selected.Some? && Exclusive(selected.value.name) && selected.value.userCount >= 1 &&
    !(originalRole == Str(selected.value.name))
  }

  /** The alert for a refused role. */
  function OnlyOneMessage(name: string): string {
    "Only one " + name + " is allowed in the system"
  }

  /** `handleSave` up to the request: the change set, the row's role as it
      arrived (`originalRole`) and the role list decide what happens. */
  function Decide(changed: Option<map<string, Value>>, userData: map<string, Value>,
                  originalRole: Value, roles: seq<Role>): (d: Decision)
    ensures d.Throws? <==> changed.None?
    ensures d.NothingToChange? <==> changed.Some? && |changed.value| == 0
    ensures d.OnlyOne? <==>
              changed.Some? && |changed.value| > 0 && Taken(FindRole(roles, Read(userData, "role_id")), originalRole)
    ensures d.OnlyOne? ==> d.message == OnlyOneMessage(FindRole(roles, Read(userData, "role_id")).value.name)
    ensures d.Send? ==> d.id == Read(userData, "id") && d.data == changed.value
  {
    if changed.None? then Throws
    else if |changed.value| == 0 then NothingToChange
    else
      var selected := FindRole(roles, Read(userData, "role_id"));
      if Taken(selected, originalRole) then OnlyOne(OnlyOneMessage(selected.value.name))
      else Send(Read(userData, "id"), changed.value)
  }

  /** `disabled` on a role's option. */
  predicate OptionDisabled(role: Role, userData: map<string, Value>) {
    Exclusive(role.name) && role.userCount >= 1 && Read(userData, "role_id") != Num(role.id)
  }

  /** The role the form currently shows is never disabled. */
  lemma SelectedOptionEnabled(role: Role, userData: map<string, Value>)
    requires Read(userData, "role_id") == Num(role.id)
    ensures !OptionDisabled(role, userData)
  {
  }

  /** The current holder may save the role again. */
  lemma HolderMayResave(changed: map<string, Value>, userData: map<string, Value>, roles: seq<Role>)
    requires |changed| > 0
    requires FindRole(roles, Read(userData, "role_id")).Some?
    ensures Decide(Some(changed), userData, Str(FindRole(roles, Read(userData, "role_id")).value.name), roles) ==
              Send(Read(userData, "id"), changed)
  {
  }

  /**
   * The option rule is not what guards the role: choosing a single-holder
   * role that already has a holder re-enables its option (it is now the
   * selected one), and it is the save gate that refuses it.
   */
  lemma GateGuardsTakenRole(userData: map<string, Value>, changed: Option<map<string, Value>>,
                            originalRole: Value, roles: seq<Role>, i: nat)
    requires i < |roles| && Exclusive(roles[i].name) && roles[i].userCount >= 1
    requires forall j | 0 <= j < i :: roles[j].id != roles[i].id
    requires originalRole != Str(roles[i].name)
    ensures var u := WithRole(userData, roles, Some(roles[i].id));
            var c := Some(Base(changed)["role_id" := Num(roles[i].id)]);
            !OptionDisabled(roles[i], u) && Decide(c, u, originalRole, roles) == OnlyOne(OnlyOneMessage(roles[i].name))
  {
    FindRoleFirst(roles, i);
    var u := WithRole(userData, roles, Some(roles[i].id));
    var c := Base(changed)["role_id" := Num(roles[i].id)];
    assert "role_id" in c;
    assert |c| > 0;
  }

  /** A request carries only tracked columns, each with the value the form shows. */
  lemma SentDataIsShown(changed: Option<map<string, Value>>, userData: map<string, Value>,
                        originalRole: Value, roles: seq<Role>)
    requires Agrees(userData, changed)
    requires Decide(changed, userData, originalRole, roles).Send?
    ensures forall k | k in Decide(changed, userData, originalRole, roles).data ::
              k in userData && userData[k] == Decide(changed, userData, originalRole, roles).data[k]
  {
  }

  // ---------------------------------------------------------------------------
  // The accordion

  class Accordion {
    /** The `userPersonalData` prop. */
    var personal: map<string, Value>
    var userData: map<string, Value>
    /** `None` is `undefined`, what a successful save leaves behind. */
    var changed: Option<map<string, Value>>
    var roles: seq<Role>

    /** The change set agrees with the form and never tracks `role_name`,
        which no input writes. */
    ghost predicate Valid()
      reads this
    {
      Agrees(userData, changed) && "role_name" !in Base(changed)
    }

    constructor (p: map<string, Value>)
      ensures Valid()
      ensures personal == p && userData == p && changed == Some(map[]) && roles == []
    {
      personal := p;
      userData := p;
      changed := Some(map[]);
      roles := [];
    }

    /** The role list arrived. */
    method ReceiveRoles(result: seq<Role>)
      requires Valid()
      modifies this
      ensures Valid()
      ensures roles == result && personal == old(personal) && userData == old(userData) && changed == old(changed)
    {
      roles := result;
    }

    /** New `userPersonalData`: the form shows it and the change set is empty. */
    method Receive(p: map<string, Value>)
      requires Valid()
      modifies this
      ensures Valid()
      ensures personal == p && userData == p && changed == Some(map[]) && roles == old(roles)
    {
      personal := p;
      userData := p;
      changed := Some(map[]);
    }

    /** `handleInputChange`: the column takes the text in the form and in the change set. */
    method InputChange(column: string, value: string)
      requires Valid() && column in InputColumns
      modifies this
      ensures Valid()
      ensures userData == old(userData)[column := Str(value)]
      ensures changed == Some(Base(old(changed))[column := Str(value)])
      ensures personal == old(personal) && roles == old(roles)
    {
      userData := userData[column := Str(value)];
      changed := Some(Base(changed)[column := Str(value)]);
    }

    /** `handleRoleChange`: the form takes the role's id and name, the change
        set only the id. */
    method RoleChange(choice: Option<int>)
      requires Valid()
      modifies this
      ensures Valid()
      ensures userData == WithRole(old(userData), roles, choice)
      ensures changed == Some(Base(old(changed))["role_id" := ChosenId(choice)])
      ensures personal == old(personal) && roles == old(roles)
    {
      userData := WithRole(userData, roles, choice);
      changed := Some(Base(changed)["role_id" := ChosenId(choice)]);
    }

    /** `handleSave`. `posted` is whether the request succeeded; after a
        success the form shows the prop again and the change set is
        `undefined`, so the next save throws until new data arrives. */
    method Save(posted: bool) returns (decision: Decision)
      requires Valid()
      modifies this
      ensures Valid()
      ensures decision == Decide(old(changed), old(userData), Read(personal, "role_name"), roles)
      ensures decision.Send? && posted ==> userData == personal && changed == None
      ensures !(decision.Send? && posted) ==> userData == old(userData) && changed == old(changed)
      ensures personal == old(personal) && roles == old(roles)
    {
      decision := Decide(changed, userData, Read(personal, "role_name"), roles);
      if decision.Send? && posted {
        changed := None;
        userData := personal;
      }
    }
  }

  /** Saving again right after a successful save throws instead of reporting
      that there is nothing to change. */
  lemma SaveAfterSuccessThrows(userData: map<string, Value>, originalRole: Value, roles: seq<Role>)
    ensures Decide(None, userData, originalRole, roles) == Throws
    ensures Decide(Some(map[]), userData, originalRole, roles) == NothingToChange
  {
  }
}
