/**
 * The test model the servers are exercised with: four resource kinds (root, list,
 * task, user), their validation rules, the factory that makes an empty object from an
 * identity name, and the relationship registry that says which operation is allowed
 * where.
 */
module TestModel {
  import opened Elemental

  const ListIdentity := Identity("list", "lists")
  const TaskIdentity := Identity("task", "tasks")
  const UserIdentity := Identity("user", "users")
  // The root identity is ("root", "root"), the same value as Elemental.RootIdentity.

  datatype List = List(
    id: string, creationOnly: string, description: string, name: string,
    parentID: string, parentType: string, readOnly: string)

  datatype Task = Task(
    id: string, description: string, name: string,
    parentID: string, parentType: string, status: string)

  datatype Root = Root(id: string, parentID: string, parentType: string, token: string, organization: string)

  datatype User = User(
    id: string, firstName: string, lastName: string,
    parentID: string, parentType: string, userName: string)

  /** Any object of the model. */
  datatype Identifiable =
    | ListObject(list: List)
    | TaskObject(task: Task)
    | RootObject(root: Root)
    | UserObject(user: User)

  const TaskStatusDone := "DONE"
  const TaskStatusProgress := "PROGRESS"
  const TaskStatusTodo := "TODO"
  const TaskStatusValues := [TaskStatusDone, TaskStatusProgress, TaskStatusTodo]

  function NewList(): List { List("", "", "", "", "", "", "") }
  function NewTask(): Task { Task("", "", "", "", "", TaskStatusTodo) }
  function NewRoot(): Root { Root("", "", "", "", "") }
  function NewUser(): User { User("", "", "", "", "", "") }

  function IdentityOf(o: Identifiable): Identity {
    match o
    case ListObject(_) => ListIdentity
    case TaskObject(_) => TaskIdentity
    case RootObject(_) => RootIdentity
    case UserObject(_) => UserIdentity
  }

  function Identifier(o: Identifiable): string {
    match o
    case ListObject(l) => l.id
    case TaskObject(t) => t.id
    case RootObject(r) => r.id
    case UserObject(u) => u.id
  }

  /** The object with its identifier blanked: everything `SetIdentifier` must leave alone. */
  function WithoutIdentifier(o: Identifiable): Identifiable {
    match o
    case ListObject(l) => ListObject(l.(id := ""))
    case TaskObject(t) => TaskObject(t.(id := ""))
    case RootObject(r) => RootObject(r.(id := ""))
    case UserObject(u) => UserObject(u.(id := ""))
  }

  /** Sets the identifier; reading it back gives the value set, and nothing else changes. */
  function SetIdentifier(o: Identifiable, id: string): (r: Identifiable)
    ensures Identifier(r) == id
    ensures IdentityOf(r) == IdentityOf(o)
    ensures WithoutIdentifier(r) == WithoutIdentifier(o)
  {
    match o
    case ListObject(l) => ListObject(l.(id := id))
    case TaskObject(t) => TaskObject(t.(id := id))
    case RootObject(r) => RootObject(r.(id := id))
    case UserObject(u) => UserObject(u.(id := id))
  }

  /**
   * A new, empty object of the kind named; no object for a name outside the four
   * registered ones.
   */
  function IdentifiableForIdentity(name: string): (r: Option<Identifiable>)
    ensures r.Some? <==> name == "root" || name == "task" || name == "list" || name == "user"
    ensures r.Some? ==> IdentityOf(r.value).name == name && Identifier(r.value) == ""
    ensures name == "root" ==> r == Some(RootObject(NewRoot()))
    ensures name == "task" ==> r == Some(TaskObject(NewTask()))
    ensures name == "list" ==> r == Some(ListObject(NewList()))
    ensures name == "user" ==> r == Some(UserObject(NewUser()))
  {
    if name == RootIdentity.name then Some(RootObject(NewRoot()))
    else if name == TaskIdentity.name then Some(TaskObject(NewTask()))
    else if name == ListIdentity.name then Some(ListObject(NewList()))
    else if name == UserIdentity.name then Some(UserObject(NewUser()))
    else None
  }

  // Validation.

  datatype ValidationError =
    | RequiredAttribute(attribute: string)
    | NotInList(attribute: string, value: string, allowed: seq<string>)

  /** One "required" error per empty field, in the order the fields are given. */
  function MissingRequired(fields: seq<(string, string)>): (errs: seq<ValidationError>)
  {
    if fields == [] then []
    else (if fields[0].1 == "" then [RequiredAttribute(fields[0].0)] else []) + MissingRequired(fields[1..])
  }

  /** Exactly the empty fields are reported, in field order, and nothing else. */
  lemma {:induction false} MissingRequiredReportsEmptyFields(fields: seq<(string, string)>)
    ensures MissingRequired(fields) == [] <==> forall i :: 0 <= i < |fields| ==> fields[i].1 != ""
    ensures forall i :: 0 <= i < |fields| && fields[i].1 == "" ==> RequiredAttribute(fields[i].0) in MissingRequired(fields)
    ensures forall e :: e in MissingRequired(fields) ==>
      e.RequiredAttribute? && exists i :: 0 <= i < |fields| && fields[i] == (e.attribute, "")
  {
    if fields != [] {
      var tail := fields[1..];
      MissingRequiredReportsEmptyFields(tail);
      forall i | 0 <= i < |fields| && fields[i].1 == ""
        ensures RequiredAttribute(fields[i].0) in MissingRequired(fields)
      {
        if i > 0 { assert fields[i] == tail[i - 1]; }
      }
      forall e | e in MissingRequired(fields)
        ensures e.RequiredAttribute? && exists i :: 0 <= i < |fields| && fields[i] == (e.attribute, "")
      {
        if e in MissingRequired(tail) {
          var i :| 0 <= i < |tail| && tail[i] == (e.attribute, "");
          assert fields[i + 1] == tail[i];
        } else {
          assert fields[0] == (e.attribute, "");
        }
      }
      if MissingRequired(fields) == [] {
        forall i | 0 <= i < |fields| ensures fields[i].1 != "" {
          if i > 0 { assert fields[i] == tail[i - 1]; }
        }
      }
    }
  }

  /** Unfolds `MissingRequired` on three fields. */
  lemma MissingRequiredOfThree(a: (string, string), b: (string, string), c: (string, string))
    ensures MissingRequired([a, b, c]) ==
      (if a.1 == "" then [RequiredAttribute(a.0)] else [])
      + (if b.1 == "" then [RequiredAttribute(b.0)] else [])
      + (if c.1 == "" then [RequiredAttribute(c.0)] else [])
  {
    assert [c][1..] == [];
    assert MissingRequired([c]) == (if c.1 == "" then [RequiredAttribute(c.0)] else []);
    assert [b, c][1..] == [c];
    assert MissingRequired([b, c]) == (if b.1 == "" then [RequiredAttribute(b.0)] else []) + MissingRequired([c]);
    assert [a, b, c][1..] == [b, c];
  }

  /** A list needs its creationOnly, name and readOnly attributes, reported in that order. */
  method ValidateList(l: List) returns (r: Option<seq<ValidationError>>)
    ensures r.None? <==> l.creationOnly != "" && l.name != "" && l.readOnly != ""
    ensures r.Some? ==>
      r.value == MissingRequired([("creationOnly", l.creationOnly), ("name", l.name), ("readOnly", l.readOnly)])
  {
    var errors: seq<ValidationError> := [];
    if l.creationOnly == "" {
      errors := errors + [RequiredAttribute("creationOnly")];
    }
    if l.name == "" {
      errors := errors + [RequiredAttribute("name")];
    }
    if l.readOnly == "" {
      errors := errors + [RequiredAttribute("readOnly")];
    }
    MissingRequiredOfThree(("creationOnly", l.creationOnly), ("name", l.name), ("readOnly", l.readOnly));
    if |errors| > 0 {
      return Some(errors);
    }
    return None;
  }

  /** A task needs a name, and its status must be DONE, PROGRESS or TODO. */
  method ValidateTask(t: Task) returns (r: Option<seq<ValidationError>>)
    ensures r.None? <==> t.name != "" && t.status in TaskStatusValues
    ensures r.Some? ==>
      r.value == MissingRequired([("name", t.name)])
        + (if t.status in TaskStatusValues then [] else [NotInList("status", t.status, TaskStatusValues)])
  {
    var errors: seq<ValidationError> := [];
    if t.name == "" {
      errors := errors + [RequiredAttribute("name")];
    }
    if t.status !in TaskStatusValues {
      errors := errors + [NotInList("status", t.status, TaskStatusValues)];
    }
    assert [("name", t.name)][1..] == [];
    if |errors| > 0 {
      return Some(errors);
    }
    return None;
  }

  /** A user needs a first name, a last name and a user name. */
  method ValidateUser(u: User) returns (r: Option<seq<ValidationError>>)
    ensures r.None? <==> u.firstName != "" && u.lastName != "" && u.userName != ""
    ensures r.Some? ==>
      r.value == MissingRequired([("firstName", u.firstName), ("lastName", u.lastName), ("userName", u.userName)])
  {
    var errors: seq<ValidationError> := [];
    if u.firstName == "" {
      errors := errors + [RequiredAttribute("firstName")];
    }
    if u.lastName == "" {
      errors := errors + [RequiredAttribute("lastName")];
    }
    if u.userName == "" {
      errors := errors + [RequiredAttribute("userName")];
    }
    MissingRequiredOfThree(("firstName", u.firstName), ("lastName", u.lastName), ("userName", u.userName));
    if |errors| > 0 {
      return Some(errors);
    }
    return None;
  }

  /** The root has no constraint to check. */
  method ValidateRoot(o: Root) returns (r: Option<seq<ValidationError>>)
    ensures r == None
  {
    var errors: seq<ValidationError> := [];
    if |errors| > 0 {
      return Some(errors);
    }
    return None;
  }

  /** A new task starts as TODO: its status passes, and only its missing name is reported. */
  method NewTaskValidation() returns (r: Option<seq<ValidationError>>)
    ensures r == Some([RequiredAttribute("name")])
  {
    assert TaskStatusValues[2] == NewTask().status;
    assert [("name", "")][1..] == [];
    assert MissingRequired([("name", "")]) == [RequiredAttribute("name")];
    r := ValidateTask(NewTask());
    assert r.Some?;
  }

  // The relationship registry.

  /**
   * The permission table, written as a decision per (operation, identity, parent):
   * root allows retrieve of itself; task, list and user allow retrieve, update and
   * delete of themselves; under root, lists and users allow create, retrieveMany and
   * info; under a list, tasks allow create, retrieveMany and info, and users allow
   * patch, retrieveMany and info.
   */
  predicate TablePermits(op: Operation, identity: Identity, parent: Identity) {
    if op.IsParentScoped() then
      || (parent == RootIdentity && (identity == ListIdentity || identity == UserIdentity)
            && (op == Create || op == RetrieveMany || op == Info))
      || (parent == ListIdentity && identity == TaskIdentity
            && (op == Create || op == RetrieveMany || op == Info))
      || (parent == ListIdentity && identity == UserIdentity
            && (op == Patch || op == RetrieveMany || op == Info))
    else
      || (identity == RootIdentity && op == Retrieve)
      || ((identity == TaskIdentity || identity == ListIdentity || identity == UserIdentity)
            && (op == Retrieve || op == Update || op == Delete))
  }

  /** Builds the registry entry by entry; the result permits exactly what the table says. */
  method BuildRelationships() returns (registry: Registry)
    ensures registry.Keys == {RootIdentity, TaskIdentity, ListIdentity, UserIdentity}
    ensures forall op, identity, parent ::
      IsAllowed(registry, op, identity, parent) <==> TablePermits(op, identity, parent)
  {
    registry := map[];

    var rootMain := Relationship({Retrieve}, map[]);
    rootMain := rootMain.AddChild(ListIdentity, {Create, RetrieveMany, Info});
    rootMain := rootMain.AddChild(UserIdentity, {Create, RetrieveMany, Info});
    registry := registry[RootIdentity := rootMain];

    var taskMain := Relationship({Retrieve, Update, Delete}, map[]);
    registry := registry[TaskIdentity := taskMain];

    var listMain := Relationship({Retrieve, Update, Delete}, map[]);
    listMain := listMain.AddChild(TaskIdentity, {Create, RetrieveMany, Info});
    listMain := listMain.AddChild(UserIdentity, {Patch, RetrieveMany, Info});
    registry := registry[ListIdentity := listMain];

    var userMain := Relationship({Retrieve, Update, Delete}, map[]);
    registry := registry[UserIdentity := userMain];

    forall op, identity, parent
      ensures IsAllowed(registry, op, identity, parent) <==> TablePermits(op, identity, parent)
    {
      if op.IsParentScoped() {
        if parent == RootIdentity {
          assert registry[parent].children.Keys == {ListIdentity, UserIdentity};
        } else if parent == ListIdentity {
          assert registry[parent].children.Keys == {TaskIdentity, UserIdentity};
        }
      }
    }
  }
}
