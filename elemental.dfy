/**
 * The part of the `elemental` library that the request-processing core relies on:
 * identities, operation kinds, relationship registries and the rule that queries them,
 * structured errors and their printed form, events, and decimal numbers as text.
 * The library itself is not part of this model; what is written here is the contract
 * the core uses it under.
 */
module Elemental {

  datatype Option<T> = None | Some(value: T)

  datatype Result<T, E> = Success(value: T) | Failure(error: E)

  /** A resource kind: a singular name and a plural category, such as ("list", "lists"). */
  datatype Identity = Identity(name: string, category: string) {
    predicate IsEmpty() {
      name == "" && category == ""
    }
  }

  const RootIdentity := Identity("root", "root")

  /** The seven operations a request can ask for. */
  datatype Operation = Create | Retrieve | RetrieveMany | Update | Delete | Patch | Info {
    /** Operations that are checked against a parent identity (a child relationship). */
    predicate IsParentScoped() {
      this == RetrieveMany || this == Create || this == Info || this == Patch
    }
  }

  /**
   * What an identity allows on its own objects (`allows`), and, per child identity,
   * what it allows on the children created under it.
   */
  datatype Relationship = Relationship(allows: set<Operation>, children: map<Identity, set<Operation>>) {
    function AddChild(child: Identity, ops: set<Operation>): (r: Relationship)
      ensures r.allows == allows
      ensures child in r.children && r.children[child] == ops
      ensures forall c :: c in children && c != child ==> c in r.children && r.children[c] == children[c]
      ensures r.children.Keys == children.Keys + {child}
    {
      Relationship(allows, children[child := ops])
    }
  }

  type Registry = map<Identity, Relationship>

  /**
   * The library's permission query: retrieve, update and delete look at the identity's
   * own relationship; the parent-scoped operations look at the child entry of the
   * parent's relationship. A missing entry refuses.
   */
  predicate IsAllowed(registry: Registry, op: Operation, identity: Identity, parent: Identity) {
    if op.IsParentScoped() then
      parent in registry && identity in registry[parent].children && op in registry[parent].children[identity]
    else
      identity in registry && op in registry[identity].allows
  }

  /** A value that is written as JSON; `Unmarshalable` is one whose encoding fails. */
  datatype Value = Json(text: string) | Unmarshalable {
    predicate Encodable() {
      Json?
    }
  }

  /** A structured error: title, description, subject, numeric code, optional data. */
  datatype Error = Error(title: string, description: string, subject: string, code: nat, data: Option<Value>) {
    predicate Encodable() {
      data.None? || data.value.Encodable()
    }
  }

  function NewError(title: string, description: string, subject: string, code: nat): (e: Error)
    ensures e.title == title && e.description == description && e.subject == subject
    ensures e.code == code && e.Encodable()
  {
    Error(title, description, subject, code, None)
  }

  const StatusOK: nat := 200
  const StatusBadRequest: nat := 400
  const StatusUnauthorized: nat := 401
  const StatusForbidden: nat := 403
  const StatusNotFound: nat := 404
  const StatusMethodNotAllowed: nat := 405
  const StatusLocked: nat := 423
  const StatusTooManyRequests: nat := 429
  const StatusInternalServerError: nat := 500

  datatype EventType = EventCreate | EventUpdate | EventDelete

  datatype Event = Event(kind: EventType, identity: Identity, entity: Value)

  // Decimal numbers as text.

  predicate IsDigit(c: char) {
    '0' <= c <= '9'
  }

  predicate AllDigits(s: string) {
    forall i :: 0 <= i < |s| ==> IsDigit(s[i])
  }

  function DigitChar(d: nat): (c: char)
    requires d < 10
    ensures IsDigit(c) && (c as int) - ('0' as int) == d
  {
    (('0' as int) + d) as char
  }

  /** The decimal text of `n`, without leading zeros. */
  function NatToString(n: nat): (s: string)
    ensures s != [] && AllDigits(s)
    decreases n
  {
    if n < 10 then [DigitChar(n)] else NatToString(n / 10) + [DigitChar(n % 10)]
  }

  function DigitsValue(s: string): nat
    requires AllDigits(s)
  {
    if s == [] then 0 else 10 * DigitsValue(s[..|s| - 1]) + ((s[|s| - 1] as int) - ('0' as int))
  }

  /** Reads a non-empty string of decimal digits; anything else is malformed. */
  function ParseNat(s: string): (r: Option<nat>)
    ensures r.Some? <==> s != [] && AllDigits(s)
  {
    if s != [] && AllDigits(s) then Some(DigitsValue(s)) else None
  }

  lemma {:induction false} DigitsValueOfNatToString(n: nat)
    ensures DigitsValue(NatToString(n)) == n
    decreases n
  {
    var s := NatToString(n);
    if n >= 10 {
      DigitsValueOfNatToString(n / 10);
      assert s[..|s| - 1] == NatToString(n / 10);
    }
  }

  /** Reading back the text of a number gives the number. */
  lemma ParseNatToString(n: nat)
    ensures ParseNat(NatToString(n)) == Some(n)
  {
    DigitsValueOfNatToString(n);
  }

  /** The text of an error, as `error <code> (<subject>): <title>: <description>`. */
  function ErrorString(e: Error): (s: string)
    ensures |s| > 6 + |e.title| + |e.description| + |e.subject|
    ensures s[..6] == "error " && s[|s| - |e.description|..] == e.description
  {
    "error " + NatToString(e.code) + " (" + e.subject + "): " + e.title + ": " + e.description
  }
}
