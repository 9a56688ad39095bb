/**
 * The server configuration that the decision logic reads: the security chains
 * (request authenticators, session authenticators, authorizers) and how their answers
 * reduce to one verdict, and the model configuration (one relationship registry per
 * API version, and the read-only mode).
 */
module Config {
  import opened Elemental

  /** What one authenticator or authorizer tells the chain. */
  datatype AuthAction = AuthActionOK | AuthActionKO | AuthActionContinue

  /** The answer of one link: an action, and possibly an error returned beside it. */
  datatype AuthAnswer = AuthAnswer(action: AuthAction, err: Option<string>)

  /** What a whole chain decides. */
  datatype Verdict = Granted | Denied | Failed(reason: string)

  /** A link ends the chain when it returns an error, grants or denies. */
  predicate Decisive(a: AuthAnswer) {
    a.err.Some? || a.action != AuthActionContinue
  }

  /** The verdict of a link that ends the chain: an error wins over the action beside it. */
  function LinkVerdict(a: AuthAnswer): (v: Verdict)
    requires Decisive(a)
    ensures v.Failed? <==> a.err.Some?
    ensures v.Granted? <==> a.err.None? && a.action == AuthActionOK
    ensures v.Denied? <==> a.err.None? && a.action == AuthActionKO
  {
    if a.err.Some? then Failed(a.err.value)
    else if a.action == AuthActionOK then Granted
    else Denied
  }

  /**
   * The chain evaluated from index 0 to index n: the first link that grants, denies or
   * errs decides; when every link lets the chain continue (an empty chain included),
   * the chain grants.
   */
  function RunChain(chain: seq<AuthAnswer>): (v: Verdict)
  {
    if chain == [] then Granted
    else if Decisive(chain[0]) then LinkVerdict(chain[0])
    else RunChain(chain[1..])
  }

  /** How many links the chain evaluates before it stops. */
  function Consulted(chain: seq<AuthAnswer>): (n: nat)
  {
    if chain == [] then 0
    else if Decisive(chain[0]) then 1
    else 1 + Consulted(chain[1..])
  }

  /** The documented rule, stated on positions rather than by recursion. */
  ghost predicate ChainYields(chain: seq<AuthAnswer>, v: Verdict) {
    || ((forall i :: 0 <= i < |chain| ==> !Decisive(chain[i])) && v == Granted)
    || (exists k :: 0 <= k < |chain| && Decisive(chain[k])
          && (forall i :: 0 <= i < k ==> !Decisive(chain[i]))
          && v == LinkVerdict(chain[k]))
  }

  /** The fold agrees with the positional rule. */
  lemma {:induction false} RunChainYields(chain: seq<AuthAnswer>)
    ensures ChainYields(chain, RunChain(chain))
  {
    if chain != [] && !Decisive(chain[0]) {
      var tail := chain[1..];
      RunChainYields(tail);
      if forall i :: 0 <= i < |tail| ==> !Decisive(tail[i]) {
        assert forall i :: 0 <= i < |chain| ==> !Decisive(chain[i]) by {
          forall i | 0 <= i < |chain| ensures !Decisive(chain[i]) {
            if i > 0 { assert chain[i] == tail[i - 1]; }
          }
        }
      } else {
        var k :| 0 <= k < |tail| && Decisive(tail[k])
          && (forall i :: 0 <= i < k ==> !Decisive(tail[i]))
          && RunChain(tail) == LinkVerdict(tail[k]);
        assert chain[k + 1] == tail[k];
        forall i | 0 <= i < k + 1 ensures !Decisive(chain[i]) {
          if i > 0 { assert chain[i] == tail[i - 1]; }
        }
      }
    }
  }

  /** The positional rule determines one verdict, so it is the rule the fold computes. */
  lemma ChainYieldsUnique(chain: seq<AuthAnswer>, v: Verdict)
    requires ChainYields(chain, v)
    ensures v == RunChain(chain)
  {
    RunChainYields(chain);
    if !forall i :: 0 <= i < |chain| ==> !Decisive(chain[i]) {
      var k :| 0 <= k < |chain| && Decisive(chain[k])
        && (forall i :: 0 <= i < k ==> !Decisive(chain[i])) && v == LinkVerdict(chain[k]);
      var j :| 0 <= j < |chain| && Decisive(chain[j])
        && (forall i :: 0 <= i < j ==> !Decisive(chain[i])) && RunChain(chain) == LinkVerdict(chain[j]);
      assert !(j < k) && !(k < j);
    }
  }

  /**
   * Early exit: once a link decides, whatever follows it is never evaluated and cannot
   * change the verdict.
   */
  lemma {:induction false} EarlyExit(prefix: seq<AuthAnswer>, link: AuthAnswer, rest: seq<AuthAnswer>)
    requires forall i :: 0 <= i < |prefix| ==> !Decisive(prefix[i])
    requires Decisive(link)
    ensures RunChain(prefix + [link] + rest) == LinkVerdict(link)
    ensures Consulted(prefix + [link] + rest) == |prefix| + 1
  {
    var chain := prefix + [link] + rest;
    if prefix == [] {
      assert chain[0] == link;
    } else {
      assert chain[0] == prefix[0];
      assert chain[1..] == prefix[1..] + [link] + rest;
      EarlyExit(prefix[1..], link, rest);
    }
  }

  /** A chain in which every link lets it continue grants, having evaluated every link. */
  lemma {:induction false} AllContinueGrants(chain: seq<AuthAnswer>)
    requires forall i :: 0 <= i < |chain| ==> chain[i] == AuthAnswer(AuthActionContinue, None)
    ensures RunChain(chain) == Granted
    ensures Consulted(chain) == |chain|
  {
    if chain != [] {
      assert chain[0] == AuthAnswer(AuthActionContinue, None);
      AllContinueGrants(chain[1..]);
    }
  }

  /**
   * The model configuration: the relationship registry of each API version, the
   * read-only switch and the identities that stay writable in read-only mode.
   */
  datatype ModelConfig = ModelConfig(
    registries: map<int, Registry>,
    readOnly: bool,
    readOnlyExcludedIdentities: seq<Identity>)

  /** The registry for a version; a version without one reads as an empty registry. */
  function RegistryFor(m: ModelConfig, version: int): (r: Registry)
    ensures version in m.registries ==> r == m.registries[version]
    ensures version !in m.registries ==> forall op, i, p :: !IsAllowed(r, op, i, p)
  {
    if version in m.registries then m.registries[version] else map[]
  }

  predicate IsWriteOperation(op: Operation) {
    op == Create || op == Update || op == Delete || op == Patch
  }

  /**
   * Read-only mode: a write operation on an identity that is not excluded is answered
   * with 423 (Locked); reads and excluded identities pass.
   */
  function ReadOnlyStatus(m: ModelConfig, op: Operation, identity: Identity): (status: Option<nat>)
    ensures status.Some? ==> status.value == StatusLocked
    ensures status.Some? <==> m.readOnly && IsWriteOperation(op) && identity !in m.readOnlyExcludedIdentities
  {
    if m.readOnly && IsWriteOperation(op) && identity !in m.readOnlyExcludedIdentities then Some(StatusLocked)
    else None
  }
}
