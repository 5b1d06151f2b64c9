/** The scope policy: what a granted scope lets the server do, capped at what the
    configuration asked for. */
module Grants {
  import opened Wrappers
  import opened TokenStore

  datatype Grant = ReadWrite | ReadOnly | NoGrant {
    function Rank(): nat {
      match this
      case NoGrant => 0
      case ReadOnly => 1
      case ReadWrite => 2
    }
  }

  datatype AuthError =
    | NotLoggedIn
    | StoreFailed(store: StoreError)
    | WrongApp
    | ScopeChanged
    | Entra(code: string, deleteToken: bool, tokenDeleted: bool)
    | Transport(why: string)
    | ForbiddenScope(names: seq<string>)
    | NoTasksScope(text: string)

  predicate EndsWith(s: string, suffix: string) {
    |suffix| <= |s| && s[|s| - |suffix|..] == suffix
  }

  function GrantFromScope(scope: Scope): Grant {
    if "tasks.readwrite" in scope.names then ReadWrite
    else if "tasks.read" in scope.names then ReadOnly
    else NoGrant
  }

  function CappedAt(grant: Grant, ceiling: Grant): Grant {
    match (grant, ceiling)
    case (NoGrant, _) => NoGrant
    case (_, NoGrant) => NoGrant
    case (ReadOnly, _) => ReadOnly
    case (_, ReadOnly) => ReadOnly
    case (ReadWrite, ReadWrite) => ReadWrite
  }

  function Forbidden(names: seq<string>): (bad: seq<string>)
    ensures bad == [] <==> forall n | n in names :: !EndsWith(n, ".all")
  {
    if names == [] then [] else
    assert names == [names[0]] + names[1..];
    (if EndsWith(names[0], ".all") then [names[0]] else []) + Forbidden(names[1..])
  }

  function VetGrant(granted: Scope, requested: Scope): Result<Grant, AuthError> {
    var bad := Forbidden(granted.names);
    if bad != [] then Err(ForbiddenScope(bad)) else
    match CappedAt(GrantFromScope(granted), GrantFromScope(requested))
    case NoGrant => Err(NoTasksScope(granted.text))
    case grant => Ok(grant)
  }

  /** The cap is the meet of the three grants under "allows no more than". */
  lemma CapIsTheWeaker(grant: Grant, ceiling: Grant, other: Grant)
    ensures other.Rank() <= CappedAt(grant, ceiling).Rank()
            <==> other.Rank() <= grant.Rank() && other.Rank() <= ceiling.Rank()
  {
    match (grant, ceiling) {
      case (ReadWrite, ReadWrite) =>
      case (_, _) =>
    }
  }

  /** What a scope must look like to be accepted, and how far it then reaches:
      never past the request, never nothing, never an organisation-wide scope. */
  lemma VettedGrants(granted: Scope, requested: Scope)
    ensures VetGrant(granted, requested).Ok? <==>
              && (forall n | n in granted.names :: !EndsWith(n, ".all"))
              && GrantFromScope(granted) != NoGrant
              && GrantFromScope(requested) != NoGrant
    ensures VetGrant(granted, requested).Ok? ==>
              var g := VetGrant(granted, requested).value;
              && g != NoGrant
              && g.Rank() <= GrantFromScope(requested).Rank()
              && (g == ReadWrite <==> "tasks.readwrite" in granted.names && "tasks.readwrite" in requested.names)
  {
  }
}
