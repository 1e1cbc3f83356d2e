/**
 * The four roles of the chain and its fixed topology:
 * retailer -> wholesaler -> distributor -> factory, the retailer facing
 * the consumer and the factory producing without a supplier.
 */
module Roles {
  import opened Wrappers

  datatype Role = Retailer | Wholesaler | Distributor | Factory

  /** The roles in the engine's iteration order, downstream first. */
  const Chain: seq<Role> := [Retailer, Wholesaler, Distributor, Factory]

  /** Position of a role in `Chain`. */
  function Index(r: Role): (i: nat)
    ensures i < |Chain| && Chain[i] == r
  {
    match r
    case Retailer => 0
    case Wholesaler => 1
    case Distributor => 2
    case Factory => 3
  }

  /** The role's supplier; the factory has none. */
  function Upstream(r: Role): (u: Option<Role>)
    ensures u.None? <==> r == Factory
  {
    match r
    case Retailer => Some(Wholesaler)
    case Wholesaler => Some(Distributor)
    case Distributor => Some(Factory)
    case Factory => None
  }

  /** The role's customer; the retailer's customer is the consumer demand. */
  function Downstream(r: Role): (d: Option<Role>)
    ensures d.None? <==> r == Retailer
  {
    match r
    case Retailer => None
    case Wholesaler => Some(Retailer)
    case Distributor => Some(Wholesaler)
    case Factory => Some(Distributor)
  }

  /** The engine's role names, in chain order. */
  const Names: seq<string> := ["retailer", "wholesaler", "distributor", "factory"]

  /** The role's name as used in the engine's agent map, its error message and its log. */
  function Name(r: Role): (n: string)
    ensures n == Names[Index(r)]
  {
    match r
    case Retailer => "retailer"
    case Wholesaler => "wholesaler"
    case Distributor => "distributor"
    case Factory => "factory"
  }

  /** Upstream and downstream are inverse links of one chain. */
  lemma UpstreamDownstreamInverse(r: Role, s: Role)
    ensures Upstream(r) == Some(s) <==> Downstream(s) == Some(r)
  {
  }

  /** A supplier sits right after its customer in `Chain`. */
  lemma NeighbourIndex(r: Role)
    ensures Upstream(r).Some? ==> Index(Upstream(r).value) == Index(r) + 1
    ensures Downstream(r).Some? ==> Index(Downstream(r).value) + 1 == Index(r)
  {
  }

  /** Different roles have different names. */
  lemma NamesDistinct(r: Role, s: Role)
    ensures Name(r) == Name(s) ==> r == s
  {
  }

  /** Walking the chain by position visits each role at its own index. */
  lemma ChainIndex(i: nat)
    requires i < |Chain|
    ensures Index(Chain[i]) == i
  {
  }

  /** The four roles are all there is. */
  lemma RoleCases(r: Role)
    ensures r in Chain
  {
  }
}
