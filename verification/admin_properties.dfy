/**
  The admin property list: the mocked initial list, deletion by id, and the
  case-insensitive search over name and address.
 */
module AdminProperties {
  import opened Common
  import opened Text

  datatype Property = Property(
    id: int,
    name: string,
    address: string,
    sqft: nat,
    occupancy: nat,
    revenue: nat)

  /** The four hard-coded properties the page starts with. */
  const InitialProperties: seq<Property> := [
    Property(1, "Sunset Apartments", "123 Sunset Blvd, Mumbai, Maharashtra 400001", 24000, 22, 3375000),
    Property(2, "Greenview Homes", "456 Green St, Delhi, Delhi 110001", 12000, 10, 2250000),
    Property(3, "Lakeside Condos", "789 Lake Rd, Bangalore, Karnataka 560001", 36000, 32, 5400000),
    Property(4, "Mountain View Residences", "101 Mountain Dr, Chennai, Tamil Nadu 600001", 18000, 16, 2700000)
  ]

  /** The initial list holds four properties whose ids are 1 to 4, in order and so pairwise distinct. */
  lemma InitialIdsDistinct()
    ensures |InitialProperties| == 4
    ensures forall k :: 0 <= k < 4 ==> InitialProperties[k].id == k + 1
    ensures forall j, k :: 0 <= j < k < 4 ==> InitialProperties[j].id != InitialProperties[k].id
  {
  }

  /** The trash button: every property with this id goes, the rest keep their order. */
  function DeleteProperty(ps: seq<Property>, id: int): (r: seq<Property>)
    ensures forall p :: p in r <==> p in ps && p.id != id
    ensures forall p: Property :: p.id != id ==> multiset(r)[p] == multiset(ps)[p]
    ensures Subseq(r, ps)
  {
    Filter(ps, (p: Property) => p.id != id)
  }

  /** Deleting an id no property carries changes nothing. */
  lemma DeleteAbsentUnchanged(ps: seq<Property>, id: int)
    requires forall p :: p in ps ==> p.id != id
    ensures DeleteProperty(ps, id) == ps
  {
    FilterKeepsAll(ps, (p: Property) => p.id != id);
  }

  /** Deleting the same id twice is deleting it once. */
  lemma DeleteIdempotent(ps: seq<Property>, id: int)
    ensures DeleteProperty(DeleteProperty(ps, id), id) == DeleteProperty(ps, id)
  {
    FilterIdempotent(ps, (p: Property) => p.id != id);
  }

  /** The search predicate: the lowered term occurs in the lowered name or the lowered address. */
  predicate Matches(p: Property, term: string) {
    Contains(Lower(p.name), Lower(term)) || Contains(Lower(p.address), Lower(term))
  }

  /** The list shown under the search box. */
  function FilteredProperties(ps: seq<Property>, term: string): (r: seq<Property>)
    ensures Subseq(r, ps)
    ensures forall p :: p in r <==> p in ps && Matches(p, term)
    ensures forall p: Property :: Matches(p, term) ==> multiset(r)[p] == multiset(ps)[p]
  {
    Filter(ps, (p: Property) => Matches(p, term))
  }

  /** Membership in the filtered list, stated with positions of the lowered term. */
  lemma FilteredMembership(ps: seq<Property>, term: string, p: Property)
    ensures p in FilteredProperties(ps, term) <==>
      p in ps && ((exists i :: OccursAt(Lower(p.name), Lower(term), i))
               || (exists i :: OccursAt(Lower(p.address), Lower(term), i)))
  {
    ContainsIff(Lower(p.name), Lower(term));
    ContainsIff(Lower(p.address), Lower(term));
  }

  /** An empty search term shows every property. */
  lemma EmptyTermShowsAll(ps: seq<Property>)
    ensures FilteredProperties(ps, "") == ps
  {
    FilterKeepsAll(ps, (p: Property) => Matches(p, ""));
  }

  /** The search ignores ASCII case: a term and its lower-cased form select the same list. */
  lemma SearchIgnoresCase(ps: seq<Property>, term: string)
    ensures FilteredProperties(ps, Lower(term)) == FilteredProperties(ps, term)
  {
    LowerIdempotent(term);
    FilterCongruent(ps, (p: Property) => Matches(p, Lower(term)), (p: Property) => Matches(p, term));
  }

  /** The "No properties found" message is shown exactly when no property matches the term. */
  function ShowsEmptyState(ps: seq<Property>, term: string): (r: bool)
    ensures r <==> forall p :: p in ps ==> !Matches(p, term)
  {
    |FilteredProperties(ps, term)| == 0
  }
}
