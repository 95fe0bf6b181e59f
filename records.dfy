/** The optional value used wherever the source returns a value or `None`. */
module Wrappers {

  datatype Option<+T> = None | Some(value: T)
}

/**
 * The catalog records ("properties") as the durable store holds them, and the
 * two store queries the cache layer relies on: every record ordered newest
 * first, and one record by identifier.
 */
module Records {
  import opened Wrappers

  /** A fixed-point decimal: `unscaled` times ten to the power `-scale`. */
  datatype Decimal = Decimal(unscaled: int, scale: nat)

  /** One catalog record. `createdAt` is the creation instant as an integer timestamp. */
  datatype Property = Property(
    id: int,
    title: string,
    description: string,
    price: Decimal,
    location: string,
    createdAt: int
  )

  /** Ordered by creation instant, newest first (non-increasing `createdAt`). */
  ghost predicate NewestFirst(s: seq<Property>)
  {
    forall i, j :: 0 <= i < j < |s| ==> s[i].createdAt >= s[j].createdAt
  }

  /** No two records share an identifier (the identifier is the primary key). */
  ghost predicate UniqueIds(records: seq<Property>)
  {
    forall i, j :: 0 <= i < j < |records| ==> records[i].id != records[j].id
  }

  /**
   * Places `p` in a newest-first sequence, in front of every record that is not
   * newer than it, so that records with equal instants keep their relative order.
   */
  function Insert(p: Property, s: seq<Property>): (r: seq<Property>)
    requires NewestFirst(s)
    ensures NewestFirst(r)
    ensures multiset(r) == multiset(s) + multiset{p}
    ensures |r| == |s| + 1
    ensures r[0] == p || (s != [] && r[0] == s[0])
  {
    if s == [] || p.createdAt >= s[0].createdAt then
      [p] + s
    else
      var rest := Insert(p, s[1..]);
      assert s == [s[0]] + s[1..];
      [s[0]] + rest
  }

  /**
   * The store's "all records ordered by creation time descending" query.
   * Records with equal instants stay in store order.
   */
  function SortNewestFirst(records: seq<Property>): (r: seq<Property>)
    ensures NewestFirst(r)
    ensures multiset(r) == multiset(records)
    ensures |r| == |records|
  {
    if records == [] then
      []
    else
      assert records == [records[0]] + records[1..];
      Insert(records[0], SortNewestFirst(records[1..]))
  }

  /** The store's "one record by identifier" query: the record with `id`, or `None`. */
  function FindById(records: seq<Property>, id: int): (r: Option<Property>)
    ensures r.Some? ==> r.value in records && r.value.id == id
    ensures r.None? <==> forall p :: p in records ==> p.id != id
  {
    if records == [] then
      None
    else if records[0].id == id then
      Some(records[0])
    else
      assert records == [records[0]] + records[1..];
      FindById(records[1..], id)
  }

  /** With unique identifiers, the lookup finds exactly the record carrying that identifier. */
  lemma FindByIdFindsRecord(records: seq<Property>, p: Property)
    requires UniqueIds(records)
    requires p in records
    ensures FindById(records, p.id) == Some(p)
  {
  }
}
