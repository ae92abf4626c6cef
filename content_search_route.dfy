/**
 * The search handler: the caller's records whose title contains the query,
 * newest first, each with its de-duplicated platforms and the total length
 * of its generated texts.
 */
module ContentSearchRoute {
  import opened Wrappers
  import opened Strings
  import opened Store
  import opened Api
  import Seqs

  datatype Hit = Hit(id: Id, title: string, platforms: seq<string>, createdAt: int, size: nat)

  /** The caller's records whose title contains `q`, in table order. */
  function Matching(records: seq<Row<RecordData>>, user: string, q: string): (r: seq<Row<RecordData>>)
    ensures forall i | 0 <= i < |r| :: r[i] in records && r[i].owner == Some(user) && Contains(r[i].data.title, q)
    ensures forall i | 0 <= i < |records| && records[i].owner == Some(user) && Contains(records[i].data.title, q) :: records[i] in r
    decreases |records|
  {
    if records == [] then []
    else if records[0].owner == Some(user) && Contains(records[0].data.title, q) then [records[0]] + Matching(records[1..], user, q)
    else Matching(records[1..], user, q)
  }

  /** The texts of some generated rows. */
  function Contents(rows: seq<Row<GeneratedData>>): (r: seq<string>)
    ensures |r| == |rows|
    ensures forall i | 0 <= i < |rows| :: r[i] == rows[i].data.content
    decreases |rows|
  {
    if rows == [] then [] else [rows[0].data.content] + Contents(rows[1..])
  }

  function ToHit(r: Row<RecordData>, generated: seq<Row<GeneratedData>>): Hit {
    Hit(r.id, r.data.title, RecordPlatforms(generated, r.id), r.createdAt, Seqs.SumLengths(Contents(RowsOf(generated, r.id))))
  }

  function Hits(rs: seq<Row<RecordData>>, generated: seq<Row<GeneratedData>>): (h: seq<Hit>)
    ensures |h| == |rs|
    ensures forall i | 0 <= i < |rs| :: h[i] == ToHit(rs[i], generated)
    decreases |rs|
  {
    if rs == [] then [] else [ToHit(rs[0], generated)] + Hits(rs[1..], generated)
  }

  /** `GET`: the token gate, then the matching records (query default ''), newest first. */
  function Get(header: Option<string>, verify: string -> Option<string>, query: Option<string>,
               records: seq<Row<RecordData>>, generated: seq<Row<GeneratedData>>): (r: Response<seq<Hit>>)
    ensures r.Failure? <==> BearerUser(header, verify).Failure?
    ensures r.Failure? ==> r.status == 401
    ensures r.Success? ==> |r.body| == |Matching(records, BearerUser(header, verify).body, if query.Some? then query.value else "")|
  {
    match BearerUser(header, verify)
    case Failure(s, e) => Failure(s, e)
    case Success(user) =>
      var q := if query.Some? then query.value else "";
      var found := Seqs.NewestFirst(Matching(records, user, q), CreatedAt);
      Seqs.NewestFirstSpec(Matching(records, user, q), CreatedAt);
      assert |multiset(found)| == |multiset(Matching(records, user, q))|;
      Success(Hits(found, generated))
  }

  /** Every hit is one of the caller's records whose title contains the query. */
  predicate HitsMatch(hits: seq<Hit>, records: seq<Row<RecordData>>, user: string, q: string) {
    forall i | 0 <= i < |hits| ::
      exists r | r in records :: r.id == hits[i].id && r.owner == Some(user) && Contains(r.data.title, q) && r.data.title == hits[i].title
  }

  predicate HitsNewestFirst(hits: seq<Hit>) {
    forall i, j | 0 <= i < j < |hits| :: hits[i].createdAt >= hits[j].createdAt
  }

  /** Every hit is one of the caller's records whose title contains the query; hits come newest first. */
  lemma GetFindsOwnMatches(header: Option<string>, verify: string -> Option<string>, query: Option<string>,
                           records: seq<Row<RecordData>>, generated: seq<Row<GeneratedData>>)
    requires Get(header, verify, query, records, generated).Success?
    ensures var user := BearerUser(header, verify).body;
      var q := if query.Some? then query.value else "";
      var hits := Get(header, verify, query, records, generated).body;
      HitsMatch(hits, records, user, q) && HitsNewestFirst(hits)
  {
    var user := BearerUser(header, verify).body;
    var q := if query.Some? then query.value else "";
    var m := Matching(records, user, q);
    Seqs.NewestFirstSpec(m, CreatedAt);
    var found := Seqs.NewestFirst(m, CreatedAt);
    assert Get(header, verify, query, records, generated).body == Hits(found, generated);
    HitsOfSorted(records, user, q, found, generated);
  }

  lemma HitsOfSorted(records: seq<Row<RecordData>>, user: string, q: string, found: seq<Row<RecordData>>, generated: seq<Row<GeneratedData>>)
    requires Seqs.SortedDesc(found, CreatedAt)
    requires multiset(found) == multiset(Matching(records, user, q))
    ensures HitsMatch(Hits(found, generated), records, user, q) && HitsNewestFirst(Hits(found, generated))
  {
    FoundMatch(records, user, q, found);
    HitsOfMatches(records, user, q, found, generated);
    HitsSorted(found, generated);
  }

  lemma HitsOfMatches(records: seq<Row<RecordData>>, user: string, q: string, found: seq<Row<RecordData>>, generated: seq<Row<GeneratedData>>)
    requires forall i | 0 <= i < |found| :: found[i] in records && found[i].owner == Some(user) && Contains(found[i].data.title, q)
    ensures HitsMatch(Hits(found, generated), records, user, q)
  {
    var hits := Hits(found, generated);
    forall i | 0 <= i < |hits|
      ensures exists r | r in records :: r.id == hits[i].id && r.owner == Some(user) && Contains(r.data.title, q) && r.data.title == hits[i].title
    {
      var r := found[i];
      assert hits[i] == ToHit(r, generated);
      assert r.id == hits[i].id && r.data.title == hits[i].title;
    }
  }

  lemma HitsSorted(found: seq<Row<RecordData>>, generated: seq<Row<GeneratedData>>)
    requires Seqs.SortedDesc(found, CreatedAt)
    ensures HitsNewestFirst(Hits(found, generated))
  {
    var hits := Hits(found, generated);
    forall i, j | 0 <= i < j < |hits| ensures hits[i].createdAt >= hits[j].createdAt {
      assert CreatedAt(found[i]) >= CreatedAt(found[j]);
    }
  }

  lemma FoundMatch(records: seq<Row<RecordData>>, user: string, q: string, found: seq<Row<RecordData>>)
    requires multiset(found) == multiset(Matching(records, user, q))
    ensures forall i | 0 <= i < |found| :: found[i] in records && found[i].owner == Some(user) && Contains(found[i].data.title, q)
  {
    forall i | 0 <= i < |found| ensures found[i] in records && found[i].owner == Some(user) && Contains(found[i].data.title, q) {
      var m := Matching(records, user, q);
      assert found[i] in multiset(found);
      assert found[i] in m;
      var k :| 0 <= k < |m| && m[k] == found[i];
    }
  }

  /** Without a query every title matches, so the search lists all of the caller's records. */
  lemma {:induction false} EmptyQueryMatchesAll(records: seq<Row<RecordData>>, user: string)
    ensures Matching(records, user, "") == Owned(records, user)
    decreases |records|
  {
    if records != [] {
      assert StartsAt(records[0].data.title, "", 0);
      EmptyQueryMatchesAll(records[1..], user);
    }
  }

  /** `size` adds up the texts' lengths: it is at least each text's length, and zero exactly when all texts are empty. */
  lemma {:induction false} SizeBounds(texts: seq<string>)
    ensures forall i | 0 <= i < |texts| :: |texts[i]| <= Seqs.SumLengths(texts)
    ensures Seqs.SumLengths(texts) == 0 <==> forall i | 0 <= i < |texts| :: texts[i] == ""
    decreases |texts|
  {
    if texts != [] {
      SizeBounds(texts[1..]);
      assert forall i | 1 <= i < |texts| :: texts[i] == texts[1..][i - 1];
    }
  }
}
