/**
 * Pieces shared by the API handlers: the two ways a bearer token is taken
 * from the Authorization header, the page/limit arithmetic, and the
 * order-preserving de-duplication of platform names.
 */
module Api {
  import opened Wrappers
  import opened Strings
  import Seqs
  import opened Store

  /** A handler's answer: a JSON body, or an HTTP error status with its message. */
  datatype Response<+T> = Success(body: T) | Failure(status: int, error: string)

  /** `header?.split(' ')[1]`, empty or absent counting as no token. */
  function TokenFromHeader(header: Option<string>): Option<string> {
    match header
    case None => None
    case Some(h) =>
      var words := Split(h, " ");
      if |words| >= 2 && words[1] != "" then Some(words[1]) else None
  }

  /** The Bearer form (section 2.1 of RFC 6750) yields its token. */
  lemma TokenFromBearer(t: string)
    requires t != "" && ' ' !in t
    ensures TokenFromHeader(Some("Bearer " + t)) == Some(t)
  {
    assert "Bearer " + t == "Bearer" + [' '] + t;
    assert ' ' !in "Bearer";
    SplitOnce("Bearer", " ", t);
  }

  /** A header without a space carries no token for this extraction. */
  lemma TokenNeedsSpace(h: string)
    requires ' ' !in h
    ensures TokenFromHeader(Some(h)) == None
  {
    forall j: nat ensures !StartsAt(h, " ", j) {
      if j + 1 <= |h| { assert h[j..j + 1] == [h[j]]; }
    }
  }

  /** `header?.replace('Bearer ', '')`, empty or absent counting as no token. */
  function StripBearer(header: Option<string>): Option<string> {
    match header
    case None => None
    case Some(h) =>
      var t := ReplaceFirst(h, "Bearer ", "");
      if t != "" then Some(t) else None
  }

  /** The Bearer form yields its token here too. */
  lemma StripBearerOfBearer(t: string)
    requires t != ""
    ensures StripBearer(Some("Bearer " + t)) == Some(t)
  {
    var b := "Bearer ";
    var h := b + t;
    assert StartsAt(h, b, 0);
    assert IndexOf(h, b) == Some(0);
    assert ReplaceFirst(h, b, "") == h[|b|..];
    assert h[|b|..] == t;
  }

  /** The two extractions disagree on a header that is not in Bearer form: one drops the scheme word, the other keeps it. */
  lemma ExtractionsDiffer(scheme: string, t: string)
    requires scheme != "" && t != "" && ' ' !in scheme && ' ' !in t && 'B' !in scheme
    ensures TokenFromHeader(Some(scheme + " " + t)) == Some(t)
    ensures StripBearer(Some(scheme + " " + t)) == Some(scheme + " " + t)
  {
    var h := scheme + " " + t;
    assert h == scheme + [' '] + t;
    SplitOnce(scheme, " ", t);
    forall j: nat ensures !StartsAt(h, "Bearer ", j) {
      if j + 7 <= |h| {
        assert h[j..j + 7][0] == h[j];
        if j < |scheme| { assert h[j] == scheme[j]; }
        else if j == |scheme| { assert h[j] == ' '; }
        else { assert h[j] == t[j - |scheme| - 1]; assert h[j..j + 7][6] == h[j + 6]; assert h[j + 6] == t[j + 6 - |scheme| - 1]; }
      }
    }
  }

  /** The token gate of the handlers that read `Authorization` word by word: no token, then an unverifiable one, give 401. */
  function BearerUser(header: Option<string>, verify: string -> Option<string>): (r: Response<string>)
    ensures r.Failure? ==> r.status == 401
    ensures r.Success? <==> TokenFromHeader(header).Some? && verify(TokenFromHeader(header).value).Some?
    ensures r.Success? ==> r.body == verify(TokenFromHeader(header).value).value
  {
    match TokenFromHeader(header)
    case None => Failure(401, "未提供认证令牌")
    case Some(t) =>
      match verify(t)
      case None => Failure(401, "无效的认证令牌")
      case Some(u) => Success(u)
  }

  /** `Math.ceil(total / limit)` for a positive limit. */
  function Pages(total: nat, limit: int): (pages: nat)
    requires limit > 0
    ensures pages * limit >= total
    ensures pages > 0 ==> (pages - 1) * limit < total
  {
    (total + limit - 1) / limit
  }

  /** How many records come before page `page`. */
  function Skip(page: int, limit: int): nat
    requires page >= 1 && limit > 0
  {
    (page - 1) * limit
  }

  /** The records a page shows: `skip = (page - 1) * limit`, `take = limit`. */
  function Page<T>(items: seq<T>, page: int, limit: int): (r: seq<T>)
    requires page >= 1 && limit > 0
    ensures |r| <= limit
    ensures forall i | 0 <= i < |r| :: Skip(page, limit) + i < |items| && r[i] == items[Skip(page, limit) + i]
  {
    var skip := Skip(page, limit);
    if skip >= |items| then [] else items[skip..if skip + limit <= |items| then skip + limit else |items|]
  }

  /** A page of a list sorted newest first is itself sorted newest first. */
  lemma PageSorted<T>(items: seq<T>, key: T -> int, page: int, limit: int)
    requires page >= 1 && limit > 0
    requires Seqs.SortedDesc(items, key)
    ensures Seqs.SortedDesc(Page(items, page, limit), key)
  {
    var s := Page(items, page, limit);
    forall i, j | 0 <= i < j < |s| ensures key(s[i]) >= key(s[j]) {
      assert s[i] == items[Skip(page, limit) + i] && s[j] == items[Skip(page, limit) + j];
    }
  }

  /** Pages 1 .. n laid end to end. */
  function FirstPages<T>(items: seq<T>, n: nat, limit: int): seq<T>
    requires limit > 0
  {
    if n == 0 then [] else FirstPages(items, n - 1, limit) + Page(items, n, limit)
  }

  /** Reading pages 1 .. Pages(total) shows every record once, in order. */
  lemma PagesCoverAll<T>(items: seq<T>, limit: int)
    requires limit > 0
    ensures FirstPages(items, Pages(|items|, limit), limit) == items
  {
    var n := Pages(|items|, limit);
    FirstPagesPrefix(items, n, limit);
    assert n * limit >= |items|;
  }

  lemma {:induction false} FirstPagesPrefix<T>(items: seq<T>, n: nat, limit: int)
    requires limit > 0
    ensures FirstPages(items, n, limit) == items[..if n * limit <= |items| then n * limit else |items|]
  {
    if n > 0 {
      FirstPagesPrefix(items, n - 1, limit);
      var a := if (n - 1) * limit <= |items| then (n - 1) * limit else |items|;
      var b := if n * limit <= |items| then n * limit else |items|;
      assert (n - 1) * limit + limit == n * limit;
      assert items[..b] == items[..a] + items[a..b];
    }
  }

  /** `list.map(p).filter((x, i, arr) => arr.indexOf(x) === i)`: first occurrences, in order. */
  function Distinct(names: seq<string>): (r: seq<string>)
    ensures Seqs.NoDup(r)
    ensures forall x :: x in r <==> x in names
    ensures forall i, j | 0 <= i < j < |r| :: Seqs.FirstIndex(names, r[i]) < Seqs.FirstIndex(names, r[j])
  {
    Seqs.DedupSpec(names);
    Seqs.Dedup(names)
  }

  /** The platforms of some generated rows, in row order. */
  function PlatformList(rows: seq<Row<GeneratedData>>): (r: seq<string>)
    ensures |r| == |rows|
    ensures forall i | 0 <= i < |rows| :: r[i] == rows[i].data.platform
    decreases |rows|
  {
    if rows == [] then [] else [rows[0].data.platform] + PlatformList(rows[1..])
  }

  /** A record's platform list: its generated rows' platforms, each once, in first-occurrence order. */
  function RecordPlatforms(generated: seq<Row<GeneratedData>>, rid: Id): (r: seq<string>)
    ensures Seqs.NoDup(r)
    ensures forall p :: p in r <==> exists g | g in generated :: g.data.recordId == Some(rid) && g.data.platform == p
    ensures var ps := PlatformList(RowsOf(generated, rid));
      (forall p :: p in r <==> p in ps) && forall i, j | 0 <= i < j < |r| :: Seqs.FirstIndex(ps, r[i]) < Seqs.FirstIndex(ps, r[j])
  {
    var rows := RowsOf(generated, rid);
    PlatformListHas(rows);
    Distinct(PlatformList(rows))
  }

  /** A platform is in the list exactly when some row has it. */
  lemma PlatformListHas(rows: seq<Row<GeneratedData>>)
    ensures forall p :: p in PlatformList(rows) <==> exists g | g in rows :: g.data.platform == p
  {
    forall p ensures p in PlatformList(rows) <==> exists g | g in rows :: g.data.platform == p {
      if exists g | g in rows :: g.data.platform == p {
        var g :| g in rows && g.data.platform == p;
        var k :| 0 <= k < |rows| && rows[k] == g;
        assert PlatformList(rows)[k] == p;
      }
    }
  }
}
