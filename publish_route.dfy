/**
 * The publish handlers: publish a record's texts for some platforms (after
 * the session, request, ownership and platform-authorisation checks), one
 * status update and one publish record per text, and a paginated history of
 * the caller's publish records.
 */
module PublishRoute {
  import opened Wrappers
  import opened Store
  import opened Api
  import Seqs
  import ContentRoute

  const LoginRequired := "请先登录"

  /** `generatedContent.findMany({ contentRecordId, platform in platforms })`, in table order. */
  function Matched(generated: seq<Row<GeneratedData>>, rid: Id, platforms: seq<string>): (r: seq<Row<GeneratedData>>)
    ensures forall i | 0 <= i < |r| :: r[i] in generated && r[i].data.recordId == Some(rid) && r[i].data.platform in platforms
    ensures forall k | 0 <= k < |generated| && generated[k].data.recordId == Some(rid) && generated[k].data.platform in platforms ::
      generated[k] in r
    decreases |generated|
  {
    if generated == [] then []
    else if generated[0].data.recordId == Some(rid) && generated[0].data.platform in platforms then
      [generated[0]] + Matched(generated[1..], rid, platforms)
    else Matched(generated[1..], rid, platforms)
  }

  /** The owner of the record a text belongs to, when that record is stored. */
  function OwnerOf(records: seq<Row<RecordData>>, g: Row<GeneratedData>): Option<string> {
    if g.data.recordId.None? then None
    else
      match Find(records, g.data.recordId.value)
      case Some(r) => r.owner
      case None => None
  }

  /** `auths.map(a => a.platform)` over the caller's authorisations for the requested platforms. */
  function AuthorizedPlatforms(auths: seq<Row<AuthData>>, user: string, platforms: seq<string>): (r: seq<string>)
    ensures forall p :: p in r <==> exists k | 0 <= k < |auths| :: auths[k].owner == Some(user) && auths[k].data.platform == p && p in platforms
    decreases |auths|
  {
    if auths == [] then []
    else
      var rest := AuthorizedPlatforms(auths[1..], user, platforms);
      assert forall k | 1 <= k < |auths| :: auths[k] == auths[1..][k - 1];
      if auths[0].owner == Some(user) && auths[0].data.platform in platforms then [auths[0].data.platform] + rest else rest
  }

  /** The caller holds an authorisation for `p`. */
  predicate HasAuth(auths: seq<Row<AuthData>>, user: string, p: string) {
    exists k | 0 <= k < |auths| :: auths[k].owner == Some(user) && auths[k].data.platform == p
  }

  /** `platforms.filter(p => !authorizedPlatforms.includes(p))`: request order, duplicates kept. */
  function Unauthorized(platforms: seq<string>, authorized: seq<string>): (r: seq<string>)
    ensures |r| <= |platforms|
    decreases |platforms|
  {
    if platforms == [] then []
    else if platforms[0] !in authorized then [platforms[0]] + Unauthorized(platforms[1..], authorized)
    else Unauthorized(platforms[1..], authorized)
  }

  /** The unauthorised platforms are exactly the requested ones the caller holds no authorisation for. */
  lemma UnauthorizedIff(platforms: seq<string>, auths: seq<Row<AuthData>>, user: string, p: string)
    ensures p in Unauthorized(platforms, AuthorizedPlatforms(auths, user, platforms)) <==> p in platforms && !HasAuth(auths, user, p)
  {
    UnauthorizedMembers(platforms, AuthorizedPlatforms(auths, user, platforms), p);
  }

  lemma {:induction false} UnauthorizedMembers(platforms: seq<string>, authorized: seq<string>, p: string)
    ensures p in Unauthorized(platforms, authorized) <==> p in platforms && p !in authorized
    decreases |platforms|
  {
    if platforms != [] {
      UnauthorizedMembers(platforms[1..], authorized, p);
      assert platforms == [platforms[0]] + platforms[1..];
    }
  }

  /** Request order is kept: the unauthorised platforms are a subsequence of the request. */
  lemma {:induction false} UnauthorizedInOrder(platforms: seq<string>, authorized: seq<string>)
    ensures Unauthorized(platforms, authorized) == Seqs.Filter(platforms, p => p !in authorized)
    decreases |platforms|
  {
    if platforms != [] {
      UnauthorizedInOrder(platforms[1..], authorized);
    }
  }

  /** The status a text gets once published, or once its attempt failed. */
  const StatusPublished := "已发布"
  const StatusFailed := "失败"
  /** The status of a publish record whose attempt did not fail. */
  const StatusSucceeded := "成功"

  /** What an attempt to publish one text does to the text: `已发布`, or `失败` with the error. */
  function Marked(c: Row<GeneratedData>, failures: map<Id, string>): GeneratedData {
    if c.id !in failures then c.data.(publishStatus := StatusPublished)
    else c.data.(publishStatus := StatusFailed, publishError := failures[c.id])
  }

  /** The publish record an attempt writes: `成功`, or `失败` with the error. */
  function Attempt(c: Row<GeneratedData>, failures: map<Id, string>): PublishData {
    if c.id !in failures then PublishData(c.data.platform, c.id, StatusSucceeded, None)
    else PublishData(c.data.platform, c.id, StatusFailed, Some(failures[c.id]))
  }

  function Attempts(cs: seq<Row<GeneratedData>>, failures: map<Id, string>): (r: seq<PublishData>)
    ensures |r| == |cs|
    ensures forall i | 0 <= i < |cs| :: r[i] == Attempt(cs[i], failures)
    decreases |cs|
  {
    if cs == [] then [] else Attempts(cs[..|cs| - 1], failures) + [Attempt(cs[|cs| - 1], failures)]
  }

  /** One entry of `results`. */
  datatype Outcome = Outcome(platform: string, status: string, error: Option<string>, publishRecord: Row<PublishData>)

  function OutcomeOf(c: Row<GeneratedData>, failures: map<Id, string>, rec: Row<PublishData>): Outcome {
    if c.id !in failures then Outcome(c.data.platform, "success", None, rec)
    else Outcome(c.data.platform, "failed", Some(failures[c.id]), rec)
  }

  /** The results of publishing `cs` in order, the publish records numbered from `first`. */
  function OutcomesOf(cs: seq<Row<GeneratedData>>, failures: map<Id, string>, first: Id, user: string, now: int): (r: seq<Outcome>)
    ensures |r| == |cs|
    decreases |cs|
  {
    if cs == [] then []
    else
      var n := |cs| - 1;
      OutcomesOf(cs[..n], failures, first, user, now) + [OutcomeOf(cs[n], failures, Row(first + n, Some(user), now, Attempt(cs[n], failures)))]
  }

  /** Every text gets exactly one result, in order, naming its platform, saying success exactly when the attempt did not fail, and carrying its publish record. */
  lemma {:induction false} OutcomesSpec(cs: seq<Row<GeneratedData>>, failures: map<Id, string>, first: Id, user: string, now: int)
    ensures var r := OutcomesOf(cs, failures, first, user, now);
      forall i | 0 <= i < |cs| ::
        r[i].platform == cs[i].data.platform &&
        (r[i].status == "success" <==> cs[i].id !in failures) &&
        r[i].publishRecord == Numbered(Attempts(cs, failures), first, Some(user), now)[i]
    decreases |cs|
  {
    if cs != [] {
      var n := |cs| - 1;
      OutcomesSpec(cs[..n], failures, first, user, now);
      var r := OutcomesOf(cs, failures, first, user, now);
      forall i | 0 <= i < |cs|
        ensures r[i].platform == cs[i].data.platform && (r[i].status == "success" <==> cs[i].id !in failures) &&
          r[i].publishRecord == Numbered(Attempts(cs, failures), first, Some(user), now)[i]
      {
        if i < n {
          assert r[i] == OutcomesOf(cs[..n], failures, first, user, now)[i];
          assert cs[..n][i] == cs[i];
        }
      }
    }
  }

  /** The ids of some texts. */
  function IdsOf(cs: seq<Row<GeneratedData>>): (ids: set<Id>)
    decreases |cs|
  {
    if cs == [] then {} else IdsOf(cs[..|cs| - 1]) + {cs[|cs| - 1].id}
  }

  /** An id is among the ids of some texts exactly when one of them carries it. */
  lemma {:induction false} IdsOfIff(cs: seq<Row<GeneratedData>>, id: Id)
    ensures id in IdsOf(cs) <==> exists k | 0 <= k < |cs| :: cs[k].id == id
    decreases |cs|
  {
    if cs != [] {
      var n := |cs| - 1;
      IdsOfIff(cs[..n], id);
      if id in IdsOf(cs[..n]) {
        var k :| 0 <= k < n && cs[..n][k].id == id;
        assert cs[k].id == id;
      }
      if exists k | 0 <= k < |cs| :: cs[k].id == id {
        var k :| 0 <= k < |cs| && cs[k].id == id;
        if k < n {
          assert cs[..n][k] == cs[k];
        }
      }
    }
  }

  /** The texts after publishing those with the given ids, one status update each. */
  function MarkAll(t: seq<Row<GeneratedData>>, ids: set<Id>, failures: map<Id, string>): (r: seq<Row<GeneratedData>>)
    ensures |r| == |t|
    ensures forall i | 0 <= i < |t| :: r[i] == if t[i].id in ids then t[i].(data := Marked(t[i], failures)) else t[i]
  {
    seq(|t|, i requires 0 <= i < |t| => if t[i].id in ids then t[i].(data := Marked(t[i], failures)) else t[i])
  }

  /** Publishing one more text is one more status update. */
  lemma MarkOneMore(t: seq<Row<GeneratedData>>, ids: set<Id>, c: Row<GeneratedData>, failures: map<Id, string>)
    requires UniqueIds(t) && c in t
    ensures Update(MarkAll(t, ids, failures), c.id, Marked(c, failures)) == MarkAll(t, ids + {c.id}, failures)
  {
    var j :| 0 <= j < |t| && t[j] == c;
    var l := Update(MarkAll(t, ids, failures), c.id, Marked(c, failures));
    var r := MarkAll(t, ids + {c.id}, failures);
    forall i | 0 <= i < |t| ensures l[i] == r[i] {
      assert t[i].id == c.id ==> i == j;
      MarkOneMoreAt(t, ids, j, failures, i);
    }
  }

  lemma MarkOneMoreAt(t: seq<Row<GeneratedData>>, ids: set<Id>, j: nat, failures: map<Id, string>, i: nat)
    requires i < |t| && j < |t|
    requires t[i].id == t[j].id ==> i == j
    ensures Update(MarkAll(t, ids, failures), t[j].id, Marked(t[j], failures))[i] == MarkAll(t, ids + {t[j].id}, failures)[i]
  {
    assert MarkAll(t, ids, failures)[i].id == t[i].id;
  }

  /** Looking a text up after the updates: the marked row for a published id, the old row otherwise. */
  lemma {:induction false} MarkAllFind(t: seq<Row<GeneratedData>>, ids: set<Id>, failures: map<Id, string>, id: Id)
    ensures Find(MarkAll(t, ids, failures), id) ==
      match Find(t, id)
      case Some(x) => Some(if id in ids then x.(data := Marked(x, failures)) else x)
      case None => None
    decreases |t|
  {
    if t != [] {
      assert MarkAll(t, ids, failures)[1..] == MarkAll(t[1..], ids, failures);
      MarkAllFind(t[1..], ids, failures, id);
    }
  }

  /** The loop over the matched texts: for each, a status update and a publish record, and one result. */
  method PublishAll(db: Db, user: string, contents: seq<Row<GeneratedData>>, failures: map<Id, string>, now: int)
    returns (results: seq<Outcome>)
    requires db.Valid()
    requires forall k | 0 <= k < |contents| :: contents[k] in db.generated
    modifies db
    ensures db.Valid()
    ensures results == OutcomesOf(contents, failures, old(db.nextId), user, now)
    ensures db.publishes == old(db.publishes) + Numbered(Attempts(contents, failures), old(db.nextId), Some(user), now)
    ensures db.generated == MarkAll(old(db.generated), IdsOf(contents), failures)
    ensures db.nextId == old(db.nextId) + |contents|
    ensures db.records == old(db.records) && db.prompts == old(db.prompts) && db.auths == old(db.auths)
  {
    ghost var g0, r0, p0, first := db.generated, db.records, db.publishes, db.nextId;
    ContentsAttached(g0, r0, contents);
    results := [];
    var i := 0;
    while i < |contents|
      invariant 0 <= i <= |contents|
      invariant db.Valid()
      invariant db.records == r0 && db.prompts == old(db.prompts) && db.auths == old(db.auths)
      invariant db.nextId == first + i
      invariant results == OutcomesOf(contents[..i], failures, first, user, now)
      invariant db.publishes == p0 + Numbered(Attempts(contents[..i], failures), first, Some(user), now)
      invariant db.generated == MarkAll(g0, IdsOf(contents[..i]), failures)
    {
      var o := PublishTurn(db, user, contents, i, failures, now, g0, p0, first, results);
      results := results + [o];
      i := i + 1;
    }
    assert contents[..i] == contents;
  }

  /** The body of the publish loop: the `i`-th text is published and the loop's account grows by it. */
  method PublishTurn(db: Db, user: string, contents: seq<Row<GeneratedData>>, i: nat, failures: map<Id, string>, now: int,
                     ghost g0: seq<Row<GeneratedData>>, ghost p0: seq<Row<PublishData>>, ghost first: Id, ghost results: seq<Outcome>)
    returns (o: Outcome)
    requires db.Valid() && UniqueIds(g0) && i < |contents| && contents[i] in g0
    requires contents[i].data.recordId.Some? ==> Find(db.records, contents[i].data.recordId.value).Some?
    requires db.nextId == first + i
    requires results == OutcomesOf(contents[..i], failures, first, user, now)
    requires db.publishes == p0 + Numbered(Attempts(contents[..i], failures), first, Some(user), now)
    requires db.generated == MarkAll(g0, IdsOf(contents[..i]), failures)
    modifies db
    ensures db.Valid()
    ensures db.records == old(db.records) && db.prompts == old(db.prompts) && db.auths == old(db.auths)
    ensures db.nextId == first + i + 1
    ensures results + [o] == OutcomesOf(contents[..i + 1], failures, first, user, now)
    ensures db.publishes == p0 + Numbered(Attempts(contents[..i + 1], failures), first, Some(user), now)
    ensures db.generated == MarkAll(g0, IdsOf(contents[..i + 1]), failures)
  {
    var c := contents[i];
    Seqs.TakeSnoc(contents, i);
    ghost var gen1, pub1 := db.generated, db.publishes;
    o := PublishOne(db, user, c, failures, now);
    PublishStep(g0, p0, first, contents[..i], c, failures, user, now, gen1, pub1, results, o, db.generated, db.publishes);
  }

  /** One turn of the publish loop: the text's status update, then its publish record, then its result. */
  method PublishOne(db: Db, user: string, c: Row<GeneratedData>, failures: map<Id, string>, now: int) returns (o: Outcome)
    requires db.Valid()
    requires c.data.recordId.Some? ==> Find(db.records, c.data.recordId.value).Some?
    modifies db
    ensures db.Valid()
    ensures o == OutcomeOf(c, failures, Row(old(db.nextId), Some(user), now, Attempt(c, failures)))
    ensures db.generated == Update(old(db.generated), c.id, Marked(c, failures))
    ensures db.publishes == old(db.publishes) + [o.publishRecord]
    ensures db.nextId == old(db.nextId) + 1
    ensures db.records == old(db.records) && db.prompts == old(db.prompts) && db.auths == old(db.auths)
  {
    db.UpdateGenerated(c.id, Marked(c, failures));
    var a := Attempt(c, failures);
    var id := db.CreatePublish(user, a, now);
    o := OutcomeOf(c, failures, Row(id, Some(user), now, a));
  }

  lemma ContentsAttached(g0: seq<Row<GeneratedData>>, r0: seq<Row<RecordData>>, contents: seq<Row<GeneratedData>>)
    requires Attached(g0, r0)
    requires forall k | 0 <= k < |contents| :: contents[k] in g0
    ensures forall k | 0 <= k < |contents| && contents[k].data.recordId.Some? :: Find(r0, contents[k].data.recordId.value).Some?
  {
    forall k | 0 <= k < |contents| && contents[k].data.recordId.Some?
      ensures Find(r0, contents[k].data.recordId.value).Some?
    {
      var g :| 0 <= g < |g0| && g0[g] == contents[k];
    }
  }

  /** One turn of the publish loop keeps the loop's account of the texts, the publish records and the results. */
  lemma PublishStep(g0: seq<Row<GeneratedData>>, p0: seq<Row<PublishData>>, first: Id, before: seq<Row<GeneratedData>>,
                    c: Row<GeneratedData>, failures: map<Id, string>, user: string, now: int,
                    gen1: seq<Row<GeneratedData>>, pub1: seq<Row<PublishData>>, res1: seq<Outcome>, o: Outcome,
                    gen2: seq<Row<GeneratedData>>, pub2: seq<Row<PublishData>>)
    requires UniqueIds(g0) && c in g0
    requires gen1 == MarkAll(g0, IdsOf(before), failures)
    requires pub1 == p0 + Numbered(Attempts(before, failures), first, Some(user), now)
    requires res1 == OutcomesOf(before, failures, first, user, now)
    requires o == OutcomeOf(c, failures, Row(first + |before|, Some(user), now, Attempt(c, failures)))
    requires gen2 == Update(gen1, c.id, Marked(c, failures)) && pub2 == pub1 + [o.publishRecord]
    ensures gen2 == MarkAll(g0, IdsOf(before + [c]), failures)
    ensures pub2 == p0 + Numbered(Attempts(before + [c], failures), first, Some(user), now)
    ensures res1 + [o] == OutcomesOf(before + [c], failures, first, user, now)
  {
    StepFacts(g0, before, c, failures, first, user, now);
    Seqs.SnocAssoc(p0, Numbered(Attempts(before, failures), first, Some(user), now), o.publishRecord);
  }

  /** What one turn of the publish loop adds: one status update, one result, one publish record. */
  lemma StepFacts(g0: seq<Row<GeneratedData>>, before: seq<Row<GeneratedData>>, c: Row<GeneratedData>, failures: map<Id, string>,
                  first: Id, user: string, now: int)
    requires UniqueIds(g0) && c in g0
    ensures Update(MarkAll(g0, IdsOf(before), failures), c.id, Marked(c, failures)) == MarkAll(g0, IdsOf(before + [c]), failures)
    ensures OutcomesOf(before + [c], failures, first, user, now) ==
      OutcomesOf(before, failures, first, user, now) + [OutcomeOf(c, failures, Row(first + |before|, Some(user), now, Attempt(c, failures)))]
    ensures Numbered(Attempts(before + [c], failures), first, Some(user), now) ==
      Numbered(Attempts(before, failures), first, Some(user), now) + [Row(first + |before|, Some(user), now, Attempt(c, failures))]
  {
    MarkOneMore(g0, IdsOf(before), c, failures);
    IdsOfSnoc(before, c);
    OutcomesSnoc(before, c, failures, first, user, now);
    PublishesSnoc(before, c, failures, first, user, now);
  }

  lemma IdsOfSnoc(cs: seq<Row<GeneratedData>>, c: Row<GeneratedData>)
    ensures IdsOf(cs + [c]) == IdsOf(cs) + {c.id}
  {
    assert (cs + [c])[..|cs|] == cs;
  }

  lemma OutcomesSnoc(cs: seq<Row<GeneratedData>>, c: Row<GeneratedData>, failures: map<Id, string>, first: Id, user: string, now: int)
    ensures OutcomesOf(cs + [c], failures, first, user, now) ==
      OutcomesOf(cs, failures, first, user, now) + [OutcomeOf(c, failures, Row(first + |cs|, Some(user), now, Attempt(c, failures)))]
  {
    assert (cs + [c])[..|cs|] == cs;
  }

  lemma AttemptsSnoc(cs: seq<Row<GeneratedData>>, c: Row<GeneratedData>, failures: map<Id, string>)
    ensures Attempts(cs + [c], failures) == Attempts(cs, failures) + [Attempt(c, failures)]
  {
    assert (cs + [c])[..|cs|] == cs;
  }

  lemma PublishesSnoc(cs: seq<Row<GeneratedData>>, c: Row<GeneratedData>, failures: map<Id, string>, first: Id, user: string, now: int)
    ensures Numbered(Attempts(cs + [c], failures), first, Some(user), now) ==
      Numbered(Attempts(cs, failures), first, Some(user), now) + [Row(first + |cs|, Some(user), now, Attempt(c, failures))]
  {
    AttemptsSnoc(cs, c, failures);
    NumberedSnoc(Attempts(cs, failures), Attempt(c, failures), first, Some(user), now);
  }

  /** The answer of `POST`. */
  datatype Reply =
    | Rejected(status: int, error: string)
    | NeedsAuth(unauthorizedPlatforms: seq<string>)
    | Published(results: seq<Outcome>)

  /**
   * `POST`: 401 without a session user; 400 without contentId; 400 without a
   * non-empty platform list; 404 when the record has no text for those
   * platforms; 403 when a matched text belongs to someone else's record;
   * 403 listing the requested platforms the caller has not authorised; then
   * one status update, one publish record and one result per matched text.
   */
  method Post(db: Db, user: Option<string>, contentId: Option<Id>, platforms: Option<seq<string>>,
              failures: map<Id, string>, now: int) returns (reply: Reply)
    requires db.Valid()
    modifies db
    ensures db.Valid()
    ensures user.None? ==> reply == Rejected(401, LoginRequired) && unchanged(db)
    ensures user.Some? && contentId.None? ==> reply == Rejected(400, "请提供内容ID") && unchanged(db)
    ensures user.Some? && contentId.Some? && (platforms.None? || platforms.value == []) ==>
      reply == Rejected(400, "请提供至少一个发布平台") && unchanged(db)
    ensures (user.Some? && contentId.Some? && platforms.Some? && platforms.value != []) ==>
      var contents := Matched(old(db.generated), contentId.value, platforms.value);
      var unauthorized := Unauthorized(platforms.value, AuthorizedPlatforms(old(db.auths), user.value, platforms.value));
      (contents == [] ==> reply == Rejected(404, "未找到指定平台的内容") && unchanged(db)) &&
      (contents != [] && (exists k | 0 <= k < |contents| :: OwnerOf(old(db.records), contents[k]) != user) ==>
        reply == Rejected(403, "无权发布该内容") && unchanged(db)) &&
      (contents != [] && (forall k | 0 <= k < |contents| :: OwnerOf(old(db.records), contents[k]) == user) && unauthorized != [] ==>
        reply == NeedsAuth(unauthorized) && unchanged(db)) &&
      (contents != [] && (forall k | 0 <= k < |contents| :: OwnerOf(old(db.records), contents[k]) == user) && unauthorized == [] ==>
        reply == Published(OutcomesOf(contents, failures, old(db.nextId), user.value, now)) &&
        db.publishes == old(db.publishes) + Numbered(Attempts(contents, failures), old(db.nextId), user, now) &&
        db.generated == MarkAll(old(db.generated), IdsOf(contents), failures) &&
        db.records == old(db.records) && db.prompts == old(db.prompts) && db.auths == old(db.auths))
  {
    if user.None? {
      return Rejected(401, LoginRequired);
    }
    if contentId.None? {
      return Rejected(400, "请提供内容ID");
    }
    if platforms.None? || platforms.value == [] {
      return Rejected(400, "请提供至少一个发布平台");
    }
    var contents := Matched(db.generated, contentId.value, platforms.value);
    if contents == [] {
      return Rejected(404, "未找到指定平台的内容");
    }
    var k := 0;
    while k < |contents|
      invariant 0 <= k <= |contents|
      invariant forall j | 0 <= j < k :: OwnerOf(db.records, contents[j]) == user
    {
      if OwnerOf(db.records, contents[k]) != user {
        return Rejected(403, "无权发布该内容");
      }
      k := k + 1;
    }
    var unauthorized := Unauthorized(platforms.value, AuthorizedPlatforms(db.auths, user.value, platforms.value));
    if unauthorized != [] {
      return NeedsAuth(unauthorized);
    }
    var results := PublishAll(db, user.value, contents, failures, now);
    reply := Published(results);
  }

  /**
   * After a successful publish every matched text carries its new status,
   * every other text is untouched, and each publish record names its text
   * and says `成功` exactly when the attempt did not fail.
   */
  lemma PublishMarksExactly(generated: seq<Row<GeneratedData>>, rid: Id, platforms: seq<string>, failures: map<Id, string>,
                            first: Id, user: string, now: int)
    requires UniqueIds(generated)
    ensures var cs := Matched(generated, rid, platforms);
      var after := MarkAll(generated, IdsOf(cs), failures);
      var recs := Numbered(Attempts(cs, failures), first, Some(user), now);
      (forall k | 0 <= k < |cs| ::
        Find(after, cs[k].id) == Some(cs[k].(data := Marked(cs[k], failures))) &&
        recs[k].data.contentId == cs[k].id && recs[k].data.platform == cs[k].data.platform &&
        (recs[k].data.status == StatusSucceeded <==> cs[k].id !in failures)) &&
      (forall other: Id | other !in IdsOf(cs) :: Find(after, other) == Find(generated, other))
  {
    var cs := Matched(generated, rid, platforms);
    var after := MarkAll(generated, IdsOf(cs), failures);
    forall k | 0 <= k < |cs| ensures Find(after, cs[k].id) == Some(cs[k].(data := Marked(cs[k], failures))) {
      IdsOfIff(cs, cs[k].id);
      MarkAllFind(generated, IdsOf(cs), failures, cs[k].id);
      FindIndex(generated, cs[k].id, cs[k]);
    }
    forall other: Id | other !in IdsOf(cs) ensures Find(after, other) == Find(generated, other) {
      MarkAllFind(generated, IdsOf(cs), failures, other);
    }
  }

  /** The history filter: the caller's publish records, of one platform when one is given. */
  predicate Listed(r: Row<PublishData>, user: string, platform: Option<string>) {
    r.owner == Some(user) && (platform.None? || platform.value == "" || r.data.platform == platform.value)
  }

  function History(publishes: seq<Row<PublishData>>, user: string, platform: Option<string>): (r: seq<Row<PublishData>>)
    ensures forall i | 0 <= i < |r| :: r[i] in publishes && Listed(r[i], user, platform)
    ensures forall k | 0 <= k < |publishes| && Listed(publishes[k], user, platform) :: publishes[k] in r
    decreases |publishes|
  {
    if publishes == [] then []
    else if Listed(publishes[0], user, platform) then [publishes[0]] + History(publishes[1..], user, platform)
    else History(publishes[1..], user, platform)
  }

  datatype HistoryPage = HistoryPage(records: seq<Row<PublishData>>, pagination: ContentRoute.Pagination)

  /** `GET`: 401 without a session user, then page `page` (default 1) of `limit` (default 10) of the listed publish records, newest first. */
  function Get(user: Option<string>, platform: Option<string>, page: Option<int>, limit: Option<int>,
               publishes: seq<Row<PublishData>>): (r: Response<HistoryPage>)
    requires ContentRoute.Param(page, 1) >= 1 && ContentRoute.Param(limit, 10) >= 1
    ensures user.None? <==> r == Failure(401, LoginRequired)
    ensures r.Success? ==>
      var l := ContentRoute.Param(limit, 10);
      |r.body.records| <= l &&
      r.body.pagination.total == |History(publishes, user.value, platform)| &&
      r.body.pagination.pages * l >= r.body.pagination.total &&
      (r.body.pagination.pages > 0 ==> (r.body.pagination.pages - 1) * l < r.body.pagination.total)
  {
    if user.None? then Failure(401, LoginRequired)
    else
      var p, l := ContentRoute.Param(page, 1), ContentRoute.Param(limit, 10);
      var all := History(publishes, user.value, platform);
      Seqs.NewestFirstSpec(all, CreatedAt);
      assert |multiset(Seqs.NewestFirst(all, CreatedAt))| == |multiset(all)|;
      var sorted := Seqs.NewestFirst(all, CreatedAt);
      Success(HistoryPage(Page(sorted, p, l), ContentRoute.Pagination(p, l, |sorted|, Pages(|sorted|, l))))
  }

  /** A history page shows only listed records of the caller, newest first. */
  lemma GetShowsListed(user: Option<string>, platform: Option<string>, page: Option<int>, limit: Option<int>,
                       publishes: seq<Row<PublishData>>)
    requires ContentRoute.Param(page, 1) >= 1 && ContentRoute.Param(limit, 10) >= 1
    requires user.Some?
    ensures var s := Get(user, platform, page, limit, publishes).body.records;
      (forall i | 0 <= i < |s| :: s[i] in publishes && Listed(s[i], user.value, platform)) &&
      (forall i, j | 0 <= i < j < |s| :: s[i].createdAt >= s[j].createdAt)
  {
    var p, l := ContentRoute.Param(page, 1), ContentRoute.Param(limit, 10);
    var all := History(publishes, user.value, platform);
    Seqs.NewestFirstSpec(all, CreatedAt);
    var sorted := Seqs.NewestFirst(all, CreatedAt);
    assert Get(user, platform, page, limit, publishes).body.records == Page(sorted, p, l);
    PageOfHistory(publishes, user.value, platform, sorted, p, l);
  }

  lemma PageOfHistory(publishes: seq<Row<PublishData>>, user: string, platform: Option<string>, sorted: seq<Row<PublishData>>, p: int, l: int)
    requires p >= 1 && l >= 1
    requires Seqs.SortedDesc(sorted, CreatedAt)
    requires multiset(sorted) == multiset(History(publishes, user, platform))
    ensures var s := Page(sorted, p, l);
      (forall i | 0 <= i < |s| :: s[i] in publishes && Listed(s[i], user, platform)) &&
      (forall i, j | 0 <= i < j < |s| :: s[i].createdAt >= s[j].createdAt)
  {
    PageListed(publishes, user, platform, sorted, p, l);
    PageNewestFirst(sorted, p, l);
  }

  lemma PageListed(publishes: seq<Row<PublishData>>, user: string, platform: Option<string>, sorted: seq<Row<PublishData>>, p: int, l: int)
    requires p >= 1 && l >= 1
    requires multiset(sorted) == multiset(History(publishes, user, platform))
    ensures var s := Page(sorted, p, l);
      forall i | 0 <= i < |s| :: s[i] in publishes && Listed(s[i], user, platform)
  {
    var s := Page(sorted, p, l);
    forall i | 0 <= i < |s| ensures s[i] in publishes && Listed(s[i], user, platform) {
      assert s[i] == sorted[Skip(p, l) + i];
      HistoryMember(publishes, user, platform, sorted, Skip(p, l) + i);
    }
  }

  lemma PageNewestFirst(sorted: seq<Row<PublishData>>, p: int, l: int)
    requires p >= 1 && l >= 1
    requires Seqs.SortedDesc(sorted, CreatedAt)
    ensures var s := Page(sorted, p, l);
      forall i, j | 0 <= i < j < |s| :: s[i].createdAt >= s[j].createdAt
  {
    var s := Page(sorted, p, l);
    PageSorted(sorted, CreatedAt, p, l);
    forall i, j | 0 <= i < j < |s| ensures s[i].createdAt >= s[j].createdAt {
      assert CreatedAt(s[i]) >= CreatedAt(s[j]);
    }
  }

  lemma HistoryMember(publishes: seq<Row<PublishData>>, user: string, platform: Option<string>, sorted: seq<Row<PublishData>>, k: nat)
    requires k < |sorted|
    requires multiset(sorted) == multiset(History(publishes, user, platform))
    ensures sorted[k] in publishes && Listed(sorted[k], user, platform)
  {
    var h := History(publishes, user, platform);
    assert sorted[k] in multiset(sorted);
    assert sorted[k] in h;
    var m :| 0 <= m < |h| && h[m] == sorted[k];
  }
}
