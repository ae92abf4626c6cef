/**
 * The history handler: all of the caller's records, newest first, each with
 * its de-duplicated platforms and a projection of its generated texts.
 */
module ContentRecentRoute {
  import opened Wrappers
  import opened Store
  import opened Api
  import Seqs

  /** The `{ id, name }` of a text's custom prompt, when it has one that is stored. */
  datatype PromptRef = PromptRef(id: Id, name: string)

  datatype TextView = TextView(id: Id, platform: string, content: string, customPrompt: Option<PromptRef>)

  datatype RecentView = RecentView(
    id: Id, title: string, originalContent: string, platforms: seq<string>, createdAt: int, model: string,
    generated: seq<TextView>)

  function PromptRefOf(prompts: seq<Row<PromptData>>, pid: Option<Id>): Option<PromptRef> {
    if pid.None? then None
    else
      match Find(prompts, pid.value)
      case Some(p) => Some(PromptRef(p.id, p.data.name))
      case None => None
  }

  function TextViews(rows: seq<Row<GeneratedData>>, prompts: seq<Row<PromptData>>): (v: seq<TextView>)
    ensures |v| == |rows|
    ensures forall i | 0 <= i < |rows| ::
      v[i] == TextView(rows[i].id, rows[i].data.platform, rows[i].data.content, PromptRefOf(prompts, rows[i].data.customPromptId))
    decreases |rows|
  {
    if rows == [] then []
    else
      var t := TextView(rows[0].id, rows[0].data.platform, rows[0].data.content, PromptRefOf(prompts, rows[0].data.customPromptId));
      [t] + TextViews(rows[1..], prompts)
  }

  function ToView(r: Row<RecordData>, generated: seq<Row<GeneratedData>>, prompts: seq<Row<PromptData>>): RecentView {
    RecentView(r.id, r.data.title, r.data.originalContent, RecordPlatforms(generated, r.id), r.createdAt, r.data.model,
               TextViews(RowsOf(generated, r.id), prompts))
  }

  function ToViews(rs: seq<Row<RecordData>>, generated: seq<Row<GeneratedData>>, prompts: seq<Row<PromptData>>): (v: seq<RecentView>)
    ensures |v| == |rs|
    ensures forall i | 0 <= i < |rs| :: v[i] == ToView(rs[i], generated, prompts)
    decreases |rs|
  {
    if rs == [] then [] else [ToView(rs[0], generated, prompts)] + ToViews(rs[1..], generated, prompts)
  }

  /** `GET`: the token gate, then every one of the caller's records, newest first. */
  function Get(header: Option<string>, verify: string -> Option<string>, records: seq<Row<RecordData>>,
               generated: seq<Row<GeneratedData>>, prompts: seq<Row<PromptData>>): (r: Response<seq<RecentView>>)
    ensures r.Failure? <==> BearerUser(header, verify).Failure?
    ensures r.Failure? ==> r.status == 401
    ensures r.Success? ==> |r.body| == |Owned(records, BearerUser(header, verify).body)|
  {
    match BearerUser(header, verify)
    case Failure(s, e) => Failure(s, e)
    case Success(user) =>
      var mine := Seqs.NewestFirst(Owned(records, user), CreatedAt);
      Seqs.NewestFirstSpec(Owned(records, user), CreatedAt);
      assert |multiset(mine)| == |multiset(Owned(records, user))|;
      Success(ToViews(mine, generated, prompts))
  }

  /** Every view is of one of the caller's records and has one text entry per generated row of it. */
  predicate ViewsOwn(v: seq<RecentView>, records: seq<Row<RecordData>>, user: string, generated: seq<Row<GeneratedData>>) {
    forall i | 0 <= i < |v| ::
      exists r | r in records :: r.owner == Some(user) && r.id == v[i].id && |v[i].generated| == |RowsOf(generated, r.id)|
  }

  /** Every one of the caller's records has a view. */
  predicate ViewsCover(v: seq<RecentView>, records: seq<Row<RecordData>>, user: string) {
    forall k | 0 <= k < |records| && records[k].owner == Some(user) :: exists i | 0 <= i < |v| :: v[i].id == records[k].id
  }

  predicate ViewsNewestFirst(v: seq<RecentView>) {
    forall i, j | 0 <= i < j < |v| :: v[i].createdAt >= v[j].createdAt
  }

  /** The history lists every one of the caller's records and nothing else, newest first, with one text entry per generated row. */
  lemma GetListsAllOwn(header: Option<string>, verify: string -> Option<string>, records: seq<Row<RecordData>>,
                       generated: seq<Row<GeneratedData>>, prompts: seq<Row<PromptData>>)
    requires Get(header, verify, records, generated, prompts).Success?
    ensures var user := BearerUser(header, verify).body;
      var v := Get(header, verify, records, generated, prompts).body;
      ViewsOwn(v, records, user, generated) && ViewsCover(v, records, user) && ViewsNewestFirst(v)
  {
    var user := BearerUser(header, verify).body;
    var ow := Owned(records, user);
    var mine := Seqs.NewestFirst(ow, CreatedAt);
    Seqs.NewestFirstSpec(ow, CreatedAt);
    var v := ToViews(mine, generated, prompts);
    assert Get(header, verify, records, generated, prompts).body == v;
    ViewsAreOwn(records, user, mine, generated, prompts);
    ViewsCoverOwn(records, user, mine, generated, prompts);
    ViewsSorted(mine, generated, prompts);
  }

  lemma ViewsAreOwn(records: seq<Row<RecordData>>, user: string, mine: seq<Row<RecordData>>,
                    generated: seq<Row<GeneratedData>>, prompts: seq<Row<PromptData>>)
    requires multiset(mine) == multiset(Owned(records, user))
    ensures ViewsOwn(ToViews(mine, generated, prompts), records, user, generated)
  {
    var v := ToViews(mine, generated, prompts);
    MineOwnedAll(records, user, mine);
    forall i | 0 <= i < |v|
      ensures exists r | r in records :: r.owner == Some(user) && r.id == v[i].id && |v[i].generated| == |RowsOf(generated, r.id)|
    {
      var r := mine[i];
      assert r in records && r.owner == Some(user);
      assert v[i] == ToView(r, generated, prompts);
      assert v[i].id == r.id && |v[i].generated| == |RowsOf(generated, r.id)|;
    }
  }

  lemma ViewsCoverOwn(records: seq<Row<RecordData>>, user: string, mine: seq<Row<RecordData>>,
                      generated: seq<Row<GeneratedData>>, prompts: seq<Row<PromptData>>)
    requires multiset(mine) == multiset(Owned(records, user))
    ensures ViewsCover(ToViews(mine, generated, prompts), records, user)
  {
    forall k | 0 <= k < |records| && records[k].owner == Some(user)
      ensures exists i | 0 <= i < |mine| :: ToViews(mine, generated, prompts)[i].id == records[k].id
    {
      var r := records[k];
      OwnedInMine(records, user, mine, r);
      var i :| 0 <= i < |mine| && mine[i] == r;
      assert ToViews(mine, generated, prompts)[i] == ToView(r, generated, prompts);
    }
  }

  lemma OwnedInMine(records: seq<Row<RecordData>>, user: string, mine: seq<Row<RecordData>>, r: Row<RecordData>)
    requires multiset(mine) == multiset(Owned(records, user))
    requires r in records && r.owner == Some(user)
    ensures r in mine
  {
    var k :| 0 <= k < |records| && records[k] == r;
    assert r in Owned(records, user);
    assert r in multiset(mine);
  }

  lemma ViewsSorted(mine: seq<Row<RecordData>>, generated: seq<Row<GeneratedData>>, prompts: seq<Row<PromptData>>)
    requires Seqs.SortedDesc(mine, CreatedAt)
    ensures ViewsNewestFirst(ToViews(mine, generated, prompts))
  {
    var v := ToViews(mine, generated, prompts);
    forall i, j | 0 <= i < j < |v| ensures v[i].createdAt >= v[j].createdAt {
      assert CreatedAt(mine[i]) >= CreatedAt(mine[j]);
    }
  }

  lemma MineOwnedAll(records: seq<Row<RecordData>>, user: string, mine: seq<Row<RecordData>>)
    requires multiset(mine) == multiset(Owned(records, user))
    ensures forall i | 0 <= i < |mine| :: mine[i] in records && mine[i].owner == Some(user)
  {
    forall i | 0 <= i < |mine| ensures mine[i] in records && mine[i].owner == Some(user) {
      var ow := Owned(records, user);
      assert mine[i] in multiset(mine);
      assert mine[i] in ow;
      var k :| 0 <= k < |ow| && ow[k] == mine[i];
    }
  }
}
