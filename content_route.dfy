/**
 * The content-record handlers: a paginated listing of the caller's records,
 * saving a record with its per-platform texts, editing it (optionally
 * replacing all of its texts), deleting it, and editing one generated text.
 * Every handler first takes the caller from the token gate.
 */
module ContentRoute {
  import opened Wrappers
  import opened Store
  import opened Api
  import Seqs

  /** A record as the listing shows it. */
  datatype RecordView = RecordView(
    id: Id, title: string, originalContent: string, platforms: seq<string>, createdAt: int,
    generated: seq<Row<GeneratedData>>)

  datatype Pagination = Pagination(page: int, limit: int, total: nat, pages: nat)

  datatype Listing = Listing(records: seq<RecordView>, pagination: Pagination)

  /** The caller's records, newest first. */
  function Mine(records: seq<Row<RecordData>>, user: string): (r: seq<Row<RecordData>>)
    ensures Seqs.SortedDesc(r, CreatedAt)
    ensures multiset(r) == multiset(Owned(records, user))
  {
    Seqs.NewestFirstSpec(Owned(records, user), CreatedAt);
    Seqs.NewestFirst(Owned(records, user), CreatedAt)
  }

  function View(r: Row<RecordData>, generated: seq<Row<GeneratedData>>): RecordView {
    RecordView(r.id, r.data.title, r.data.originalContent, RecordPlatforms(generated, r.id), r.createdAt, RowsOf(generated, r.id))
  }

  function Views(rs: seq<Row<RecordData>>, generated: seq<Row<GeneratedData>>): (v: seq<RecordView>)
    ensures |v| == |rs|
    ensures forall i | 0 <= i < |rs| :: v[i] == View(rs[i], generated)
    decreases |rs|
  {
    if rs == [] then [] else [View(rs[0], generated)] + Views(rs[1..], generated)
  }

  /** A query parameter with its default. */
  function Param(p: Option<int>, default: int): int {
    match p
    case Some(v) => v
    case None => default
  }

  /** `GET`: the token gate, then page `page` (default 1) of `limit` (default 10) of the caller's records, newest first. */
  function Get(header: Option<string>, verify: string -> Option<string>, page: Option<int>, limit: Option<int>,
               records: seq<Row<RecordData>>, generated: seq<Row<GeneratedData>>): (r: Response<Listing>)
    requires Param(page, 1) >= 1 && Param(limit, 10) >= 1
    ensures r.Failure? <==> BearerUser(header, verify).Failure?
    ensures r.Failure? ==> r.status == 401
  {
    match BearerUser(header, verify)
    case Failure(s, e) => Failure(s, e)
    case Success(user) =>
      var p, l := Param(page, 1), Param(limit, 10);
      var mine := Mine(records, user);
      Success(Listing(Views(Page(mine, p, l), generated), Pagination(p, l, |mine|, Pages(|mine|, l))))
  }

  /** A page of the caller's records holds at most `limit` of them, all owned by the caller, newest first. */
  lemma PageOfMine(records: seq<Row<RecordData>>, user: string, page: int, limit: int)
    requires page >= 1 && limit >= 1
    ensures |Mine(records, user)| == |Owned(records, user)|
    ensures var s := Page(Mine(records, user), page, limit);
      |s| <= limit &&
      (forall i | 0 <= i < |s| :: s[i] in records && s[i].owner == Some(user)) &&
      (forall i, j | 0 <= i < j < |s| :: s[i].createdAt >= s[j].createdAt)
  {
    var mine := Mine(records, user);
    assert |multiset(mine)| == |multiset(Owned(records, user))|;
    PageOfSorted(records, user, mine, page, limit);
  }

  lemma PageOfSorted(records: seq<Row<RecordData>>, user: string, mine: seq<Row<RecordData>>, page: int, limit: int)
    requires page >= 1 && limit >= 1
    requires Seqs.SortedDesc(mine, CreatedAt)
    requires multiset(mine) == multiset(Owned(records, user))
    ensures var s := Page(mine, page, limit);
      (forall i | 0 <= i < |s| :: s[i] in records && s[i].owner == Some(user)) &&
      (forall i, j | 0 <= i < j < |s| :: s[i].createdAt >= s[j].createdAt)
  {
    var s := Page(mine, page, limit);
    forall i | 0 <= i < |s| ensures s[i] in records && s[i].owner == Some(user) {
      MineOwned(records, user, mine, Skip(page, limit) + i);
    }
    PageSorted(mine, CreatedAt, page, limit);
    forall i, j | 0 <= i < j < |s| ensures s[i].createdAt >= s[j].createdAt {
      assert CreatedAt(s[i]) >= CreatedAt(s[j]);
    }
  }

  lemma MineOwned(records: seq<Row<RecordData>>, user: string, mine: seq<Row<RecordData>>, k: nat)
    requires k < |mine|
    requires multiset(mine) == multiset(Owned(records, user))
    ensures mine[k] in records && mine[k].owner == Some(user)
  {
    var ow := Owned(records, user);
    assert mine[k] in multiset(mine);
    assert mine[k] in ow;
    var m :| 0 <= m < |ow| && ow[m] == mine[k];
  }

  /** A listing holds at most `limit` of the caller's own records, newest first, each with its de-duplicated platforms; the page count covers all of the caller's records. */
  lemma GetShowsOwnPage(header: Option<string>, verify: string -> Option<string>, page: Option<int>, limit: Option<int>,
                        records: seq<Row<RecordData>>, generated: seq<Row<GeneratedData>>)
    requires Param(page, 1) >= 1 && Param(limit, 10) >= 1
    requires Get(header, verify, page, limit, records, generated).Success?
    ensures var user := BearerUser(header, verify).body;
      var l := Get(header, verify, page, limit, records, generated).body;
      |l.records| <= Param(limit, 10) &&
      l.pagination.total == |Owned(records, user)| &&
      l.pagination.pages * Param(limit, 10) >= l.pagination.total &&
      (forall i | 0 <= i < |l.records| ::
        (exists r | r in records :: r.id == l.records[i].id && r.owner == Some(user)) &&
        Seqs.NoDup(l.records[i].platforms) &&
        (forall p :: p in l.records[i].platforms <==>
          exists g | g in generated :: g.data.recordId == Some(l.records[i].id) && g.data.platform == p)) &&
      (forall i, j | 0 <= i < j < |l.records| :: l.records[i].createdAt >= l.records[j].createdAt)
  {
    var user := BearerUser(header, verify).body;
    PageOfMine(records, user, Param(page, 1), Param(limit, 10));
    var s := Page(Mine(records, user), Param(page, 1), Param(limit, 10));
    var l := Get(header, verify, page, limit, records, generated).body;
    assert l.records == Views(s, generated);
    forall i | 0 <= i < |l.records|
      ensures exists r | r in records :: r.id == l.records[i].id && r.owner == Some(user)
    {
      assert s[i] in records;
    }
  }

  /** The answer of a save. */
  datatype Saved = Saved(contentId: Id, generatedCount: nat)

  /** The chosen prompt id of a platform: a present entry, else none. */
  function PromptId(customPrompts: map<string, Id>, platform: string): Option<Id> {
    if platform in customPrompts then Some(customPrompts[platform]) else None
  }

  /** The rows a save creates, visiting `ps` in order: platforms with a non-empty text whose insert does not fail. */
  function SavedRows(title: string, rid: Id, ps: seq<string>, texts: map<string, string>,
                     customPrompts: map<string, Id>, insertFails: string -> bool): seq<GeneratedData>
    decreases |ps|
  {
    if ps == [] then []
    else SavedRows(title, rid, ps[..|ps| - 1], texts, customPrompts, insertFails) + SavedRow(title, rid, ps[|ps| - 1], texts, customPrompts, insertFails)
  }

  /** The row one platform gets: none when its text is missing or empty or its insert fails. */
  function SavedRow(title: string, rid: Id, p: string, texts: map<string, string>,
                    customPrompts: map<string, Id>, insertFails: string -> bool): seq<GeneratedData>
  {
    if p in texts && texts[p] != "" && !insertFails(p)
    then [NewGenerated(Some(rid), p, texts[p], PromptId(customPrompts, p), title + " - " + p)]
    else []
  }

  lemma SavedStep(title: string, rid: Id, ps: seq<string>, i: nat, texts: map<string, string>,
                  customPrompts: map<string, Id>, insertFails: string -> bool)
    requires i < |ps|
    ensures SavedRows(title, rid, ps[..i + 1], texts, customPrompts, insertFails)
         == SavedRows(title, rid, ps[..i], texts, customPrompts, insertFails) + SavedRow(title, rid, ps[i], texts, customPrompts, insertFails)
  {
    assert ps[..i + 1][..i] == ps[..i];
  }

  /** At most one row per listed platform, each carrying that platform's text, titled after the record; skipped platforms leave no row. */
  lemma {:induction false} SavedRowsSpec(title: string, rid: Id, ps: seq<string>, texts: map<string, string>,
                                         customPrompts: map<string, Id>, insertFails: string -> bool)
    ensures |SavedRows(title, rid, ps, texts, customPrompts, insertFails)| <= |ps|
    ensures forall d | d in SavedRows(title, rid, ps, texts, customPrompts, insertFails) ::
      d.platform in ps && d.platform in texts && d.content == texts[d.platform] && d.content != "" &&
      !insertFails(d.platform) && d.recordId == Some(rid) && d.title == title + " - " + d.platform
    ensures forall p | p in ps && p in texts && texts[p] != "" && !insertFails(p) ::
      exists d | d in SavedRows(title, rid, ps, texts, customPrompts, insertFails) :: d.platform == p
    decreases |ps|
  {
    if ps != [] {
      var init := ps[..|ps| - 1];
      SavedRowsSpec(title, rid, init, texts, customPrompts, insertFails);
      assert ps == init + [ps[|ps| - 1]];
      var s := SavedRows(title, rid, ps, texts, customPrompts, insertFails);
      forall p | p in ps && p in texts && texts[p] != "" && !insertFails(p)
        ensures exists d | d in s :: d.platform == p
      {
        if p !in init {
          assert s[|s| - 1].platform == p;
        } else {
          var d :| d in SavedRows(title, rid, init, texts, customPrompts, insertFails) && d.platform == p;
          assert d in s;
        }
      }
    }
  }

  /** The insert loop of a save; `insertFails` stands for a store insert that throws, which the handler swallows. */
  method SaveRows(db: Db, user: string, title: string, rid: Id, ps: seq<string>, texts: map<string, string>,
                  customPrompts: map<string, Id>, insertFails: string -> bool, now: int) returns (createdCount: nat)
    requires db.Valid() && Find(db.records, rid).Some?
    modifies db
    ensures db.Valid()
    ensures createdCount == |SavedRows(title, rid, ps, texts, customPrompts, insertFails)|
    ensures db.generated == old(db.generated) + Numbered(SavedRows(title, rid, ps, texts, customPrompts, insertFails), old(db.nextId), Some(user), now)
    ensures db.nextId == old(db.nextId) + createdCount
    ensures db.records == old(db.records) && db.prompts == old(db.prompts) && db.auths == old(db.auths) && db.publishes == old(db.publishes)
  {
    createdCount := 0;
    ghost var rows: seq<GeneratedData> := [];
    ghost var g0, n0 := db.generated, db.nextId;
    var i := 0;
    while i < |ps|
      invariant 0 <= i <= |ps|
      invariant db.Valid() && Find(db.records, rid).Some?
      invariant rows == SavedRows(title, rid, ps[..i], texts, customPrompts, insertFails)
      invariant createdCount == |rows|
      invariant db.generated == g0 + Numbered(rows, n0, Some(user), now)
      invariant db.nextId == n0 + createdCount
      invariant db.records == old(db.records) && db.prompts == old(db.prompts) && db.auths == old(db.auths) && db.publishes == old(db.publishes)
    {
      SavedStep(title, rid, ps, i, texts, customPrompts, insertFails);
      var row := SaveTurn(db, user, title, rid, ps[i], texts, customPrompts, insertFails, now, g0, n0, rows);
      rows := rows + row;
      createdCount := createdCount + |row|;
      i := i + 1;
    }
    assert ps[..i] == ps;
  }

  /** The body of the insert loop: the row of platform `p`, if any, extends the rows saved so far. */
  method SaveTurn(db: Db, user: string, title: string, rid: Id, p: string, texts: map<string, string>,
                  customPrompts: map<string, Id>, insertFails: string -> bool, now: int,
                  ghost g0: seq<Row<GeneratedData>>, ghost n0: Id, ghost rows: seq<GeneratedData>) returns (row: seq<GeneratedData>)
    requires db.Valid() && Find(db.records, rid).Some?
    requires db.generated == g0 + Numbered(rows, n0, Some(user), now) && db.nextId == n0 + |rows|
    modifies db
    ensures db.Valid()
    ensures row == SavedRow(title, rid, p, texts, customPrompts, insertFails)
    ensures db.generated == g0 + Numbered(rows + row, n0, Some(user), now) && db.nextId == n0 + |rows| + |row|
    ensures db.records == old(db.records) && db.prompts == old(db.prompts) && db.auths == old(db.auths) && db.publishes == old(db.publishes)
  {
    ghost var g1 := db.generated;
    row := SaveOne(db, user, title, rid, p, texts, customPrompts, insertFails, now);
    NumberedGrow(g0, g1, db.generated, rows, row, n0, Some(user), now);
  }

  /** One platform of the insert loop: its row, if any, is created with the next id. */
  method SaveOne(db: Db, user: string, title: string, rid: Id, p: string, texts: map<string, string>,
                 customPrompts: map<string, Id>, insertFails: string -> bool, now: int) returns (row: seq<GeneratedData>)
    requires db.Valid() && Find(db.records, rid).Some?
    modifies db
    ensures db.Valid()
    ensures row == SavedRow(title, rid, p, texts, customPrompts, insertFails)
    ensures db.generated == old(db.generated) + Numbered(row, old(db.nextId), Some(user), now)
    ensures db.nextId == old(db.nextId) + |row|
    ensures db.records == old(db.records) && db.prompts == old(db.prompts) && db.auths == old(db.auths) && db.publishes == old(db.publishes)
  {
    row := [];
    if p in texts && texts[p] != "" && !insertFails(p) {
      row := [NewGenerated(Some(rid), p, texts[p], PromptId(customPrompts, p), title + " - " + p)];
      db.CreateGenerated(row, Some(user), now);
    } else {
      assert Numbered(row, db.nextId, Some(user), now) == [];
    }
  }

  /** `POST`: the token gate, 400 without a title or platforms, 400 without generated texts; then the record and its rows. */
  method Post(db: Db, header: Option<string>, verify: string -> Option<string>, title: string, originalContent: string,
              platforms: Option<seq<string>>, model: string, texts: Option<map<string, string>>,
              customPrompts: map<string, Id>, insertFails: string -> bool, now: int) returns (resp: Response<Saved>)
    requires db.Valid()
    modifies db
    ensures db.Valid()
    ensures BearerUser(header, verify).Failure? ==> resp.Failure? && resp.status == 401 && unchanged(db)
    ensures BearerUser(header, verify).Success? && (title == "" || platforms.None? || platforms.value == []) ==>
      resp == Failure(400, "请提供标题和至少一个平台") && unchanged(db)
    ensures (BearerUser(header, verify).Success? && title != "" && platforms.Some? && platforms.value != [] &&
             (texts.None? || texts.value.Keys == {})) ==> resp == Failure(400, "请生成内容后再保存") && unchanged(db)
    ensures (BearerUser(header, verify).Success? && title != "" && platforms.Some? && platforms.value != [] &&
             texts.Some? && texts.value.Keys != {}) ==>
      var user := BearerUser(header, verify).body;
      var rid := old(db.nextId);
      var rows := SavedRows(title, rid, platforms.value, texts.value, customPrompts, insertFails);
      resp == Success(Saved(rid, |rows|)) &&
      db.records == old(db.records) + [Row(rid, Some(user), now, RecordData(title, originalContent, model))] &&
      db.generated == old(db.generated) + Numbered(rows, rid + 1, Some(user), now) &&
      db.prompts == old(db.prompts) && db.auths == old(db.auths) && db.publishes == old(db.publishes)
  {
    var gate := BearerUser(header, verify);
    if gate.Failure? {
      return Failure(gate.status, gate.error);
    }
    if title == "" || platforms.None? || platforms.value == [] {
      return Failure(400, "请提供标题和至少一个平台");
    }
    if texts.None? || texts.value.Keys == {} {
      return Failure(400, "请生成内容后再保存");
    }
    var saved := Save(db, gate.body, title, originalContent, platforms.value, model, texts.value, customPrompts, insertFails, now);
    resp := Success(saved);
  }

  /** The work of a valid save: the record, then its rows numbered after it. */
  method Save(db: Db, user: string, title: string, originalContent: string, ps: seq<string>, model: string,
              texts: map<string, string>, customPrompts: map<string, Id>, insertFails: string -> bool, now: int) returns (saved: Saved)
    requires db.Valid()
    modifies db
    ensures db.Valid()
    ensures var rid := old(db.nextId);
      var rows := SavedRows(title, rid, ps, texts, customPrompts, insertFails);
      saved == Saved(rid, |rows|) &&
      db.records == old(db.records) + [Row(rid, Some(user), now, RecordData(title, originalContent, model))] &&
      db.generated == old(db.generated) + Numbered(rows, rid + 1, Some(user), now) &&
      db.prompts == old(db.prompts) && db.auths == old(db.auths) && db.publishes == old(db.publishes)
  {
    var rid := db.CreateRecord(user, RecordData(title, originalContent, model), now);
    assert Find(db.records, rid).Some? by { assert db.records[|db.records| - 1].id == rid; }
    var count := SaveRows(db, user, title, rid, ps, texts, customPrompts, insertFails, now);
    saved := Saved(rid, count);
  }

  /** One entry of the list that replaces a record's texts. */
  datatype Replacement = Replacement(platform: string, content: string, customPromptId: Option<Id>)

  /** The rows a replacement list becomes, in list order. */
  function ReplacementRows(rid: Id, items: seq<Replacement>): (r: seq<GeneratedData>)
    ensures |r| == |items|
    ensures forall i | 0 <= i < |items| :: r[i] == NewGenerated(Some(rid), items[i].platform, items[i].content, items[i].customPromptId, "")
    decreases |items|
  {
    if items == [] then []
    else [NewGenerated(Some(rid), items[0].platform, items[0].content, items[0].customPromptId, "")] + ReplacementRows(rid, items[1..])
  }

  /** `PUT`: the token gate, 400 without id, 404 for a missing or foreign record (before the body is looked at), 400 without title or platforms; then the update and, when a list is given, the replacement of all the record's texts. */
  method Put(db: Db, header: Option<string>, verify: string -> Option<string>, id: Option<Id>, title: string,
             originalContent: string, platforms: Option<seq<string>>, items: Option<seq<Replacement>>, now: int)
    returns (resp: Response<Id>)
    requires db.Valid()
    modifies db
    ensures db.Valid()
    ensures BearerUser(header, verify).Failure? ==> resp.Failure? && resp.status == 401 && unchanged(db)
    ensures BearerUser(header, verify).Success? && id.None? ==> resp == Failure(400, "请提供内容ID") && unchanged(db)
    ensures BearerUser(header, verify).Success? && id.Some? && FindOwned(old(db.records), id.value, BearerUser(header, verify).body).None? ==>
      resp == Failure(404, "内容不存在或无权修改") && unchanged(db)
    ensures BearerUser(header, verify).Success? && id.Some? && FindOwned(old(db.records), id.value, BearerUser(header, verify).body).Some? ==>
      (var old_ := FindOwned(old(db.records), id.value, BearerUser(header, verify).body).value;
       if title == "" || platforms.None? || platforms.value == [] then
         resp == Failure(400, "请提供标题和至少一个平台") && unchanged(db)
       else
         resp == Success(id.value) &&
         db.records == Update(old(db.records), id.value, RecordData(title, originalContent, old_.data.model)) &&
         (items.None? ==> db.generated == old(db.generated)) &&
         (items.Some? ==>
           db.generated == Detach(old(db.generated), id.value) + Numbered(ReplacementRows(id.value, items.value), old(db.nextId), Some(BearerUser(header, verify).body), now)) &&
         db.prompts == old(db.prompts) && db.auths == old(db.auths) && db.publishes == old(db.publishes))
  {
    var gate := BearerUser(header, verify);
    if gate.Failure? {
      return Failure(gate.status, gate.error);
    }
    if id.None? {
      return Failure(400, "请提供内容ID");
    }
    var record := FindOwned(db.records, id.value, gate.body);
    if record.None? {
      return Failure(404, "内容不存在或无权修改");
    }
    if title == "" || platforms.None? || platforms.value == [] {
      return Failure(400, "请提供标题和至少一个平台");
    }
    db.UpdateRecord(id.value, RecordData(title, originalContent, record.value.data.model));
    if items.Some? {
      db.DetachRows(id.value);
      UpdateFind(old(db.records), id.value, RecordData(title, originalContent, record.value.data.model), id.value);
      db.CreateGenerated(ReplacementRows(id.value, items.value), Some(gate.body), now);
    }
    resp := Success(id.value);
  }

  /** After a replacing `PUT` the record's texts are exactly the supplied list, in order. */
  lemma PutReplacesAll(generated: seq<Row<GeneratedData>>, rid: Id, items: seq<Replacement>, first: Id, owner: Option<string>, now: int)
    ensures var rows := RowsOf(Detach(generated, rid) + Numbered(ReplacementRows(rid, items), first, owner, now), rid);
      |rows| == |items| &&
      forall i | 0 <= i < |items| :: rows[i].data.platform == items[i].platform && rows[i].data.content == items[i].content &&
        rows[i].data.customPromptId == items[i].customPromptId
  {
    var kept := Detach(generated, rid);
    var added := Numbered(ReplacementRows(rid, items), first, owner, now);
    RowsOfConcat(kept, added, rid);
    RowsOfNone(kept, rid);
    RowsOfAll(added, rid);
  }

  lemma {:induction false} RowsOfConcat(a: seq<Row<GeneratedData>>, b: seq<Row<GeneratedData>>, rid: Id)
    ensures RowsOf(a + b, rid) == RowsOf(a, rid) + RowsOf(b, rid)
    decreases |a|
  {
    if a == [] {
      assert a + b == b;
    } else {
      assert (a + b)[1..] == a[1..] + b;
      RowsOfConcat(a[1..], b, rid);
    }
  }

  lemma {:induction false} RowsOfNone(a: seq<Row<GeneratedData>>, rid: Id)
    requires forall i | 0 <= i < |a| :: a[i].data.recordId != Some(rid)
    ensures RowsOf(a, rid) == []
    decreases |a|
  {
    if a != [] { RowsOfNone(a[1..], rid); }
  }

  lemma {:induction false} RowsOfAll(a: seq<Row<GeneratedData>>, rid: Id)
    requires forall i | 0 <= i < |a| :: a[i].data.recordId == Some(rid)
    ensures RowsOf(a, rid) == a
    decreases |a|
  {
    if a != [] { RowsOfAll(a[1..], rid); }
  }

  /** `DELETE`: the token gate, 400 without id, 404 for a missing or foreign record; then the record and its texts go. */
  method Delete(db: Db, header: Option<string>, verify: string -> Option<string>, id: Option<Id>) returns (resp: Response<string>)
    requires db.Valid()
    modifies db
    ensures db.Valid()
    ensures BearerUser(header, verify).Failure? ==> resp.Failure? && resp.status == 401 && unchanged(db)
    ensures BearerUser(header, verify).Success? && id.None? ==> resp == Failure(400, "请提供内容ID") && unchanged(db)
    ensures BearerUser(header, verify).Success? && id.Some? && FindOwned(old(db.records), id.value, BearerUser(header, verify).body).None? ==>
      resp == Failure(404, "内容不存在或无权删除") && unchanged(db)
    ensures BearerUser(header, verify).Success? && id.Some? && FindOwned(old(db.records), id.value, BearerUser(header, verify).body).Some? ==>
      resp == Success("内容已删除") &&
      db.records == Remove(old(db.records), id.value) && db.generated == Detach(old(db.generated), id.value) &&
      db.prompts == old(db.prompts) && db.auths == old(db.auths) && db.publishes == old(db.publishes)
  {
    var gate := BearerUser(header, verify);
    if gate.Failure? {
      return Failure(gate.status, gate.error);
    }
    if id.None? {
      return Failure(400, "请提供内容ID");
    }
    if FindOwned(db.records, id.value, gate.body).None? {
      return Failure(404, "内容不存在或无权删除");
    }
    db.DeleteRecord(id.value);
    resp := Success("内容已删除");
  }

  /** A deleted record is no longer found, its texts are gone, and every other record and text stays. */
  lemma DeleteRemovesOnlyThat(records: seq<Row<RecordData>>, generated: seq<Row<GeneratedData>>, id: Id, other: Id)
    requires UniqueIds(records)
    ensures Find(Remove(records, id), id).None?
    ensures RowsOf(Detach(generated, id), id) == []
    ensures other != id ==> Find(Remove(records, id), other) == Find(records, other)
    ensures forall g | g in generated && g.data.recordId != Some(id) :: g in Detach(generated, id)
  {
    RemoveFind(records, id, other);
    var d := Detach(generated, id);
    assert forall i | 0 <= i < |d| :: d[i] in d;
    RowsOfNone(d, id);
  }

  /** `PUT_generated_contents`: 401 without a session user, 400 without id, 403 for a missing or foreign text; an empty title or content keeps the old one. */
  method PutGenerated(db: Db, user: Option<string>, id: Option<Id>, title: string, content: string)
    returns (resp: Response<Row<GeneratedData>>)
    requires db.Valid()
    modifies db
    ensures db.Valid()
    ensures user.None? ==> resp == Failure(401, "未授权访问") && unchanged(db)
    ensures user.Some? && id.None? ==> resp == Failure(400, "内容ID为必填项") && unchanged(db)
    ensures user.Some? && id.Some? && FindOwned(old(db.generated), id.value, user.value).None? ==>
      resp == Failure(403, "内容不存在或无权限修改") && unchanged(db)
    ensures user.Some? && id.Some? && FindOwned(old(db.generated), id.value, user.value).Some? ==>
      var row := FindOwned(old(db.generated), id.value, user.value).value;
      var d := row.data.(title := if title != "" then title else row.data.title,
                         content := if content != "" then content else row.data.content);
      resp == Success(row.(data := d)) &&
      db.generated == Update(old(db.generated), id.value, d) &&
      db.records == old(db.records) && db.prompts == old(db.prompts) && db.auths == old(db.auths) && db.publishes == old(db.publishes)
  {
    if user.None? {
      return Failure(401, "未授权访问");
    }
    if id.None? {
      return Failure(400, "内容ID为必填项");
    }
    var existing := FindOwned(db.generated, id.value, user.value);
    if existing.None? {
      return Failure(403, "内容不存在或无权限修改");
    }
    var row := existing.value;
    var d := row.data.(title := if title != "" then title else row.data.title,
                       content := if content != "" then content else row.data.content);
    assert row in db.generated;
    db.UpdateGenerated(id.value, d);
    resp := Success(row.(data := d));
  }
}
