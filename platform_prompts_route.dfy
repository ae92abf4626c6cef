/**
 * The per-platform prompt handlers: list the caller's prompts for one
 * platform, create one, overwrite one the caller owns, delete one the caller
 * owns. Every handler but `GET` checks the bearer token first.
 */
module PlatformPromptsRoute {
  import opened Wrappers
  import opened Store
  import opened Api
  import Seqs

  const FieldsRequired := "提示词名称、系统提示词、用户提示词和平台均为必填项"
  const IdRequired := "提示词ID不能为空"
  const NotFound := "提示词不存在或无权访问"

  /** The caller's prompts for `platform`, in table order. */
  function ForPlatform(prompts: seq<Row<PromptData>>, user: string, platform: string): (r: seq<Row<PromptData>>)
    ensures forall i | 0 <= i < |r| :: r[i] in prompts && r[i].owner == Some(user) && r[i].data.platform == platform
    ensures forall i | 0 <= i < |prompts| && prompts[i].owner == Some(user) && prompts[i].data.platform == platform :: prompts[i] in r
    decreases |prompts|
  {
    if prompts == [] then []
    else if prompts[0].owner == Some(user) && prompts[0].data.platform == platform then [prompts[0]] + ForPlatform(prompts[1..], user, platform)
    else ForPlatform(prompts[1..], user, platform)
  }

  /** A prompt appended to the table is listed last for its owner and platform, and lists for anyone or anything else do not change. */
  lemma {:induction false} ForPlatformSnoc(prompts: seq<Row<PromptData>>, x: Row<PromptData>, user: string, platform: string)
    ensures ForPlatform(prompts + [x], user, platform) ==
      if x.owner == Some(user) && x.data.platform == platform then ForPlatform(prompts, user, platform) + [x]
      else ForPlatform(prompts, user, platform)
    decreases |prompts|
  {
    if prompts == [] {
      assert [x][1..] == [];
    } else {
      assert (prompts + [x])[1..] == prompts[1..] + [x];
      ForPlatformSnoc(prompts[1..], x, user, platform);
    }
  }

  /** All four fields must be non-empty. */
  predicate Complete(name: string, systemPrompt: string, userPrompt: string, platform: string) {
    name != "" && systemPrompt != "" && userPrompt != "" && platform != ""
  }

  /** `GET`: 400 without a platform (before the token is looked at), then the token gate, then the caller's prompts for that platform, newest created first. */
  function Get(platform: Option<string>, header: Option<string>, verify: string -> Option<string>,
               prompts: seq<Row<PromptData>>): (r: Response<seq<Row<PromptData>>>)
    ensures platform.None? || platform.value == "" ==> r == Failure(400, "平台参数不能为空")
    ensures platform.Some? && platform.value != "" ==> (r.Failure? <==> BearerUser(header, verify).Failure?)
    ensures r.Failure? && r.status != 400 ==> r.status == 401
    ensures r.Success? ==>
      Seqs.SortedDesc(r.body, CreatedAt) &&
      multiset(r.body) == multiset(ForPlatform(prompts, BearerUser(header, verify).body, platform.value))
  {
    if platform.None? || platform.value == "" then Failure(400, "平台参数不能为空")
    else
      match BearerUser(header, verify)
      case Failure(s, e) => Failure(s, e)
      case Success(user) =>
        Seqs.NewestFirstSpec(ForPlatform(prompts, user, platform.value), CreatedAt);
        Success(Seqs.NewestFirst(ForPlatform(prompts, user, platform.value), CreatedAt))
  }

  /** Every prompt `GET` lists is one of the caller's prompts for the requested platform. */
  lemma GetListsOwnForPlatform(platform: Option<string>, header: Option<string>, verify: string -> Option<string>,
                               prompts: seq<Row<PromptData>>)
    requires Get(platform, header, verify, prompts).Success?
    ensures var b := Get(platform, header, verify, prompts).body;
      forall i | 0 <= i < |b| :: b[i] in prompts && b[i].owner == Some(BearerUser(header, verify).body) && b[i].data.platform == platform.value
  {
    var user := BearerUser(header, verify).body;
    var m := ForPlatform(prompts, user, platform.value);
    var b := Get(platform, header, verify, prompts).body;
    forall i | 0 <= i < |b| ensures b[i] in prompts && b[i].owner == Some(user) && b[i].data.platform == platform.value {
      assert b[i] in multiset(b);
      assert b[i] in m;
      var k :| 0 <= k < |m| && m[k] == b[i];
    }
  }

  /** `POST`: the token gate, 400 unless all four fields are given, then one new prompt owned by the caller. */
  method Post(db: Db, header: Option<string>, verify: string -> Option<string>,
              name: string, systemPrompt: string, userPrompt: string, platform: string, now: int)
    returns (resp: Response<Row<PromptData>>)
    requires db.Valid()
    modifies db
    ensures db.Valid()
    ensures BearerUser(header, verify).Failure? ==> resp.Failure? && resp.status == 401 && unchanged(db)
    ensures BearerUser(header, verify).Success? && !Complete(name, systemPrompt, userPrompt, platform) ==>
      resp == Failure(400, FieldsRequired) && unchanged(db)
    ensures BearerUser(header, verify).Success? && Complete(name, systemPrompt, userPrompt, platform) ==>
      resp == Success(Row(old(db.nextId), Some(BearerUser(header, verify).body), now, PromptData(platform, name, systemPrompt, userPrompt, now))) &&
      db.prompts == old(db.prompts) + [resp.body] &&
      db.records == old(db.records) && db.generated == old(db.generated) && db.auths == old(db.auths) && db.publishes == old(db.publishes)
  {
    var gate := BearerUser(header, verify);
    if gate.Failure? {
      return Failure(gate.status, gate.error);
    }
    if !Complete(name, systemPrompt, userPrompt, platform) {
      return Failure(400, FieldsRequired);
    }
    var d := PromptData(platform, name, systemPrompt, userPrompt, now);
    var id := db.CreatePrompt(gate.body, d, now);
    resp := Success(Row(id, Some(gate.body), now, d));
  }

  /** `PUT`: the token gate, 400 without id, 400 unless all four fields are given, 404 for a missing or foreign prompt, then its four editable fields are overwritten. */
  method Put(db: Db, header: Option<string>, verify: string -> Option<string>, id: Option<Id>,
             name: string, systemPrompt: string, userPrompt: string, platform: string, now: int)
    returns (resp: Response<Row<PromptData>>)
    requires db.Valid()
    modifies db
    ensures db.Valid()
    ensures BearerUser(header, verify).Failure? ==> resp.Failure? && resp.status == 401 && unchanged(db)
    ensures BearerUser(header, verify).Success? && id.None? ==> resp == Failure(400, IdRequired) && unchanged(db)
    ensures BearerUser(header, verify).Success? && id.Some? && !Complete(name, systemPrompt, userPrompt, platform) ==>
      resp == Failure(400, FieldsRequired) && unchanged(db)
    ensures (BearerUser(header, verify).Success? && id.Some? && Complete(name, systemPrompt, userPrompt, platform) &&
             FindOwned(old(db.prompts), id.value, BearerUser(header, verify).body).None?) ==>
      resp == Failure(404, NotFound) && unchanged(db)
    ensures (BearerUser(header, verify).Success? && id.Some? && Complete(name, systemPrompt, userPrompt, platform) &&
             FindOwned(old(db.prompts), id.value, BearerUser(header, verify).body).Some?) ==>
      var d := PromptData(platform, name, systemPrompt, userPrompt, now);
      resp == Success(Find(old(db.prompts), id.value).value.(data := d)) &&
      db.prompts == Update(old(db.prompts), id.value, d) &&
      db.records == old(db.records) && db.generated == old(db.generated) && db.auths == old(db.auths) && db.publishes == old(db.publishes)
  {
    var gate := BearerUser(header, verify);
    if gate.Failure? {
      return Failure(gate.status, gate.error);
    }
    if id.None? {
      return Failure(400, IdRequired);
    }
    if !Complete(name, systemPrompt, userPrompt, platform) {
      return Failure(400, FieldsRequired);
    }
    var existing := FindOwned(db.prompts, id.value, gate.body);
    if existing.None? {
      return Failure(404, NotFound);
    }
    var d := PromptData(platform, name, systemPrompt, userPrompt, now);
    db.UpdatePrompt(id.value, d);
    resp := Success(existing.value.(data := d));
  }

  /** `DELETE`: the token gate, 400 without id, 404 for a missing or foreign prompt, then that prompt alone is removed. */
  method Delete(db: Db, header: Option<string>, verify: string -> Option<string>, id: Option<Id>) returns (resp: Response<string>)
    requires db.Valid()
    modifies db
    ensures db.Valid()
    ensures BearerUser(header, verify).Failure? ==> resp.Failure? && resp.status == 401 && unchanged(db)
    ensures BearerUser(header, verify).Success? && id.None? ==> resp == Failure(400, IdRequired) && unchanged(db)
    ensures BearerUser(header, verify).Success? && id.Some? && FindOwned(old(db.prompts), id.value, BearerUser(header, verify).body).None? ==>
      resp == Failure(404, NotFound) && unchanged(db)
    ensures BearerUser(header, verify).Success? && id.Some? && FindOwned(old(db.prompts), id.value, BearerUser(header, verify).body).Some? ==>
      resp == Success("提示词已删除") && db.prompts == Remove(old(db.prompts), id.value) &&
      db.records == old(db.records) && db.generated == old(db.generated) && db.auths == old(db.auths) && db.publishes == old(db.publishes)
  {
    var gate := BearerUser(header, verify);
    if gate.Failure? {
      return Failure(gate.status, gate.error);
    }
    if id.None? {
      return Failure(400, IdRequired);
    }
    if FindOwned(db.prompts, id.value, gate.body).None? {
      return Failure(404, NotFound);
    }
    db.RemovePrompt(id.value);
    resp := Success("提示词已删除");
  }

  /** A prompt just created shows up, last in table order, in its owner's list for its platform. */
  lemma PostThenListed(prompts: seq<Row<PromptData>>, id: Id, user: string, now: int, d: PromptData)
    ensures ForPlatform(prompts + [Row(id, Some(user), now, d)], user, d.platform) == ForPlatform(prompts, user, d.platform) + [Row(id, Some(user), now, d)]
  {
    ForPlatformSnoc(prompts, Row(id, Some(user), now, d), user, d.platform);
  }

  /** After `PUT` the prompt keeps its id, owner and creation time and carries exactly the new fields; every other prompt is as before. */
  lemma PutOverwritesOnlyThat(prompts: seq<Row<PromptData>>, id: Id, user: string, d: PromptData, other: Id)
    requires UniqueIds(prompts)
    requires FindOwned(prompts, id, user).Some?
    ensures var p := Find(Update(prompts, id, d), id);
      p.Some? && p.value.id == id && p.value.owner == Some(user) &&
      p.value.createdAt == Find(prompts, id).value.createdAt && p.value.data == d
    ensures other != id ==> Find(Update(prompts, id, d), other) == Find(prompts, other)
  {
    UpdateFind(prompts, id, d, other);
  }
}
