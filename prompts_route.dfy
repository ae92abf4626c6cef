/**
 * The custom-prompt handlers behind the session gate: list the caller's
 * prompts (optionally for one platform), most recently updated first, and
 * create one.
 */
module PromptsRoute {
  import opened Wrappers
  import opened Store
  import opened Api
  import Seqs
  import PlatformPromptsRoute

  const LoginRequired := "请先登录"

  function UpdatedAt(r: Row<PromptData>): int { r.data.updatedAt }

  /** The `where` clause: the caller's prompts, and only those of `platform` when one is given (an empty one counts as absent). */
  predicate Selected(r: Row<PromptData>, user: string, platform: Option<string>) {
    r.owner == Some(user) && (platform.None? || platform.value == "" || r.data.platform == platform.value)
  }

  function Select(prompts: seq<Row<PromptData>>, user: string, platform: Option<string>): (r: seq<Row<PromptData>>)
    ensures forall i | 0 <= i < |r| :: r[i] in prompts && Selected(r[i], user, platform)
    ensures forall i | 0 <= i < |prompts| && Selected(prompts[i], user, platform) :: prompts[i] in r
    decreases |prompts|
  {
    if prompts == [] then []
    else if Selected(prompts[0], user, platform) then [prompts[0]] + Select(prompts[1..], user, platform)
    else Select(prompts[1..], user, platform)
  }

  /** Without a platform the filter is just ownership. */
  lemma {:induction false} SelectAll(prompts: seq<Row<PromptData>>, user: string)
    ensures Select(prompts, user, None) == Owned(prompts, user)
    decreases |prompts|
  {
    if prompts != [] {
      SelectAll(prompts[1..], user);
    }
  }

  /** With a platform the filter picks the same prompts as the per-platform handler. */
  lemma {:induction false} SelectPlatform(prompts: seq<Row<PromptData>>, user: string, platform: string)
    requires platform != ""
    ensures Select(prompts, user, Some(platform)) == PlatformPromptsRoute.ForPlatform(prompts, user, platform)
    decreases |prompts|
  {
    if prompts != [] {
      SelectPlatform(prompts[1..], user, platform);
    }
  }

  /** `GET`: 401 without a session user, then the selected prompts, most recently updated first. */
  function Get(user: Option<string>, platform: Option<string>, prompts: seq<Row<PromptData>>): (r: Response<seq<Row<PromptData>>>)
    ensures user.None? <==> r == Failure(401, LoginRequired)
    ensures r.Success? ==>
      Seqs.SortedDesc(r.body, UpdatedAt) && multiset(r.body) == multiset(Select(prompts, user.value, platform))
  {
    if user.None? then Failure(401, LoginRequired)
    else
      Seqs.NewestFirstSpec(Select(prompts, user.value, platform), UpdatedAt);
      Success(Seqs.NewestFirst(Select(prompts, user.value, platform), UpdatedAt))
  }

  /** Every listed prompt is the caller's, and of the requested platform when one was given. */
  lemma GetListsSelected(user: Option<string>, platform: Option<string>, prompts: seq<Row<PromptData>>)
    requires user.Some?
    ensures var b := Get(user, platform, prompts).body;
      forall i | 0 <= i < |b| :: b[i] in prompts && Selected(b[i], user.value, platform)
  {
    var m := Select(prompts, user.value, platform);
    var b := Get(user, platform, prompts).body;
    forall i | 0 <= i < |b| ensures b[i] in prompts && Selected(b[i], user.value, platform) {
      assert b[i] in multiset(b);
      assert b[i] in m;
      var k :| 0 <= k < |m| && m[k] == b[i];
    }
  }

  /** The `POST` reply: the stored prompt and a fixed message. */
  datatype Created = Created(prompt: Row<PromptData>, message: string)

  /** `POST`: 401 without a session user, 400 unless platform, name and both prompts are given, then one new prompt owned by the caller. */
  method Post(db: Db, user: Option<string>, platform: string, name: string, systemPrompt: string, userPrompt: string, now: int)
    returns (resp: Response<Created>)
    requires db.Valid()
    modifies db
    ensures db.Valid()
    ensures user.None? ==> resp == Failure(401, LoginRequired) && unchanged(db)
    ensures user.Some? && !PlatformPromptsRoute.Complete(name, systemPrompt, userPrompt, platform) ==>
      resp == Failure(400, "请提供平台、名称、系统提示词和用户提示词") && unchanged(db)
    ensures user.Some? && PlatformPromptsRoute.Complete(name, systemPrompt, userPrompt, platform) ==>
      resp == Success(Created(Row(old(db.nextId), user, now, PromptData(platform, name, systemPrompt, userPrompt, now)), "自定义提示词创建成功")) &&
      db.prompts == old(db.prompts) + [resp.body.prompt] &&
      db.records == old(db.records) && db.generated == old(db.generated) && db.auths == old(db.auths) && db.publishes == old(db.publishes)
  {
    if user.None? {
      return Failure(401, LoginRequired);
    }
    if !PlatformPromptsRoute.Complete(name, systemPrompt, userPrompt, platform) {
      return Failure(400, "请提供平台、名称、系统提示词和用户提示词");
    }
    var d := PromptData(platform, name, systemPrompt, userPrompt, now);
    var id := db.CreatePrompt(user.value, d, now);
    resp := Success(Created(Row(id, user, now, d), "自定义提示词创建成功"));
  }
}
