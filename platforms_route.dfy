/**
 * The platform-authorisation handlers: list the caller's authorisations,
 * create or refresh the one for a platform (at most one per user and
 * platform), and delete it. The token is the Authorization header with
 * `Bearer ` removed.
 */
module PlatformsRoute {
  import opened Wrappers
  import opened Store
  import opened Api

  /** The gate of this route: the stripped token, verified. */
  function StrippedUser(header: Option<string>, verify: string -> Option<string>): (r: Response<string>)
    ensures r.Failure? ==> r.status == 401
    ensures r.Success? <==> StripBearer(header).Some? && verify(StripBearer(header).value).Some?
    ensures r.Success? ==> r.body == verify(StripBearer(header).value).value
  {
    match StripBearer(header)
    case None => Failure(401, "请先登录")
    case Some(t) =>
      match verify(t)
      case None => Failure(401, "无效的凭证")
      case Some(u) => Success(u)
  }

  predicate Holds(r: Row<AuthData>, user: string, platform: string) {
    r.owner == Some(user) && r.data.platform == platform
  }

  /** No user has two authorisations for the same platform. */
  predicate OnePerPlatform(t: seq<Row<AuthData>>) {
    forall i, j | 0 <= i < j < |t| :: t[i].owner != t[j].owner || t[i].data.platform != t[j].data.platform
  }

  /** `findFirst({ userId, platform })`, taken in table order. */
  function FirstAuth(t: seq<Row<AuthData>>, user: string, platform: string): (r: Option<Row<AuthData>>)
    ensures r.Some? ==> r.value in t && Holds(r.value, user, platform)
    ensures r.None? <==> forall i | 0 <= i < |t| :: !Holds(t[i], user, platform)
    decreases |t|
  {
    if t == [] then None
    else if Holds(t[0], user, platform) then Some(t[0])
    else FirstAuth(t[1..], user, platform)
  }

  /** What `GET` shows of an authorisation: no tokens. */
  datatype AuthView = AuthView(id: Id, platform: string, createdAt: int, updatedAt: int)

  function Views(t: seq<Row<AuthData>>): (v: seq<AuthView>)
    ensures |v| == |t|
    ensures forall i | 0 <= i < |t| :: v[i] == AuthView(t[i].id, t[i].data.platform, t[i].createdAt, t[i].data.updatedAt)
    decreases |t|
  {
    if t == [] then [] else [AuthView(t[0].id, t[0].data.platform, t[0].createdAt, t[0].data.updatedAt)] + Views(t[1..])
  }

  /** `GET`: the gate, then a token-free view of each of the caller's authorisations, and of no one else's. */
  function Get(header: Option<string>, verify: string -> Option<string>, auths: seq<Row<AuthData>>): (r: Response<seq<AuthView>>)
    ensures r.Failure? <==> StrippedUser(header, verify).Failure?
    ensures r.Failure? ==> r.status == 401
    ensures r.Success? ==>
      (forall i | 0 <= i < |r.body| :: exists k | 0 <= k < |auths| ::
        auths[k].owner == Some(StrippedUser(header, verify).body) && r.body[i].id == auths[k].id && r.body[i].platform == auths[k].data.platform) &&
      (forall k | 0 <= k < |auths| && auths[k].owner == Some(StrippedUser(header, verify).body) ::
        exists i | 0 <= i < |r.body| :: r.body[i].id == auths[k].id)
  {
    match StrippedUser(header, verify)
    case Failure(s, e) => Failure(s, e)
    case Success(user) =>
      var mine := Owned(auths, user);
      var v := Views(mine);
      assert forall i | 0 <= i < |v| :: mine[i] in auths;
      assert forall k | 0 <= k < |auths| && auths[k].owner == Some(user) :: auths[k] in mine;
      Success(v)
  }

  /** What `POST` answers with: the stored authorisation without its tokens. */
  datatype SafeAuth = SafeAuth(id: Id, owner: Option<string>, platform: string, createdAt: int, updatedAt: int, metadata: Option<string>)

  function Safe(r: Row<AuthData>): SafeAuth {
    SafeAuth(r.id, r.owner, r.data.platform, r.createdAt, r.data.updatedAt, r.data.metadata)
  }

  datatype Saved = Saved(auth: SafeAuth, message: string)

  /**
   * The data an existing authorisation gets: the new access token, the new
   * refresh token when one is sent (an absent one leaves the stored value),
   * and the metadata as sent, absent becoming null.
   */
  function Refreshed(prev: AuthData, accessToken: string, refreshToken: Option<string>, metadata: Option<string>, now: int): (d: AuthData)
    ensures d.platform == prev.platform && d.accessToken == accessToken && d.metadata == metadata && d.updatedAt == now
    ensures d.refreshToken == (if refreshToken.Some? then refreshToken else prev.refreshToken)
  {
    AuthData(prev.platform, accessToken, if refreshToken.Some? then refreshToken else prev.refreshToken, metadata, now)
  }

  function Message(platform: string, updated: bool): string {
    platform + "平台授权" + (if updated then "更新" else "创建") + "成功"
  }

  /** An appended authorisation is found for its user and platform exactly when none was there before. */
  lemma {:induction false} FirstAuthSnoc(t: seq<Row<AuthData>>, x: Row<AuthData>, user: string, platform: string)
    requires FirstAuth(t, user, platform).None? && Holds(x, user, platform)
    ensures FirstAuth(t + [x], user, platform) == Some(x)
    decreases |t|
  {
    if t == [] {
    } else {
      assert (t + [x])[1..] == t[1..] + [x];
      FirstAuthSnoc(t[1..], x, user, platform);
    }
  }

  /** Appending an authorisation for a user and platform that had none keeps one per platform. */
  lemma CreateKeepsOne(t: seq<Row<AuthData>>, x: Row<AuthData>)
    requires OnePerPlatform(t)
    requires x.owner.Some? && FirstAuth(t, x.owner.value, x.data.platform).None?
    ensures OnePerPlatform(t + [x])
  {
    var t' := t + [x];
    forall i, j | 0 <= i < j < |t'| ensures t'[i].owner != t'[j].owner || t'[i].data.platform != t'[j].data.platform {
      if j == |t| {
        assert !Holds(t[i], x.owner.value, x.data.platform);
      }
    }
  }

  /** Rewriting one authorisation without changing its platform keeps owners and platforms row by row. */
  lemma UpdateSamePlatform(t: seq<Row<AuthData>>, x: Row<AuthData>, d: AuthData)
    requires UniqueIds(t) && x in t && d.platform == x.data.platform
    ensures forall i | 0 <= i < |t| :: Update(t, x.id, d)[i].owner == t[i].owner && Update(t, x.id, d)[i].data.platform == t[i].data.platform
  {
    forall i | 0 <= i < |t| ensures Update(t, x.id, d)[i].owner == t[i].owner && Update(t, x.id, d)[i].data.platform == t[i].data.platform {
      if t[i].id == x.id {
        FindIndex(t, x.id, x);
        FindIndex(t, x.id, t[i]);
      }
    }
  }

  /** After a refresh the first authorisation found is the refreshed one. */
  lemma {:induction false} UpdateKeepsFirst(t: seq<Row<AuthData>>, x: Row<AuthData>, d: AuthData, user: string, platform: string)
    requires FirstAuth(t, user, platform) == Some(x) && d.platform == platform
    requires forall i | 0 <= i < |t| && t[i].id == x.id :: t[i] == x
    ensures FirstAuth(Update(t, x.id, d), user, platform) == Some(x.(data := d))
    decreases |t|
  {
    var u := Update(t, x.id, d);
    if Holds(t[0], user, platform) {
      assert t[0] == x;
      assert u[0] == x.(data := d);
    } else {
      assert t[0].id != x.id;
      assert u[0] == t[0];
      UpdateTail(t, x.id, d);
      forall i | 0 <= i < |t[1..]| && t[1..][i].id == x.id ensures t[1..][i] == x {
        assert t[1..][i] == t[i + 1];
      }
      UpdateKeepsFirst(t[1..], x, d, user, platform);
    }
  }

  /** `POST`: the gate, 400 without platform or access token, then refresh the caller's authorisation for that platform, or create it when there is none. */
  method Post(db: Db, header: Option<string>, verify: string -> Option<string>,
              platform: string, accessToken: string, refreshToken: Option<string>, metadata: Option<string>, now: int)
    returns (resp: Response<Saved>)
    requires db.Valid()
    modifies db
    ensures db.Valid()
    ensures StrippedUser(header, verify).Failure? ==> resp.Failure? && resp.status == 401 && unchanged(db)
    ensures StrippedUser(header, verify).Success? && (platform == "" || accessToken == "") ==>
      resp == Failure(400, "平台和访问令牌为必填项") && unchanged(db)
    ensures (StrippedUser(header, verify).Success? && platform != "" && accessToken != "") ==>
      var user := StrippedUser(header, verify).body;
      var ex := FirstAuth(old(db.auths), user, platform);
      resp.Success? &&
      resp.body.message == Message(platform, ex.Some?) &&
      (ex.Some? ==>
        var d := Refreshed(ex.value.data, accessToken, refreshToken, metadata, now);
        db.auths == Update(old(db.auths), ex.value.id, d) && resp.body.auth == Safe(ex.value.(data := d))) &&
      (ex.None? ==>
        var x := Row(old(db.nextId), Some(user), now, AuthData(platform, accessToken, refreshToken, metadata, now));
        db.auths == old(db.auths) + [x] && resp.body.auth == Safe(x)) &&
      FirstAuth(db.auths, user, platform).Some? && FirstAuth(db.auths, user, platform).value.data.accessToken == accessToken &&
      (OnePerPlatform(old(db.auths)) ==> OnePerPlatform(db.auths)) &&
      db.records == old(db.records) && db.generated == old(db.generated) && db.prompts == old(db.prompts) && db.publishes == old(db.publishes)
  {
    var gate := StrippedUser(header, verify);
    if gate.Failure? {
      return Failure(gate.status, gate.error);
    }
    if platform == "" || accessToken == "" {
      return Failure(400, "平台和访问令牌为必填项");
    }
    var user := gate.body;
    var ex := FirstAuth(db.auths, user, platform);
    if ex.Some? {
      var x := ex.value;
      var d := Refreshed(x.data, accessToken, refreshToken, metadata, now);
      ghost var t := db.auths;
      UpdateSamePlatform(t, x, d);
      forall i | 0 <= i < |t| && t[i].id == x.id ensures t[i] == x {
        FindIndex(t, x.id, x);
        FindIndex(t, x.id, t[i]);
      }
      UpdateKeepsFirst(t, x, d, user, platform);
      db.UpdateAuth(x.id, d);
      resp := Success(Saved(Safe(x.(data := d)), Message(platform, true)));
    } else {
      var d := AuthData(platform, accessToken, refreshToken, metadata, now);
      ghost var t := db.auths;
      ghost var x := Row(db.nextId, Some(user), now, d);
      FirstAuthSnoc(t, x, user, platform);
      if OnePerPlatform(t) { CreateKeepsOne(t, x); }
      var id := db.CreateAuth(user, d, now);
      resp := Success(Saved(Safe(Row(id, Some(user), now, d)), Message(platform, false)));
    }
  }

  /** With one authorisation per platform, deleting the one found leaves none for that user and platform. */
  lemma DeleteClearsPlatform(t: seq<Row<AuthData>>, user: string, platform: string)
    requires OnePerPlatform(t) && FirstAuth(t, user, platform).Some?
    ensures FirstAuth(Remove(t, FirstAuth(t, user, platform).value.id), user, platform).None?
  {
    var x := FirstAuth(t, user, platform).value;
    var r := Remove(t, x.id);
    var j :| 0 <= j < |t| && t[j] == x;
    forall i | 0 <= i < |r| ensures !Holds(r[i], user, platform) {
      var k :| 0 <= k < |t| && t[k] == r[i];
      assert k != j;
      if k < j { assert t[k].owner != t[j].owner || t[k].data.platform != t[j].data.platform; }
      else { assert t[j].owner != t[k].owner || t[j].data.platform != t[k].data.platform; }
    }
  }

  /** `DELETE`: the gate, 400 without platform, 404 when the caller has no authorisation for it, then that one is removed. */
  method Delete(db: Db, header: Option<string>, verify: string -> Option<string>, platform: Option<string>) returns (resp: Response<string>)
    requires db.Valid()
    modifies db
    ensures db.Valid()
    ensures StrippedUser(header, verify).Failure? ==> resp.Failure? && resp.status == 401 && unchanged(db)
    ensures StrippedUser(header, verify).Success? && (platform.None? || platform.value == "") ==>
      resp == Failure(400, "请提供平台名称") && unchanged(db)
    ensures (StrippedUser(header, verify).Success? && platform.Some? && platform.value != "" &&
             FirstAuth(old(db.auths), StrippedUser(header, verify).body, platform.value).None?) ==>
      resp == Failure(404, "未找到该平台的授权记录") && unchanged(db)
    ensures (StrippedUser(header, verify).Success? && platform.Some? && platform.value != "" &&
             FirstAuth(old(db.auths), StrippedUser(header, verify).body, platform.value).Some?) ==>
      resp == Success(platform.value + "平台授权已删除") &&
      db.auths == Remove(old(db.auths), FirstAuth(old(db.auths), StrippedUser(header, verify).body, platform.value).value.id) &&
      (OnePerPlatform(old(db.auths)) ==> FirstAuth(db.auths, StrippedUser(header, verify).body, platform.value).None?) &&
      db.records == old(db.records) && db.generated == old(db.generated) && db.prompts == old(db.prompts) && db.publishes == old(db.publishes)
  {
    var gate := StrippedUser(header, verify);
    if gate.Failure? {
      return Failure(gate.status, gate.error);
    }
    if platform.None? || platform.value == "" {
      return Failure(400, "请提供平台名称");
    }
    var ex := FirstAuth(db.auths, gate.body, platform.value);
    if ex.None? {
      return Failure(404, "未找到该平台的授权记录");
    }
    if OnePerPlatform(db.auths) { DeleteClearsPlatform(db.auths, gate.body, platform.value); }
    db.RemoveAuth(ex.value.id);
    resp := Success(platform.value + "平台授权已删除");
  }
}
