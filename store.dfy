/**
 * The persistent store the API handlers talk to, as tables of rows keyed by
 * id with an owning user. Every table is a sequence of rows in insertion
 * order; ids come from one counter, so they are unique and never reused.
 * Generated rows that belong to a content record are removed with it
 * (the cascade the content handler relies on), so no generated row ever
 * points at a missing record.
 */
module Store {
  import opened Wrappers
  import Seqs

  type Id = nat

  /** A stored row: its id, its owner (absent when the creating call gave none), creation time, and the table's own fields. */
  datatype Row<+T> = Row(id: Id, owner: Option<string>, createdAt: int, data: T)

  /** A content record: the source text the user generated from. */
  datatype RecordData = RecordData(title: string, originalContent: string, model: string)

  /** A generated text for one platform, optionally attached to a content record. */
  datatype GeneratedData = GeneratedData(
    recordId: Option<Id>, platform: string, content: string, customPromptId: Option<Id>,
    title: string, publishStatus: string, publishError: string)

  /** A user's custom prompt template for a platform. */
  datatype PromptData = PromptData(platform: string, name: string, systemPrompt: string, userPrompt: string, updatedAt: int)

  /** A user's stored authorisation for a publishing platform. */
  datatype AuthData = AuthData(platform: string, accessToken: string, refreshToken: Option<string>, metadata: Option<string>, updatedAt: int)

  /** One publishing attempt of a generated row. */
  datatype PublishData = PublishData(platform: string, contentId: Id, status: string, error: Option<string>)

  function CreatedAt<T>(r: Row<T>): int { r.createdAt }

  /** A generated row as the content handlers create it, before publishing. */
  function NewGenerated(recordId: Option<Id>, platform: string, content: string, customPromptId: Option<Id>, title: string): GeneratedData {
    GeneratedData(recordId, platform, content, customPromptId, title, "", "")
  }

  /** `findUnique({ where: { id } })`. */
  function Find<T>(t: seq<Row<T>>, id: Id): (r: Option<Row<T>>)
    ensures r.Some? ==> r.value in t && r.value.id == id
    ensures r.None? <==> forall i | 0 <= i < |t| :: t[i].id != id
    decreases |t|
  {
    if t == [] then None
    else if t[0].id == id then Some(t[0])
    else
      var r := Find(t[1..], id);
      assert r.None? ==> forall i | 1 <= i < |t| :: t[i].id == t[1..][i - 1].id;
      r
  }

  /** `findFirst({ where: { id, userId } })`: the row with that id, when the user owns it. */
  function FindOwned<T>(t: seq<Row<T>>, id: Id, user: string): (r: Option<Row<T>>)
    ensures r.Some? <==> Find(t, id).Some? && Find(t, id).value.owner == Some(user)
    ensures r.Some? ==> r == Find(t, id)
  {
    match Find(t, id)
    case Some(row) => if row.owner == Some(user) then Some(row) else None
    case None => None
  }

  /** The rows a user owns, in table order. */
  function Owned<T(==)>(t: seq<Row<T>>, user: string): (r: seq<Row<T>>)
    ensures forall i | 0 <= i < |r| :: r[i] in t && r[i].owner == Some(user)
    ensures forall i | 0 <= i < |t| && t[i].owner == Some(user) :: t[i] in r
    decreases |t|
  {
    if t == [] then []
    else if t[0].owner == Some(user) then [t[0]] + Owned(t[1..], user)
    else Owned(t[1..], user)
  }

  /** `delete({ where: { id } })`: every other row stays, in order. */
  function Remove<T(==)>(t: seq<Row<T>>, id: Id): (r: seq<Row<T>>)
    ensures forall i | 0 <= i < |r| :: r[i] in t && r[i].id != id
    ensures forall i | 0 <= i < |t| && t[i].id != id :: t[i] in r
    ensures |r| <= |t|
    decreases |t|
  {
    if t == [] then []
    else if t[0].id == id then Remove(t[1..], id)
    else [t[0]] + Remove(t[1..], id)
  }

  /** `update({ where: { id }, data })`: that row's fields become `d`; its id, owner and creation time stay. */
  function Update<T>(t: seq<Row<T>>, id: Id, d: T): (r: seq<Row<T>>)
    ensures |r| == |t|
    ensures forall i | 0 <= i < |t| :: r[i] == if t[i].id == id then t[i].(data := d) else t[i]
    decreases |t|
  {
    if t == [] then []
    else [if t[0].id == id then t[0].(data := d) else t[0]] + Update(t[1..], id, d)
  }

  lemma UpdateTail<T>(t: seq<Row<T>>, id: Id, d: T)
    requires t != []
    ensures Update(t, id, d)[1..] == Update(t[1..], id, d)
  {
    assert ([if t[0].id == id then t[0].(data := d) else t[0]] + Update(t[1..], id, d))[1..] == Update(t[1..], id, d);
  }

  /** Rows with the given ids, in order, all created by the same call. */
  function Numbered<T>(ds: seq<T>, first: Id, owner: Option<string>, now: int): (r: seq<Row<T>>)
    ensures |r| == |ds|
    ensures forall i | 0 <= i < |ds| :: r[i] == Row(first + i, owner, now, ds[i])
    decreases |ds|
  {
    if ds == [] then [] else [Row(first, owner, now, ds[0])] + Numbered(ds[1..], first + 1, owner, now)
  }

  /** Generated rows not attached to the record `rid` (`deleteMany({ where: { contentRecordId } })`). */
  function Detach(t: seq<Row<GeneratedData>>, rid: Id): (r: seq<Row<GeneratedData>>)
    ensures forall x :: x in r <==> x in t && x.data.recordId != Some(rid)
    decreases |t|
  {
    if t == [] then []
    else if t[0].data.recordId == Some(rid) then Detach(t[1..], rid)
    else [t[0]] + Detach(t[1..], rid)
  }

  /** The generated rows attached to record `rid`, in table order. */
  function RowsOf(t: seq<Row<GeneratedData>>, rid: Id): (r: seq<Row<GeneratedData>>)
    ensures forall x :: x in r <==> x in t && x.data.recordId == Some(rid)
    decreases |t|
  {
    if t == [] then []
    else if t[0].data.recordId == Some(rid) then [t[0]] + RowsOf(t[1..], rid)
    else RowsOf(t[1..], rid)
  }

  predicate UniqueIds<T>(t: seq<Row<T>>) {
    forall i, j | 0 <= i < j < |t| :: t[i].id != t[j].id
  }

  predicate Below<T>(t: seq<Row<T>>, next: nat) {
    forall i | 0 <= i < |t| :: t[i].id < next
  }

  /** Every generated row attached to a record points at a stored record. */
  predicate Attached(generated: seq<Row<GeneratedData>>, records: seq<Row<RecordData>>) {
    forall i | 0 <= i < |generated| && generated[i].data.recordId.Some? ::
      Find(records, generated[i].data.recordId.value).Some?
  }

  /** A table with unique ids below the counter. */
  predicate Table<T>(t: seq<Row<T>>, next: nat) {
    UniqueIds(t) && Below(t, next)
  }

  /** Removing a row keeps the table's ids unique and below the counter. */
  lemma {:induction false} RemoveKeepsTable<T>(t: seq<Row<T>>, id: Id, next: nat)
    requires Table(t, next)
    ensures Table(Remove(t, id), next)
    decreases |t|
  {
    if t != [] {
      RemoveKeepsTable(t[1..], id, next);
    }
  }

  lemma {:induction false} DetachKeepsTable(t: seq<Row<GeneratedData>>, rid: Id, next: nat)
    requires Table(t, next)
    ensures Table(Detach(t, rid), next)
    decreases |t|
  {
    if t != [] {
      DetachKeepsTable(t[1..], rid, next);
    }
  }

  /** After removal the id is gone and every other row is still found. */
  lemma RemoveFind<T>(t: seq<Row<T>>, id: Id, other: Id)
    requires UniqueIds(t)
    ensures Find(Remove(t, id), id).None?
    ensures other != id ==> Find(Remove(t, id), other) == Find(t, other)
  {
    FindUnique(Remove(t, id), other);
    FindUnique(t, other);
    RemoveKeepsTable(t, id, Upper(t));
  }

  /** A bound above every id of the table. */
  function Upper<T>(t: seq<Row<T>>): (n: nat)
    ensures Below(t, n)
    decreases |t|
  {
    if t == [] then 0
    else
      var m := Upper(t[1..]);
      assert forall i | 1 <= i < |t| :: t[i] == t[1..][i - 1];
      if t[0].id + 1 > m then t[0].id + 1 else m
  }

  /** With unique ids, `Find` returns the one row carrying the id. */
  lemma FindUnique<T>(t: seq<Row<T>>, id: Id)
    ensures forall x | x in t && x.id == id && UniqueIds(t) :: Find(t, id) == Some(x)
  {
    forall x | x in t && x.id == id && UniqueIds(t) ensures Find(t, id) == Some(x) {
      FindIndex(t, id, x);
    }
  }

  lemma {:induction false} FindIndex<T>(t: seq<Row<T>>, id: Id, x: Row<T>)
    requires x in t && x.id == id && UniqueIds(t)
    ensures Find(t, id) == Some(x)
    decreases |t|
  {
    if t[0] != x {
      assert x in t[1..];
      assert t[0].id != id by {
        var k :| 0 <= k < |t| && t[k] == x;
        assert k > 0;
      }
      FindIndex(t[1..], id, x);
    }
  }

  /** Updating a row keeps ids, changes only that row's fields, and the row is found with its new fields. */
  lemma UpdateFind<T>(t: seq<Row<T>>, id: Id, d: T, other: Id)
    requires UniqueIds(t)
    ensures UniqueIds(Update(t, id, d))
    ensures forall next: nat | Below(t, next) :: Below(Update(t, id, d), next)
    ensures Find(t, id).Some? ==> Find(Update(t, id, d), id) == Some(Find(t, id).value.(data := d))
    ensures other != id ==> Find(Update(t, id, d), other) == Find(t, other)
  {
    var u := Update(t, id, d);
    SameIds(t, u);
    if Find(t, id).Some? {
      var k :| 0 <= k < |t| && t[k] == Find(t, id).value;
      assert u[k] == t[k].(data := d);
      FindIndex(u, id, u[k]);
    }
    if other != id {
      UpdateFindOther(t, u, other);
    }
  }

  /** Two tables whose rows have the same ids row by row. */
  lemma SameIds<T, U>(t: seq<Row<T>>, u: seq<Row<U>>)
    requires |u| == |t| && forall i | 0 <= i < |t| :: u[i].id == t[i].id
    ensures UniqueIds(t) ==> UniqueIds(u)
    ensures forall next: nat | Below(t, next) :: Below(u, next)
  {
  }

  /** A row another id names is found unchanged after an update, or missing in both. */
  lemma UpdateFindOther<T>(t: seq<Row<T>>, u: seq<Row<T>>, other: Id)
    requires UniqueIds(t) && |u| == |t|
    requires forall i | 0 <= i < |t| :: u[i].id == t[i].id && (t[i].id == other ==> u[i] == t[i])
    ensures Find(u, other) == Find(t, other)
  {
    SameIds(t, u);
    match Find(t, other)
    case Some(x) =>
      var k :| 0 <= k < |t| && t[k] == x;
      FindIndex(u, other, u[k]);
    case None =>
  }

  /** Rows numbered from the counter extend a table without clashing with it. */
  lemma AppendNumbered<T>(t: seq<Row<T>>, ds: seq<T>, next: nat, owner: Option<string>, now: int)
    requires Table(t, next)
    ensures Table(t + Numbered(ds, next, owner, now), next + |ds|)
  {
  }

  /** Numbering one more row continues the run. */
  lemma NumberedSnoc<T>(ds: seq<T>, d: T, first: Id, owner: Option<string>, now: int)
    ensures Numbered(ds + [d], first, owner, now) == Numbered(ds, first, owner, now) + [Row(first + |ds|, owner, now, d)]
  {
    var l := Numbered(ds + [d], first, owner, now);
    var r := Numbered(ds, first, owner, now) + [Row(first + |ds|, owner, now, d)];
    assert |l| == |r|;
    forall i | 0 <= i < |l| ensures l[i] == r[i] {
      if i < |ds| { assert (ds + [d])[i] == ds[i]; }
    }
  }

  /** Numbering two batches one after the other is numbering them together. */
  lemma NumberedConcat<T>(ds: seq<T>, es: seq<T>, first: Id, owner: Option<string>, now: int)
    ensures Numbered(ds + es, first, owner, now) == Numbered(ds, first, owner, now) + Numbered(es, first + |ds|, owner, now)
  {
    var l := Numbered(ds + es, first, owner, now);
    var r := Numbered(ds, first, owner, now) + Numbered(es, first + |ds|, owner, now);
    assert |l| == |r|;
    forall i | 0 <= i < |l| ensures l[i] == r[i] {
      if i < |ds| { assert (ds + es)[i] == ds[i]; } else { assert (ds + es)[i] == es[i - |ds|]; }
    }
  }

  /** A table grown by one batch and then by another holds both batches, numbered on from where it started. */
  lemma NumberedGrow<T>(t0: seq<Row<T>>, t1: seq<Row<T>>, t2: seq<Row<T>>, ds: seq<T>, es: seq<T>, first: Id,
                        owner: Option<string>, now: int)
    requires t1 == t0 + Numbered(ds, first, owner, now)
    requires t2 == t1 + Numbered(es, first + |ds|, owner, now)
    ensures t2 == t0 + Numbered(ds + es, first, owner, now)
  {
    NumberedConcat(ds, es, first, owner, now);
    Seqs.AppendGrow(t0, t1, t2, Numbered(ds, first, owner, now), Numbered(es, first + |ds|, owner, now), Numbered(ds + es, first, owner, now));
  }

  /** Records keep being found after an update of their fields. */
  lemma AttachedAfterUpdate(generated: seq<Row<GeneratedData>>, records: seq<Row<RecordData>>, id: Id, d: RecordData)
    requires UniqueIds(records) && Attached(generated, records)
    ensures Attached(generated, Update(records, id, d))
  {
    forall i | 0 <= i < |generated| && generated[i].data.recordId.Some?
      ensures Find(Update(records, id, d), generated[i].data.recordId.value).Some?
    {
      UpdateFind(records, id, d, generated[i].data.recordId.value);
    }
  }

  /**
   * The store behind the API handlers. `nextId` is the id the next created
   * row receives.
   */
  class Db {
    var records: seq<Row<RecordData>>
    var generated: seq<Row<GeneratedData>>
    var prompts: seq<Row<PromptData>>
    var auths: seq<Row<AuthData>>
    var publishes: seq<Row<PublishData>>
    var nextId: nat

    ghost predicate Valid()
      reads this
    {
      Table(records, nextId) && Table(generated, nextId) && Table(prompts, nextId) &&
      Table(auths, nextId) && Table(publishes, nextId) && Attached(generated, records)
    }

    constructor()
      ensures Valid()
      ensures records == [] && generated == [] && prompts == [] && auths == [] && publishes == []
    {
      records, generated, prompts, auths, publishes := [], [], [], [], [];
      nextId := 0;
    }

    /** `contentRecord.create`: the new record gets the next id. */
    method CreateRecord(owner: string, d: RecordData, now: int) returns (id: Id)
      requires Valid()
      modifies this
      ensures Valid()
      ensures id == old(nextId) && nextId == id + 1
      ensures records == old(records) + [Row(id, Some(owner), now, d)]
      ensures generated == old(generated) && prompts == old(prompts) && auths == old(auths) && publishes == old(publishes)
    {
      id := nextId;
      records := records + [Row(id, Some(owner), now, d)];
      nextId := nextId + 1;
      assert forall i | 0 <= i < |generated| && generated[i].data.recordId.Some? ::
        Find(records, generated[i].data.recordId.value).Some? by {
        forall i | 0 <= i < |generated| && generated[i].data.recordId.Some?
          ensures Find(records, generated[i].data.recordId.value).Some?
        {
          var rid := generated[i].data.recordId.value;
          var x := old(Find(records, rid)).value;
          assert x in records;
          FindUnique(records, rid);
        }
      }
    }

    /** `generatedContent.createMany` (or a run of `create`): rows numbered from the counter, in order. */
    method CreateGenerated(ds: seq<GeneratedData>, owner: Option<string>, now: int)
      requires Valid()
      requires forall i | 0 <= i < |ds| && ds[i].recordId.Some? :: Find(records, ds[i].recordId.value).Some?
      modifies this
      ensures Valid()
      ensures nextId == old(nextId) + |ds|
      ensures generated == old(generated) + Numbered(ds, old(nextId), owner, now)
      ensures records == old(records) && prompts == old(prompts) && auths == old(auths) && publishes == old(publishes)
    {
      var rows := Numbered(ds, nextId, owner, now);
      AppendNumbered(generated, ds, nextId, owner, now);
      generated := generated + rows;
      nextId := nextId + |ds|;
      forall i | 0 <= i < |generated| && generated[i].data.recordId.Some?
        ensures Find(records, generated[i].data.recordId.value).Some?
      {
        if i >= |old(generated)| {
          assert generated[i] == rows[i - |old(generated)|];
        }
      }
    }

    /** `contentRecord.update`: only that record's fields change. */
    method UpdateRecord(id: Id, d: RecordData)
      requires Valid()
      modifies this
      ensures Valid()
      ensures records == Update(old(records), id, d)
      ensures generated == old(generated) && prompts == old(prompts) && auths == old(auths) && publishes == old(publishes) && nextId == old(nextId)
    {
      UpdateFind(records, id, d, id);
      AttachedAfterUpdate(generated, records, id, d);
      records := Update(records, id, d);
    }

    /** `generatedContent.deleteMany({ where: { contentRecordId } })`. */
    method DetachRows(rid: Id)
      requires Valid()
      modifies this
      ensures Valid()
      ensures generated == Detach(old(generated), rid)
      ensures records == old(records) && prompts == old(prompts) && auths == old(auths) && publishes == old(publishes) && nextId == old(nextId)
    {
      DetachKeepsTable(generated, rid, nextId);
      ghost var g := generated;
      generated := Detach(generated, rid);
      forall i | 0 <= i < |generated| && generated[i].data.recordId.Some?
        ensures Find(records, generated[i].data.recordId.value).Some?
      {
        assert generated[i] in g;
      }
    }

    /** `contentRecord.delete`: the record goes, and with it (by cascade) its generated rows. */
    method DeleteRecord(id: Id)
      requires Valid()
      modifies this
      ensures Valid()
      ensures records == Remove(old(records), id)
      ensures generated == Detach(old(generated), id)
      ensures prompts == old(prompts) && auths == old(auths) && publishes == old(publishes) && nextId == old(nextId)
    {
      RemoveKeepsTable(records, id, nextId);
      DetachKeepsTable(generated, id, nextId);
      ghost var g := generated;
      ghost var rs := records;
      records := Remove(records, id);
      generated := Detach(generated, id);
      forall i | 0 <= i < |generated| && generated[i].data.recordId.Some?
        ensures Find(records, generated[i].data.recordId.value).Some?
      {
        assert generated[i] in g;
        RemoveFind(rs, id, generated[i].data.recordId.value);
      }
    }

    /** `generatedContent.update`: only that row's fields change. */
    method UpdateGenerated(id: Id, d: GeneratedData)
      requires Valid()
      requires d.recordId.Some? ==> Find(records, d.recordId.value).Some?
      modifies this
      ensures Valid()
      ensures generated == Update(old(generated), id, d)
      ensures records == old(records) && prompts == old(prompts) && auths == old(auths) && publishes == old(publishes) && nextId == old(nextId)
    {
      UpdateFind(generated, id, d, id);
      ghost var g := generated;
      generated := Update(generated, id, d);
      forall i | 0 <= i < |generated| && generated[i].data.recordId.Some?
        ensures Find(records, generated[i].data.recordId.value).Some?
      {
        if g[i].id != id { assert generated[i] == g[i]; }
      }
    }

    /** `customPrompt.create`. */
    method CreatePrompt(owner: string, d: PromptData, now: int) returns (id: Id)
      requires Valid()
      modifies this
      ensures Valid()
      ensures id == old(nextId) && nextId == id + 1
      ensures prompts == old(prompts) + [Row(id, Some(owner), now, d)]
      ensures records == old(records) && generated == old(generated) && auths == old(auths) && publishes == old(publishes)
    {
      id := nextId;
      prompts := prompts + [Row(id, Some(owner), now, d)];
      nextId := nextId + 1;
    }

    /** `customPrompt.update`. */
    method UpdatePrompt(id: Id, d: PromptData)
      requires Valid()
      modifies this
      ensures Valid()
      ensures prompts == Update(old(prompts), id, d)
      ensures records == old(records) && generated == old(generated) && auths == old(auths) && publishes == old(publishes) && nextId == old(nextId)
    {
      UpdateFind(prompts, id, d, id);
      prompts := Update(prompts, id, d);
    }

    /** `customPrompt.delete`. */
    method RemovePrompt(id: Id)
      requires Valid()
      modifies this
      ensures Valid()
      ensures prompts == Remove(old(prompts), id)
      ensures records == old(records) && generated == old(generated) && auths == old(auths) && publishes == old(publishes) && nextId == old(nextId)
    {
      RemoveKeepsTable(prompts, id, nextId);
      prompts := Remove(prompts, id);
    }

    /** `platformAuth.create`. */
    method CreateAuth(owner: string, d: AuthData, now: int) returns (id: Id)
      requires Valid()
      modifies this
      ensures Valid()
      ensures id == old(nextId) && nextId == id + 1
      ensures auths == old(auths) + [Row(id, Some(owner), now, d)]
      ensures records == old(records) && generated == old(generated) && prompts == old(prompts) && publishes == old(publishes)
    {
      id := nextId;
      auths := auths + [Row(id, Some(owner), now, d)];
      nextId := nextId + 1;
    }

    /** `platformAuth.update`. */
    method UpdateAuth(id: Id, d: AuthData)
      requires Valid()
      modifies this
      ensures Valid()
      ensures auths == Update(old(auths), id, d)
      ensures records == old(records) && generated == old(generated) && prompts == old(prompts) && publishes == old(publishes) && nextId == old(nextId)
    {
      UpdateFind(auths, id, d, id);
      auths := Update(auths, id, d);
    }

    /** `platformAuth.delete`. */
    method RemoveAuth(id: Id)
      requires Valid()
      modifies this
      ensures Valid()
      ensures auths == Remove(old(auths), id)
      ensures records == old(records) && generated == old(generated) && prompts == old(prompts) && publishes == old(publishes) && nextId == old(nextId)
    {
      RemoveKeepsTable(auths, id, nextId);
      auths := Remove(auths, id);
    }

    /** `publishRecord.create`. */
    method CreatePublish(owner: string, d: PublishData, now: int) returns (id: Id)
      requires Valid()
      modifies this
      ensures Valid()
      ensures id == old(nextId) && nextId == id + 1
      ensures publishes == old(publishes) + [Row(id, Some(owner), now, d)]
      ensures records == old(records) && generated == old(generated) && prompts == old(prompts) && auths == old(auths)
    {
      id := nextId;
      publishes := publishes + [Row(id, Some(owner), now, d)];
      nextId := nextId + 1;
    }
  }
}
