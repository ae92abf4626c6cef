/**
 * The per-platform prompt editor (src/components/platforms/PlatformPrompts.tsx):
 * a list with at most one prompt per platform, a form that saves (inserts or
 * replaces) the prompt of one platform, and deletion by platform. Each
 * handler is a function from the panel's state and the server's reply to
 * the next state.
 */
module PlatformPrompts {
  import opened Wrappers
  import Seqs

  datatype PlatformPrompt = PlatformPrompt(id: string, platform: string, prompt: string)

  datatype FormData = FormData(platform: string, prompt: string)

  datatype State = State(prompts: seq<PlatformPrompt>, loading: bool, error: string,
                         editing: Option<PlatformPrompt>, form: FormData)

  /** The platforms this editor offers, with their display names. */
  const PanelPlatforms: seq<(string, string)> := [("twitter", "Twitter"), ("xiaohongshu", "小红书"), ("zhihu", "知乎"), ("wechat", "微信")]

  /** The state before the first fetch. */
  const Initial := State([], true, "", None, FormData("", ""))

  /** No platform has two prompts in the list. */
  predicate OnePerPlatform(ps: seq<PlatformPrompt>) {
    forall i, j | 0 <= i < j < |ps| :: ps[i].platform != ps[j].platform
  }

  /** `prompts.map(p => p.platform === data.platform ? data : p)`. */
  function ReplaceSame(ps: seq<PlatformPrompt>, data: PlatformPrompt): (r: seq<PlatformPrompt>)
    ensures |r| == |ps|
    ensures forall i | 0 <= i < |ps| :: r[i] == if ps[i].platform == data.platform then data else ps[i]
  {
    seq(|ps|, i requires 0 <= i < |ps| => if ps[i].platform == data.platform then data else ps[i])
  }

  predicate HasPlatform(ps: seq<PlatformPrompt>, platform: string) {
    exists i | 0 <= i < |ps| :: ps[i].platform == platform
  }

  /** The saved prompt replaces the one of its platform, or is appended when its platform has none. */
  function Upsert(ps: seq<PlatformPrompt>, data: PlatformPrompt): seq<PlatformPrompt> {
    ReplaceSame(ps, data) + (if HasPlatform(ps, data.platform) then [] else [data])
  }

  /** The filter that keeps the prompts of other platforms. */
  function OtherPlatform(platform: string): PlatformPrompt -> bool {
    (p: PlatformPrompt) => p.platform != platform
  }

  /** `prompts.filter(p => p.platform !== platform)`. */
  function RemovePlatform(ps: seq<PlatformPrompt>, platform: string): seq<PlatformPrompt> {
    Seqs.Filter(ps, OtherPlatform(platform))
  }

  /** After a save the list holds the saved prompt, keeps one prompt per platform, and grows only for a new platform. */
  lemma UpsertSaves(ps: seq<PlatformPrompt>, data: PlatformPrompt)
    requires OnePerPlatform(ps)
    ensures var r := Upsert(ps, data);
      data in r && OnePerPlatform(r) &&
      |r| == if HasPlatform(ps, data.platform) then |ps| else |ps| + 1
  {
    var r := Upsert(ps, data);
    var m := ReplaceSame(ps, data);
    if HasPlatform(ps, data.platform) {
      var i :| 0 <= i < |ps| && ps[i].platform == data.platform;
      assert r[i] == data;
    } else {
      assert r[|ps|] == data;
      forall i, j | 0 <= i < j < |r| ensures r[i].platform != r[j].platform {
        if j == |ps| {
          assert r[i] == ps[i];
        }
      }
    }
  }

  /** A save leaves the other platforms' prompts as they were, in their order. */
  lemma UpsertKeepsOthers(ps: seq<PlatformPrompt>, data: PlatformPrompt)
    ensures RemovePlatform(Upsert(ps, data), data.platform) == RemovePlatform(ps, data.platform)
  {
    var f := OtherPlatform(data.platform);
    var m := ReplaceSame(ps, data);
    var tail := if HasPlatform(ps, data.platform) then [] else [data];
    Seqs.FilterConcat(m, tail, f);
    assert Seqs.Filter(tail, f) == [];
    FilterReplaced(ps, data);
  }

  lemma {:induction false} FilterReplaced(ps: seq<PlatformPrompt>, data: PlatformPrompt)
    ensures Seqs.Filter(ReplaceSame(ps, data), OtherPlatform(data.platform)) == Seqs.Filter(ps, OtherPlatform(data.platform))
    decreases |ps|
  {
    if ps != [] {
      var m := ReplaceSame(ps, data);
      assert m[1..] == ReplaceSame(ps[1..], data);
      FilterReplaced(ps[1..], data);
    }
  }

  /** Saving the same prompt twice is saving it once. */
  lemma UpsertIdempotent(ps: seq<PlatformPrompt>, data: PlatformPrompt)
    ensures Upsert(Upsert(ps, data), data) == Upsert(ps, data)
  {
    var r := Upsert(ps, data);
    assert HasPlatform(r, data.platform) by {
      if HasPlatform(ps, data.platform) {
        var i :| 0 <= i < |ps| && ps[i].platform == data.platform;
        assert r[i] == data;
      } else {
        assert r[|ps|] == data;
      }
    }
    assert ReplaceSame(r, data) == r;
  }

  /** After a delete no prompt of the platform is left, and every other prompt is kept. */
  lemma RemoveDeletes(ps: seq<PlatformPrompt>, platform: string)
    ensures !HasPlatform(RemovePlatform(ps, platform), platform)
    ensures forall p | p in ps && p.platform != platform :: p in RemovePlatform(ps, platform)
  {
    var f := OtherPlatform(platform);
    forall p | p in ps && p.platform != platform ensures p in RemovePlatform(ps, platform) {
      var i :| 0 <= i < |ps| && ps[i] == p;
      assert f(ps[i]);
    }
    var r := RemovePlatform(ps, platform);
    forall i | 0 <= i < |r| ensures r[i].platform != platform {
      assert f(r[i]);
    }
  }

  /** `fetchPrompts`: the server's list, or the error; loading ends either way. */
  function Fetched(s: State, reply: Reply<seq<PlatformPrompt>>): (r: State)
    ensures !r.loading && r.editing == s.editing && r.form == s.form
    ensures reply.Answered? ==> r.prompts == reply.value && r.error == s.error
    ensures !reply.Answered? ==> r.prompts == s.prompts && r.error == ReplyError(reply, "获取提示词失败", "获取提示词失败")
  {
    match reply
    case Answered(ps) => s.(prompts := ps, loading := false)
    case _ => s.(error := ReplyError(reply, "获取提示词失败", "获取提示词失败"), loading := false)
  }

  /** `handleSubmit`: on success the saved prompt is upserted and the form reset; a failure keeps the list. */
  function Submitted(s: State, reply: Reply<PlatformPrompt>): (r: State)
    ensures reply.Answered? ==>
              r.prompts == Upsert(s.prompts, reply.value) && r.error == "" && r.editing.None? && r.form == FormData("", "")
    ensures !reply.Answered? ==>
              r.prompts == s.prompts && r.error == ReplyError(reply, "保存提示词失败", "保存提示词失败") &&
              r.editing == s.editing && r.form == s.form
    ensures r.loading == s.loading
  {
    var cleared := s.(error := "");
    match reply
    case Answered(data) => cleared.(prompts := Upsert(s.prompts, data), form := FormData("", ""), editing := None)
    case _ => cleared.(error := ReplyError(reply, "保存提示词失败", "保存提示词失败"))
  }

  /** `handleDelete`: on success the platform's prompts are removed; a failure keeps the list and sets the error. */
  function Deleted(s: State, platform: string, reply: Reply<()>): (r: State)
    ensures reply.Answered? ==> r == s.(prompts := RemovePlatform(s.prompts, platform))
    ensures !reply.Answered? ==> r == s.(error := ReplyError(reply, "删除提示词失败", "删除提示词失败"))
  {
    match reply
    case Answered(_) => s.(prompts := RemovePlatform(s.prompts, platform))
    case _ => s.(error := ReplyError(reply, "删除提示词失败", "删除提示词失败"))
  }

  /** `handleEdit`: the prompt fills the form. */
  function Edited(s: State, p: PlatformPrompt): (r: State)
    ensures r.editing == Some(p) && r.form == FormData(p.platform, p.prompt)
    ensures r.prompts == s.prompts && r.error == s.error && r.loading == s.loading
  {
    s.(editing := Some(p), form := FormData(p.platform, p.prompt))
  }

  /** The editor offers "wechat", which the registry does not know, and does not offer "weibo", which it does. */
  lemma PanelPlatformsVersusRegistry()
    ensures exists i | 0 <= i < |PanelPlatforms| :: PanelPlatforms[i].0 == "wechat"
    ensures forall i | 0 <= i < |PanelPlatforms| :: PanelPlatforms[i].0 != "weibo"
  {
    assert PanelPlatforms[3].0 == "wechat";
  }
}
