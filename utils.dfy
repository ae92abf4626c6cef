/**
 * The platform registry and the small text helpers shared by the pages and
 * the content composers (src/lib/utils.ts).
 */
module Utils {
  import opened Wrappers

  /** A target social platform: its id, display name, icon key and length budget. */
  datatype Platform = Platform(id: string, name: string, icon: string, maxLength: nat)

  /** The registry, in display order. */
  const Registry: seq<Platform> := [
    Platform("twitter", "Twitter", "twitter", 280),
    Platform("xiaohongshu", "小红书", "xiaohongshu", 1000),
    Platform("zhihu", "知乎", "zhihu", 2000),
    Platform("weibo", "微博", "weibo", 280)
  ]

  /** The four platform ids the registry knows. */
  const KnownIds: set<string> := {"twitter", "xiaohongshu", "zhihu", "weibo"}

  /** `getPlatforms()`: the registry, four platforms with distinct ids. */
  function GetPlatforms(): (r: seq<Platform>)
    ensures |r| == 4
    ensures forall i, j | 0 <= i < j < |r| :: r[i].id != r[j].id
    ensures forall i | 0 <= i < |r| :: r[i].id in KnownIds
    ensures r[0].id == "twitter" && r[0].maxLength == 280
    ensures r[1].id == "xiaohongshu" && r[1].maxLength == 1000
    ensures r[2].id == "zhihu" && r[2].maxLength == 2000
    ensures r[3].id == "weibo" && r[3].maxLength == 280
  {
    Registry
  }

  /** `platforms.find(p => p.id === id)`. */
  function Find(ps: seq<Platform>, id: string): (r: Option<Platform>)
    ensures r.Some? ==> r.value in ps && r.value.id == id
    ensures r.None? ==> forall i | 0 <= i < |ps| :: ps[i].id != id
    decreases |ps|
  {
    if ps == [] then None else if ps[0].id == id then Some(ps[0]) else Find(ps[1..], id)
  }

  function FindPlatform(id: string): Option<Platform> {
    Find(Registry, id)
  }

  predicate IsRegistered(id: string) { FindPlatform(id).Some? }

  /** Exactly the four known ids are registered. */
  lemma RegisteredIff(id: string)
    ensures IsRegistered(id) <==> id in KnownIds
  {
    var ps := GetPlatforms();
    if id in KnownIds {
      assert exists i | 0 <= i < |ps| :: ps[i].id == id;
    }
  }

  /** The length budget of a registered platform. */
  lemma RegisteredMaxLength(id: string)
    ensures FindPlatform(id) == Some(Registry[0]) <==> id == "twitter"
    ensures FindPlatform(id) == Some(Registry[1]) <==> id == "xiaohongshu"
    ensures FindPlatform(id) == Some(Registry[2]) <==> id == "zhihu"
    ensures FindPlatform(id) == Some(Registry[3]) <==> id == "weibo"
  {
    var _ := GetPlatforms();
  }

  /**
   * `truncateText`: text longer than the budget is cut to the budget and
   * marked with an ellipsis; `substring` treats a negative budget as zero.
   */
  function TruncateText(text: string, maxLength: int): (r: string)
    ensures |text| <= maxLength ==> r == text
    ensures |text| > maxLength ==>
      var keep := if maxLength < 0 then 0 else maxLength;
      |r| == keep + 3 && r[..keep] == text[..keep] && r[keep..] == "..."
  {
    if |text| > maxLength then
      (if maxLength < 0 then "" else text[..maxLength]) + "..."
    else text
  }

  /**
   * `formatBytes`: zero bytes renders as "0 Bytes"; any other size uses the
   * floating-point rendering, which the caller supplies as `scaled`.
   */
  function FormatBytes(bytes: int, scaled: string): (r: string)
    ensures bytes == 0 ==> r == "0 Bytes"
    ensures bytes != 0 ==> r == scaled
  {
    if bytes == 0 then "0 Bytes" else scaled
  }
}
