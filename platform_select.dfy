/**
 * The platform picker (src/components/features/PlatformSelect.tsx): a
 * button per registered platform toggles it in the selection, in
 * multi-select mode or in single-select mode. The deferred notification of
 * the parent is left out; the parent receives the new selection.
 */
module PlatformSelect {
  import opened Utils
  import Seqs

  /** The filter that drops one id. */
  function Other(id: string): string -> bool {
    y => y != id
  }

  /**
   * `togglePlatform`: in single-select mode an unselected platform becomes
   * the whole selection; otherwise a selected platform is removed and an
   * unselected one appended.
   */
  function Toggle(prev: seq<string>, id: string, multiSelect: bool): seq<string> {
    if !multiSelect && id !in prev then [id]
    else if id in prev then Seqs.Filter(prev, Other(id))
    else prev + [id]
  }

  /** The initial-selection effect: a non-empty initial selection replaces the current one. */
  function SyncInitial(selected: seq<string>, initial: seq<string>): (r: seq<string>)
    ensures r == if |initial| > 0 then initial else selected
  {
    if |initial| > 0 then initial else selected
  }

  /** A toggle flips the clicked platform and, in multi-select mode, keeps every other selected platform. */
  lemma ToggleMembership(prev: seq<string>, id: string, multiSelect: bool)
    ensures id in Toggle(prev, id, multiSelect) <==> id !in prev
    ensures multiSelect || id in prev ==>
              forall y | y != id :: y in Toggle(prev, id, multiSelect) <==> y in prev
    ensures !multiSelect && id !in prev ==> Toggle(prev, id, multiSelect) == [id]
  {
    var r := Toggle(prev, id, multiSelect);
    if id in prev {
      forall y | y != id && y in prev ensures y in r {
        var i :| 0 <= i < |prev| && prev[i] == y;
        assert Other(id)(prev[i]);
      }
    }
  }

  /** The other platforms keep their order: dropping the clicked id from before and after gives the same list. */
  lemma ToggleKeepsOthers(prev: seq<string>, id: string, multiSelect: bool)
    requires multiSelect || id in prev
    ensures Seqs.Filter(Toggle(prev, id, multiSelect), Other(id)) == Seqs.Filter(prev, Other(id))
  {
    var f := Other(id);
    var kept := Seqs.Filter(prev, f);
    if id in prev {
      forall x | x in kept ensures f(x) {
        var i :| 0 <= i < |kept| && kept[i] == x;
      }
      Seqs.FilterAll(kept, f);
    } else {
      Seqs.FilterConcat(prev, [id], f);
      assert Seqs.Filter([id], f) == [];
    }
  }

  /** In multi-select mode two clicks on an unselected platform restore the selection. */
  lemma ToggleTwice(prev: seq<string>, id: string)
    requires id !in prev
    ensures Toggle(Toggle(prev, id, true), id, true) == prev
  {
    var f := Other(id);
    Seqs.FilterConcat(prev, [id], f);
    assert Seqs.Filter([id], f) == [];
    Seqs.FilterAll(prev, f);
  }

  /** A toggle never duplicates a platform. */
  lemma ToggleNoDup(prev: seq<string>, id: string, multiSelect: bool)
    requires Seqs.NoDup(prev)
    ensures Seqs.NoDup(Toggle(prev, id, multiSelect))
  {
    if id in prev {
      FilterNoDup(prev, Other(id));
    }
  }

  /** In single-select mode the selection stays at most one platform. */
  lemma SingleStaysSingle(prev: seq<string>, id: string)
    requires |prev| <= 1
    ensures |Toggle(prev, id, false)| <= 1
  {
  }

  lemma {:induction false} FilterNoDup(s: seq<string>, f: string -> bool)
    requires Seqs.NoDup(s)
    ensures Seqs.NoDup(Seqs.Filter(s, f))
    decreases |s|
  {
    if s != [] {
      FilterNoDup(s[1..], f);
      var t := Seqs.Filter(s[1..], f);
      assert s[0] !in s[1..];
      assert s[0] !in t;
    }
  }

  /** `getPlatformIcon`. */
  function Icon(id: string): string {
    match id
    case "twitter" => "𝕏"
    case "xiaohongshu" => "📕"
    case "zhihu" => "📘"
    case "weibo" => "🔖"
    case _ => ""
  }

  /** Exactly the registered platforms have an icon. */
  lemma IconIffRegistered(id: string)
    ensures Icon(id) != "" <==> id in KnownIds
  {
  }
}
