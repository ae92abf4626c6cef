/**
 * The stand-alone generator panel (src/components/content/ContentGenerator.tsx):
 * it lists saved items, generates one item and saves it (two requests),
 * prepending it to the list, and deletes items by id. Each handler is a
 * function from the panel's state and the server's replies to the next
 * state.
 */
module ContentGenerator {
  import opened Wrappers
  import Seqs

  datatype Item = Item(id: string, title: string, content: string, platform: string, createdAt: string)

  datatype FormData = FormData(title: string, content: string, platform: string)

  datatype State = State(contents: seq<Item>, loading: bool, error: string, form: FormData, generating: bool)

  /** The form after a successful generate. */
  const EmptyForm := FormData("", "", "")

  /** The state before the first fetch. */
  const Initial := State([], true, "", EmptyForm, false)

  /** `fetchContents`: the server's list, or the error; loading ends either way. */
  function Fetched(s: State, reply: Reply<seq<Item>>): (r: State)
    ensures !r.loading && r.form == s.form && r.generating == s.generating
    ensures reply.Answered? ==> r.contents == reply.value && r.error == s.error
    ensures !reply.Answered? ==> r.contents == s.contents && r.error == ReplyError(reply, "获取内容失败", "获取内容失败")
  {
    match reply
    case Answered(items) => s.(contents := items, loading := false)
    case _ => s.(error := ReplyError(reply, "获取内容失败", "获取内容失败"), loading := false)
  }

  /**
   * `handleGenerate`: the generate request, then the save request; the
   * saved item goes first and the form is reset. The save request is only
   * made after a successful generate.
   */
  function Generated(s: State, generate: Reply<string>, save: Reply<Item>): (r: State)
    ensures !r.generating && r.loading == s.loading
    ensures generate.Answered? && save.Answered? ==>
              r.contents == [save.value] + s.contents && r.error == "" && r.form == EmptyForm
    ensures !generate.Answered? ==>
              r.contents == s.contents && r.form == s.form && r.error == ReplyError(generate, "生成内容失败", "生成内容失败")
    ensures generate.Answered? && !save.Answered? ==>
              r.contents == s.contents && r.form == s.form && r.error == ReplyError(save, "保存内容失败", "生成内容失败")
  {
    var started := s.(error := "", generating := true);
    var settled :=
      if !generate.Answered? then started.(error := ReplyError(generate, "生成内容失败", "生成内容失败"))
      else if !save.Answered? then started.(error := ReplyError(save, "保存内容失败", "生成内容失败"))
      else started.(contents := [save.value] + s.contents, form := EmptyForm);
    settled.(generating := false)
  }

  /** The filter that keeps the items with another id. */
  function OtherId(id: string): Item -> bool {
    (c: Item) => c.id != id
  }

  /** `handleDelete`: on the server's confirmation the items with that id are removed; a failure keeps the list. */
  function Deleted(s: State, id: string, reply: Reply<()>): (r: State)
    ensures reply.Answered? ==> r == s.(contents := Seqs.Filter(s.contents, OtherId(id)))
    ensures !reply.Answered? ==> r == s.(error := ReplyError(reply, "删除内容失败", "删除内容失败"))
  {
    match reply
    case Answered(_) => s.(contents := Seqs.Filter(s.contents, OtherId(id)))
    case _ => s.(error := ReplyError(reply, "删除内容失败", "删除内容失败"))
  }

  /** A confirmed delete removes every item with the id and keeps every other item, in order. */
  lemma DeleteRemovesOnlyId(s: State, id: string)
    ensures var r := Deleted(s, id, Answered(()));
      (forall i | 0 <= i < |r.contents| :: r.contents[i].id != id) &&
      (forall c | c in s.contents && c.id != id :: c in r.contents) &&
      Seqs.Filter(r.contents, OtherId(id)) == r.contents
  {
    var f := OtherId(id);
    var kept := Seqs.Filter(s.contents, f);
    forall i | 0 <= i < |kept| ensures kept[i].id != id {
      assert f(kept[i]);
    }
    forall c | c in s.contents && c.id != id ensures c in kept {
      var i :| 0 <= i < |s.contents| && s.contents[i] == c;
      assert f(s.contents[i]);
    }
    forall c | c in kept ensures f(c) {
      var i :| 0 <= i < |kept| && kept[i] == c;
    }
    Seqs.FilterAll(kept, f);
  }

  /** A generated item deleted again leaves the list as it was, when its id was new. */
  lemma GenerateThenDelete(s: State, text: string, saved: Item)
    requires forall c | c in s.contents :: c.id != saved.id
    ensures Deleted(Generated(s, Answered(text), Answered(saved)), saved.id, Answered(())).contents == s.contents
  {
    var f := OtherId(saved.id);
    Seqs.FilterConcat([saved], s.contents, f);
    assert Seqs.Filter([saved], f) == [];
    Seqs.FilterAll(s.contents, f);
  }
}
