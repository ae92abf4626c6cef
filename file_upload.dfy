/**
 * The drop zone (src/components/features/FileUpload.tsx): it keeps a list of
 * files, appends dropped files up to a maximum, and removes a file by its
 * position. The drop zone's own type and count filtering is not modelled:
 * the files handed to `OnDrop` are the ones it accepted.
 */
module FileUpload {
  import opened FileProcessing
  import opened Strings

  /** The accepted types when the parent passes none: each media type with its extensions. */
  const DefaultAccepted: seq<(string, seq<string>)> := [
    ("text/plain", [".txt"]),
    ("application/pdf", [".pdf"]),
    ("text/markdown", [".md"]),
    ("application/msword", [".doc"]),
    ("application/vnd.openxmlformats-officedocument.wordprocessingml.document", [".docx"])
  ]

  /** At most one file when the parent passes no maximum. */
  const DefaultMaxFiles := 1

  /** Every default accepted pair is one the text extraction supports. */
  lemma DefaultsSupported(i: nat, j: nat, stem: string)
    requires i < |DefaultAccepted| && j < |DefaultAccepted[i].1|
    ensures KindOf(DefaultAccepted[i].0, ToLower(stem + DefaultAccepted[i].1[j])) != Unsupported
  {
    var (t, exts) := DefaultAccepted[i];
    var name := ToLower(stem + exts[j]);
    assert i == 0 || i == 1 || i == 2 || i == 3 || i == 4;
  }

  /** JavaScript's clamp of a slice end: a negative end counts from the back. */
  function SliceEnd(end: int, len: nat): (r: nat)
    ensures r <= len
    ensures 0 <= end ==> r == if end < len then end else len
    ensures end < 0 ==> r == if len + end > 0 then len + end else 0
  {
    if end < 0 then (if len + end > 0 then len + end else 0)
    else if end < len then end else len
  }

  /** `[...files, ...accepted].slice(0, maxFiles)`. */
  function Dropped(files: seq<File>, accepted: seq<File>, maxFiles: int): seq<File> {
    var all := files + accepted;
    all[..SliceEnd(maxFiles, |all|)]
  }

  /** A drop keeps the files already there first, then the dropped ones, cut to the maximum. */
  lemma DroppedBounds(files: seq<File>, accepted: seq<File>, maxFiles: int)
    ensures var r := Dropped(files, accepted, maxFiles);
      (0 <= maxFiles ==> |r| <= maxFiles) &&
      (0 <= maxFiles && |files| + |accepted| <= maxFiles ==> r == files + accepted) &&
      (|files| <= |r| ==> r[..|files|] == files)
  {
  }

  /** With one file allowed and one file present, a drop changes nothing: the first file stays. */
  lemma DropKeepsFirst(files: seq<File>, accepted: seq<File>)
    requires |files| == 1
    ensures Dropped(files, accepted, DefaultMaxFiles) == files
  {
    var all := files + accepted;
    assert all[..1] == files;
  }

  /** JavaScript's clamp of a `splice` start: a negative start counts from the back. */
  function SpliceStart(start: int, len: nat): (r: nat)
    ensures r <= len
  {
    if start < 0 then (if len + start > 0 then len + start else 0)
    else if start < len then start else len
  }

  /** `newFiles.splice(index, 1)` on a copy: the file at the clamped position removed, if there is one. */
  function Removed(files: seq<File>, index: int): seq<File> {
    var k := SpliceStart(index, |files|);
    if k < |files| then files[..k] + files[k + 1..] else files
  }

  /** Removal drops exactly the file at an in-range position, and `-1` drops the last. */
  lemma RemovedAt(files: seq<File>, index: int)
    ensures 0 <= index < |files| ==>
              (|Removed(files, index)| == |files| - 1 &&
               forall j | 0 <= j < |files| - 1 :: Removed(files, index)[j] == if j < index then files[j] else files[j + 1])
    ensures index >= |files| ==> Removed(files, index) == files
    ensures files != [] ==> Removed(files, -1) == files[..|files| - 1]
  {
  }

  /** The drop zone's state: the files kept. */
  class Zone {
    var files: seq<File>
    const maxFiles: int

    constructor (maxFiles: int)
      ensures files == [] && this.maxFiles == maxFiles
    {
      files := [];
      this.maxFiles := maxFiles;
    }

    /** `onDrop`: the new list is kept and handed to the parent. */
    method OnDrop(accepted: seq<File>) returns (selected: seq<File>)
      modifies this
      ensures files == Dropped(old(files), accepted, maxFiles) && selected == files
    {
      var all := files + accepted;
      files := all[..SliceEnd(maxFiles, |all|)];
      selected := files;
    }

    /** `removeFile`: the copy is shifted left over the removed position and shortened by one. */
    method RemoveFile(index: int) returns (selected: seq<File>)
      modifies this`files
      ensures files == Removed(old(files), index) && selected == files
    {
      var n := |files|;
      var k := SpliceStart(index, n);
      if k < n {
        files := Spliced(files, k);
      }
      selected := files;
    }
  }

  /** The copy of the list with the file at position `k` spliced out. */
  method Spliced(fs: seq<File>, k: nat) returns (r: seq<File>)
    requires k < |fs|
    ensures r == fs[..k] + fs[k + 1..]
  {
    var copy := new File[|fs|](i requires 0 <= i < |fs| => fs[i]);
    assert copy[..] == fs;
    ShiftLeft(copy, k);
    r := copy[..|fs| - 1];
  }

  /** The splice on an array: every element after position `k` moves one place to the left. */
  method ShiftLeft(a: array<File>, k: nat)
    requires k < a.Length
    modifies a
    ensures a[..a.Length - 1] == old(a[..k]) + old(a[k + 1..])
  {
    ghost var b := a[..];
    var n := a.Length;
    var j := k;
    while j < n - 1
      invariant k <= j <= n - 1
      invariant forall i | 0 <= i < k :: a[i] == b[i]
      invariant forall i | k <= i < j :: a[i] == b[i + 1]
      invariant forall i | j <= i < n :: a[i] == b[i]
    {
      a[j] := a[j + 1];
      j := j + 1;
    }
    ghost var r := b[..k] + b[k + 1..];
    assert forall i | 0 <= i < n - 1 :: a[..n - 1][i] == r[i];
  }
}
