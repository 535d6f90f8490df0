/**
 * The attachment list of the popup: admission of picked or dropped files
 * against the per-file and the running 10 MiB caps, de-duplication of loaded
 * files by name and content, removal by index, and clearing.
 *
 * Reading a file is a parameter: `HandleFiles` decides which files are read,
 * and `OnFileLoaded` is the reader's completion with the file's data URL.
 * Sizes are compared in quarter bytes, so that the 3/4 estimate of a base64
 * text's decoded size (section 4 of RFC 4648) stays an integer.
 *
 * JavaScript arrays are objects: the handler's `attachments` and the global
 * `window.attachments` that the sender reads are two references, which
 * initialisation makes point to the same array.
 */
module FileHandler {
  import opened Common

  /** `maxSize`: 10 MiB, both per file and for the whole list. */
  const MaxSize: nat := 10 * 1024 * 1024

  /** A loaded attachment; `data` is the file's data URL. */
  datatype Attachment = Attachment(name: string, mimeType: string, data: string)

  /** A picked or dropped file before it is read. */
  datatype PickedFile = PickedFile(name: string, mimeType: string, size: nat)

  /** A JavaScript array of attachments: every reference to it sees its pushes. */
  class AttachmentArray {
    var items: seq<Attachment>

    constructor (initial: seq<Attachment>)
      ensures items == initial
    {
      items := initial;
    }
  }

  // ---------------------------------------------------------------------------
  // Admission
  // ---------------------------------------------------------------------------

  /** The summed length of the attachments' data URLs. */
  function DataLength(list: seq<Attachment>): nat
  {
    if list == [] then 0 else DataLength(list[..|list| - 1]) + |list[|list| - 1].data|
  }

  /** Four times the `currentTotalSize` a batch starts from: the sum of
      `data.length * 3 / 4` over the attachments, in quarter bytes. */
  function StartTotal(list: seq<Attachment>): nat
  {
    3 * DataLength(list)
  }

  /** What happens to one file of a batch. */
  datatype Verdict = TooLarge | OverTotal | Admitted

  /** The checks on one file, given the running total in quarter bytes. */
  function Judge(total: nat, file: PickedFile): (v: Verdict)
    ensures v == TooLarge <==> file.size > MaxSize
    ensures v == Admitted <==> file.size <= MaxSize && total + 4 * file.size <= 4 * MaxSize
  {
    if file.size > MaxSize then TooLarge
    else if total + 4 * file.size > 4 * MaxSize then OverTotal
    else Admitted
  }

  /** The running total, in quarter bytes, after the files of a batch were judged. */
  function TotalAfter(start: nat, files: seq<PickedFile>): nat
  {
    if files == [] then start
    else
      var t := TotalAfter(start, files[..|files| - 1]);
      var last := files[|files| - 1];
      if Judge(t, last) == Admitted then t + 4 * last.size else t
  }

  /** The verdict on each file of a batch, in order. */
  function Verdicts(start: nat, files: seq<PickedFile>): seq<Verdict>
  {
    if files == [] then []
    else
      var pre := files[..|files| - 1];
      Verdicts(start, pre) + [Judge(TotalAfter(start, pre), files[|files| - 1])]
  }

  /** The files that passed, in order: those that are read. */
  function AdmittedFiles(files: seq<PickedFile>, verdicts: seq<Verdict>): seq<PickedFile>
    requires |verdicts| == |files|
  {
    if files == [] then []
    else
      var n := |files| - 1;
      AdmittedFiles(files[..n], verdicts[..n]) + (if verdicts[n] == Admitted then [files[n]] else [])
  }

  /** The summed size of the admitted files. */
  function AdmittedSize(files: seq<PickedFile>, verdicts: seq<Verdict>): nat
    requires |verdicts| == |files|
  {
    if files == [] then 0
    else
      var n := |files| - 1;
      AdmittedSize(files[..n], verdicts[..n]) + (if verdicts[n] == Admitted then files[n].size else 0)
  }

  /** Judging one more file extends the verdicts, the running total and the
      admitted files by that file's outcome. */
  lemma BatchStep(start: nat, files: seq<PickedFile>, i: nat)
    requires i < |files|
    ensures var v := Judge(TotalAfter(start, files[..i]), files[i]);
      && Verdicts(start, files[..i + 1]) == Verdicts(start, files[..i]) + [v]
      && TotalAfter(start, files[..i + 1]) == TotalAfter(start, files[..i]) + (if v == Admitted then 4 * files[i].size else 0)
      && |Verdicts(start, files[..i])| == i
      && AdmittedFiles(files[..i + 1], Verdicts(start, files[..i]) + [v])
         == AdmittedFiles(files[..i], Verdicts(start, files[..i])) + (if v == Admitted then [files[i]] else [])
  {
    assert files[..i + 1][..i] == files[..i];
    AdmissionSpec(start, files[..i]);
    var v := Judge(TotalAfter(start, files[..i]), files[i]);
    assert (Verdicts(start, files[..i]) + [v])[..i] == Verdicts(start, files[..i]);
  }

  /** The error shown for a rejected file. */
  function RejectionMessage(file: PickedFile, v: Verdict): Option<string>
  {
    match v
    case TooLarge => Some("File " + file.name + " exceeds 10MB limit.")
    case OverTotal => Some("Adding " + file.name + " would exceed total 10MB limit.")
    case Admitted => None
  }

  /** One verdict per file; a file over the cap is rejected on its own; each
      admitted file adds its size to the running total; and the admitted files
      never take the total over the cap, unless the batch admitted nothing. */
  lemma {:induction false} AdmissionSpec(start: nat, files: seq<PickedFile>)
    ensures |Verdicts(start, files)| == |files|
    ensures forall i :: 0 <= i < |files| && files[i].size > MaxSize ==> Verdicts(start, files)[i] == TooLarge
    ensures TotalAfter(start, files) == start + 4 * AdmittedSize(files, Verdicts(start, files))
    ensures TotalAfter(start, files) <= 4 * MaxSize || TotalAfter(start, files) == start
  {
    if files != [] {
      var pre := files[..|files| - 1];
      AdmissionSpec(start, pre);
      var vs := Verdicts(start, files);
      assert vs[..|files| - 1] == Verdicts(start, pre);
      assert files[..|files| - 1] == pre;
      forall i | 0 <= i < |files| && files[i].size > MaxSize ensures vs[i] == TooLarge {
        if i < |pre| {
          assert files[i] == pre[i];
        }
      }
    }
  }

  /** The verdict on a file is the checks applied to the total left by the files before it. */
  lemma {:induction false} VerdictAt(start: nat, files: seq<PickedFile>, i: nat)
    requires i < |files|
    ensures |Verdicts(start, files)| == |files|
    ensures Verdicts(start, files)[i] == Judge(TotalAfter(start, files[..i]), files[i])
  {
    AdmissionSpec(start, files);
    var n := |files| - 1;
    if i < n {
      VerdictAt(start, files[..n], i);
      assert files[..n][..i] == files[..i];
    } else {
      assert files[..n] == files[..i];
    }
  }

  /** A file of exactly the cap is admitted into an empty list; a file one byte
      over it is not, whatever the list holds. */
  lemma CapBoundary(list: seq<Attachment>, name: string, mimeType: string)
    ensures StartTotal([]) == 0 && Judge(StartTotal([]), PickedFile(name, mimeType, MaxSize)) == Admitted
    ensures Judge(StartTotal(list), PickedFile(name, mimeType, MaxSize + 1)) == TooLarge
  {
  }

  // ---------------------------------------------------------------------------
  // The list
  // ---------------------------------------------------------------------------

  /** `attachments.some(att => att.name === name && att.data === data)` */
  predicate HasCopy(list: seq<Attachment>, name: string, data: string)
  {
    exists i :: 0 <= i < |list| && list[i].name == name && list[i].data == data
  }

  /** No two attachments have the same name and the same content. */
  predicate NoCopies(list: seq<Attachment>)
  {
    forall i, j :: 0 <= i < j < |list| ==> !(list[i].name == list[j].name && list[i].data == list[j].data)
  }

  class AttachmentList {
    /** `this.attachments` */
    var attachments: AttachmentArray
    /** `window.attachments`, which the sender and the session storage read */
    var windowAttachments: AttachmentArray

    /** The list and the global refer to one array. */
    predicate Shared()
      reads this
    {
      windowAttachments == attachments
    }

    ghost predicate Valid()
      reads this, attachments
    {
      NoCopies(attachments.items)
    }

    /** The module's initial empty list, after `init` published it as `window.attachments`. */
    constructor ()
      ensures Valid() && Shared() && attachments.items == []
    {
      var a := new AttachmentArray([]);
      attachments := a;
      windowAttachments := a;
    }

    /** The synchronous part of `handleFiles(files)`: the checks that decide
        which files are read. The list itself is not changed here. */
    method HandleFiles(files: seq<PickedFile>) returns (verdicts: seq<Verdict>, toRead: seq<PickedFile>)
      ensures verdicts == Verdicts(StartTotal(attachments.items), files)
      ensures |verdicts| == |files|
      ensures toRead == AdmittedFiles(files, verdicts)
    {
      ghost var start := StartTotal(attachments.items);
      var currentTotalSize := 3 * DataLength(attachments.items);
      verdicts, toRead := [], [];
      var i := 0;
      while i < |files|
        invariant 0 <= i <= |files|
        invariant currentTotalSize == TotalAfter(start, files[..i])
        invariant verdicts == Verdicts(start, files[..i]) && |verdicts| == i
        invariant toRead == AdmittedFiles(files[..i], verdicts)
      {
        var file := files[i];
        BatchStep(start, files, i);
        var v;
        if file.size > MaxSize {
          v := TooLarge;
        } else if currentTotalSize + 4 * file.size > 4 * MaxSize {
          v := OverTotal;
        } else {
          v := Admitted;
          currentTotalSize := currentTotalSize + 4 * file.size;
          toRead := toRead + [file];
        }
        assert v == Judge(TotalAfter(start, files[..i]), file);
        verdicts := verdicts + [v];
        i := i + 1;
      }
      assert files[..i] == files;
    }

    /** `reader.onload` for an admitted file: the loaded file is appended unless
        one with the same name and content is already listed. */
    method OnFileLoaded(file: PickedFile, data: string) returns (added: bool)
      requires Valid()
      modifies attachments
      ensures Valid()
      ensures added <==> !HasCopy(old(attachments.items), file.name, data)
      ensures attachments.items ==
        if added then old(attachments.items) + [Attachment(file.name, file.mimeType, data)] else old(attachments.items)
    {
      var attachment := Attachment(file.name, file.mimeType, data);
      added := !HasCopy(attachments.items, file.name, attachment.data);
      if added {
        attachments.items := attachments.items + [attachment];
      }
    }

    /** The remove button of the entry at `index`; `index` is `parseInt` of the
        button's data attribute, None for NaN. */
    method RemoveAt(index: Option<int>)
      requires Valid()
      modifies attachments
      ensures Valid()
      ensures index.Some? && 0 <= index.value < |old(attachments.items)| ==>
        attachments.items == old(attachments.items)[..index.value] + old(attachments.items)[index.value + 1..]
      ensures !(index.Some? && 0 <= index.value < |old(attachments.items)|) ==> attachments.items == old(attachments.items)
    {
      if index.Some? && index.value >= 0 && index.value < |attachments.items| {
        var i := index.value;
        RemovalKeepsNoCopies(attachments.items, i);
        attachments.items := attachments.items[..i] + attachments.items[i + 1..];
      }
    }

    /** `clearAttachments()`: the handler and the global each get a new, empty
        array, and the two are no longer the same array. */
    method ClearAttachments()
      modifies this
      ensures fresh(attachments) && fresh(windowAttachments)
      ensures attachments.items == [] && windowAttachments.items == []
      ensures !Shared()
      ensures Valid()
    {
      attachments := new AttachmentArray([]);
      windowAttachments := new AttachmentArray([]);
    }

    /** `clearAttachments()` as intended: one new, empty array for both. */
    method ClearAttachmentsShared()
      modifies this
      ensures fresh(attachments) && Shared() && attachments.items == []
      ensures Valid()
    {
      var empty := new AttachmentArray([]);
      attachments := empty;
      windowAttachments := empty;
    }
  }

  /** Removing an entry keeps the other entries in order and keeps the list free
      of copies; adding a loaded file to a list free of copies keeps it so. */
  lemma RemovalKeepsNoCopies(list: seq<Attachment>, i: nat)
    requires NoCopies(list) && i < |list|
    ensures NoCopies(list[..i] + list[i + 1..])
    ensures |list[..i] + list[i + 1..]| == |list| - 1
    ensures forall k :: 0 <= k < i ==> (list[..i] + list[i + 1..])[k] == list[k]
    ensures forall k :: i < k < |list| ==> (list[..i] + list[i + 1..])[k - 1] == list[k]
  {
    var r := list[..i] + list[i + 1..];
    forall k, l | 0 <= k < l < |r| ensures !(r[k].name == r[l].name && r[k].data == r[l].data) {
      var k' := if k < i then k else k + 1;
      var l' := if l < i then l else l + 1;
      assert r[k] == list[k'] && r[l] == list[l'] && k' < l';
    }
  }

  /** The attachments that reach the sender, as written: after the list is
      cleared, a file that is loaded is listed but `window.attachments` stays empty. */
  method ClearThenLoad(file: PickedFile, data: string) returns (listed: seq<Attachment>, sent: seq<Attachment>)
    ensures listed == [Attachment(file.name, file.mimeType, data)]
    ensures sent == []
  {
    var handler := new AttachmentList();
    handler.ClearAttachments();
    var _ := handler.OnFileLoaded(file, data);
    listed, sent := handler.attachments.items, handler.windowAttachments.items;
  }

  /** The same steps with the intended clear: the sender sees the loaded file. */
  method ClearSharedThenLoad(file: PickedFile, data: string) returns (listed: seq<Attachment>, sent: seq<Attachment>)
    ensures listed == [Attachment(file.name, file.mimeType, data)]
    ensures sent == listed
  {
    var handler := new AttachmentList();
    handler.ClearAttachmentsShared();
    var _ := handler.OnFileLoaded(file, data);
    listed, sent := handler.attachments.items, handler.windowAttachments.items;
  }
}
