/** The PDF merge page: the ordered list of chosen PDF files, reordering and removal, and the
    merge request. */
module PdfMerge {
  import opened Wrappers
  import opened Lists
  import opened Types
  import opened Language

  const PdfMime := "application/pdf"

  predicate IsPdf(f: File)
  {
    f.mime == PdfMime
  }

  /** The files of a selection whose type is `application/pdf`, in their original order, each
      as many times as it was selected; the selection is kept whole exactly when it is all PDFs. */
  function PdfOnly(selected: seq<File>): (r: seq<File>)
    ensures forall i :: 0 <= i < |r| ==> IsPdf(r[i])
    ensures forall i :: 0 <= i < |selected| && IsPdf(selected[i]) ==> selected[i] in r
    ensures IsSubsequence(r, selected)
    ensures forall f :: f in selected ==> multiset(r)[f] == if IsPdf(f) then multiset(selected)[f] else 0
    ensures |r| == |selected| <==> forall i :: 0 <= i < |selected| ==> IsPdf(selected[i])
  {
    FilterIsSubsequence(selected, IsPdf);
    FilterCounts(selected, IsPdf);
    FilterKeepsAll(selected, IsPdf);
    Filter(selected, IsPdf)
  }

  /** `s.filter((_, i) => i !== index)`: every element except the one at `index`, if any. */
  function RemoveAt<T>(s: seq<T>, index: int): (r: seq<T>)
    ensures 0 <= index < |s| ==> r == s[..index] + s[index + 1..]
    ensures !(0 <= index < |s|) ==> r == s
  {
    if s == [] then []
    else
      var rest := RemoveAt(s[1..], index - 1);
      if index == 0 then rest else [s[0]] + rest
  }

  /** Removal deletes one position: one element fewer, the rest in their relative order. */
  lemma RemoveAtShape<T>(s: seq<T>, index: nat)
    requires index < |s|
    ensures |RemoveAt(s, index)| == |s| - 1
    ensures forall i :: 0 <= i < index ==> RemoveAt(s, index)[i] == s[i]
    ensures forall i :: index <= i < |s| - 1 ==> RemoveAt(s, index)[i] == s[i + 1]
  {
  }

  datatype Direction = Up | Down

  /** `s` with positions `i` and `j` exchanged. */
  function Swap<T>(s: seq<T>, i: nat, j: nat): (r: seq<T>)
    requires i < |s| && j < |s|
    ensures |r| == |s| && r[i] == s[j] && r[j] == s[i]
    ensures forall k :: 0 <= k < |s| && k != i && k != j ==> r[k] == s[k]
  {
    s[i := s[j]][j := s[i]]
  }

  lemma SwapPermutes<T>(s: seq<T>, i: nat, j: nat)
    requires i < |s| && j < |s|
    ensures multiset(Swap(s, i, j)) == multiset(s)
  {
    var t := s[i := s[j]];
    assert multiset(t) == multiset(s) - multiset{s[i]} + multiset{s[j]};
    assert multiset(t[j := s[i]]) == multiset(t) - multiset{t[j]} + multiset{s[i]};
  }

  /** Whether `moveFile(index, dir)` returns early: up from the top, or down from the bottom. */
  predicate MoveIsNoOp(n: nat, index: nat, dir: Direction)
  {
    (dir == Up && index == 0) || (dir == Down && index == n - 1)
  }

  /** The list `moveFile(index, dir)` leaves: unchanged for an edge move, otherwise the file
      exchanged with its neighbour in the chosen direction. */
  function Moved(s: seq<File>, index: nat, dir: Direction): (r: seq<File>)
    requires index < |s|
    ensures multiset(r) == multiset(s)
    ensures MoveIsNoOp(|s|, index, dir) ==> r == s
  {
    if MoveIsNoOp(|s|, index, dir) then s
    else
      var target := if dir == Up then index - 1 else index + 1;
      SwapPermutes(s, index, target);
      Swap(s, index, target)
  }

  /** Moving a file up and then moving it back down restores the list. */
  lemma UpThenDown(s: seq<File>, index: nat)
    requires 0 < index < |s|
    ensures Moved(Moved(s, index, Up), index - 1, Down) == s
  {
    var once := Moved(s, index, Up);
    assert once == Swap(s, index, index - 1);
    assert Moved(once, index - 1, Down) == Swap(once, index - 1, index);
  }

  class PdfMergePage {
    var files: seq<File>
    var state: ProcessingState
    var mergedUrl: Option<string>

    /** Every listed file is a PDF. */
    ghost predicate Valid()
      reads this
    {
      forall i :: 0 <= i < |files| ==> IsPdf(files[i])
    }

    constructor ()
      ensures files == [] && state == IdleState && mergedUrl == None && Valid()
    {
      files := [];
      state := IdleState;
      mergedUrl := None;
    }

    /** `handleFilesChange` with a non-empty selection: its PDFs are appended after the listed
        files, the merged result is discarded and the status returns to idle. `skipped` reports
        whether the "some files were not PDFs" alert is raised. An empty selection changes
        nothing. */
    method FilesChange(selected: seq<File>) returns (skipped: bool)
      requires Valid()
      modifies this
      ensures Valid()
      ensures selected == [] ==> files == old(files) && state == old(state) && mergedUrl == old(mergedUrl) && !skipped
      ensures selected != [] ==>
        && files == old(files) + PdfOnly(selected)
        && mergedUrl == None && state == IdleState
        && (skipped <==> exists i :: 0 <= i < |selected| && !IsPdf(selected[i]))
    {
      skipped := false;
      if |selected| > 0 {
        var newFiles := PdfOnly(selected);
        skipped := |newFiles| != |selected|;
        files := files + newFiles;
        mergedUrl := None;
        state := IdleState;
      }
    }

    /** `removeFile(index)`: the file at `index` leaves the list and the merged result is
        discarded; the status is left alone. */
    method RemoveFile(index: int)
      requires Valid()
      modifies this`files, this`mergedUrl
      ensures Valid()
      ensures files == RemoveAt(old(files), index) && mergedUrl == None
    {
      files := RemoveAt(files, index);
      mergedUrl := None;
    }

    /** `moveFile(index, dir)`: the list is copied into a fresh array, two entries are exchanged
        in place and the copy becomes the list; the merged result is discarded. The edge moves
        return before touching anything. */
    method MoveFile(index: nat, dir: Direction)
      requires Valid() && index < |files|
      modifies this`files, this`mergedUrl
      ensures Valid()
      ensures files == Moved(old(files), index, dir)
      ensures MoveIsNoOp(|old(files)|, index, dir) ==> mergedUrl == old(mergedUrl)
      ensures !MoveIsNoOp(|old(files)|, index, dir) ==> mergedUrl == None
    {
      if dir == Up && index == 0 {
        return;
      }
      if dir == Down && index == |files| - 1 {
        return;
      }
      var current := files;
      var copy := new File[|current|](i requires 0 <= i < |current| => current[i]);
      var target := if dir == Up then index - 1 else index + 1;
      copy[index], copy[target] := copy[target], copy[index];
      assert copy[..] == Swap(current, index, target);
      files := copy[..];
      mergedUrl := None;
    }

    /** The merge button is disabled with fewer than two files and while a merge runs. */
    function MergeEnabled(): bool
      reads this
    {
      |files| >= 2 && state.status != Processing
    }

    /** `handleMerge`: with fewer than two files it only alerts (`refused`) and changes nothing.
        Otherwise `outcome` is what the merge library produced: a URL for the merged document,
        or the message of the error it threw. */
    method HandleMerge(dict: map<string, string>, outcome: Result<string, string>) returns (refused: bool)
      modifies this`state, this`mergedUrl
      ensures refused <==> |files| < 2
      ensures old(MergeEnabled()) ==> !refused
      ensures !refused ==> MergeEnabled()
      ensures refused ==> state == old(state) && mergedUrl == old(mergedUrl)
      ensures !refused && outcome.Success? ==>
        mergedUrl == Some(outcome.value) && state == ProcessingState(Status.Success, Some(T(dict, "action.success")))
      ensures !refused && outcome.Failure? ==>
        mergedUrl == old(mergedUrl) && state == ProcessingState(Status.Error, Some(outcome.error))
    {
      if |files| < 2 {
        return true;
      }
      state := ProcessingState(Processing, Some(T(dict, "action.processing")));
      match outcome {
        case Success(url) =>
          mergedUrl := Some(url);
          state := ProcessingState(Status.Success, Some(T(dict, "action.success")));
        case Failure(message) =>
          state := ProcessingState(Status.Error, Some(message));
      }
      return false;
    }
  }
}
