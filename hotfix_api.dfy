/** hotfix_api.py: `apply_hotfix` cuts the `set_openai_key` method out of the API source
    by marker search and splices a replacement method in its place, after saving the
    original as a backup.

    The replacement text is a parameter (`fixed`); the files are a map from path to text.
    The splice is stated for any pair of markers; `apply_hotfix` uses `HotfixMarkers`. */
module HotfixApi {
  import opened Text

  const ApiFile := "/root/laika-dynamics-rag/api/main.py"
  const BackupFile := ApiFile + ".backup"

  /** The text that starts the method and the text of its last line. */
  datatype Markers = Markers(start: string, end: string)

  const HotfixMarkers := Markers("    def set_openai_key(self, api_key: str):", "            return False")

  predicate NoNewline(s: string) {
    forall k :: 0 <= k < |s| ==> s[k] != '\n'
  }

  lemma HotfixMarkersHaveNoNewline()
    ensures NoNewline(HotfixMarkers.start) && NoNewline(HotfixMarkers.end)
  {
  }

  /** `start_idx`: the first occurrence of the start marker, or -1. */
  function StartIdx(content: string, m: Markers): int {
    Find(content, m.start, 0)
  }

  /** `end_idx` as found: the first end marker at or after `start_idx`, or -1. */
  function EndIdx(content: string, m: Markers): int
    requires StartIdx(content, m) >= 0
  {
    Find(content, m.end, StartIdx(content, m))
  }

  /** Both markers were found. */
  predicate Found(content: string, m: Markers) {
    StartIdx(content, m) >= 0 && EndIdx(content, m) >= 0
  }

  /** The cut as written: one past the first newline at or after the end marker, or 0 when
      no newline follows (`find` gives -1). */
  function CutAsWritten(content: string, m: Markers): (cut: nat)
    requires Found(content, m)
    ensures cut <= |content|
  {
    Find(content, "\n", EndIdx(content, m)) + 1
  }

  /** What the splice yields: the new source, or the marker that was not found. */
  datatype Spliced = NoStartMarker | NoEndMarker | Patched(content: string)

  /** The splice of `apply_hotfix`, as written. */
  function SpliceAsWritten(content: string, m: Markers, fixed: string): (r: Spliced)
    ensures r.Patched? <==> Found(content, m)
    ensures r.Patched? ==>
              StartsWith(r.content, content[..StartIdx(content, m)]) &&
              OccursAt(r.content, fixed, StartIdx(content, m)) &&
              |r.content| == StartIdx(content, m) + |fixed| + |content| - CutAsWritten(content, m)
  {
    if StartIdx(content, m) == -1 then NoStartMarker
    else if EndIdx(content, m) == -1 then NoEndMarker
    else Patched(content[..StartIdx(content, m)] + fixed + content[CutAsWritten(content, m)..])
  }

  /** The splice gives up exactly when the start marker is absent, or when no end marker
      occurs at or after it. */
  lemma SpliceNeedsMarkers(content: string, m: Markers, fixed: string)
    ensures SpliceAsWritten(content, m, fixed) == NoStartMarker <==> !Contains(content, m.start)
    ensures SpliceAsWritten(content, m, fixed) == NoEndMarker <==>
              Contains(content, m.start) &&
              forall j: nat :: StartIdx(content, m) <= j ==> !OccursAt(content, m.end, j)
  {
    if Contains(content, m.start) {
      var i: nat :| i <= |content| && OccursAt(content, m.start, i);
      assert StartIdx(content, m) != -1;
    }
  }

  /** When both markers are found, the end marker lies at or after the start marker, and
      both are their first occurrences. */
  lemma MarkersInOrder(content: string, m: Markers)
    requires Found(content, m)
    ensures StartIdx(content, m) <= EndIdx(content, m)
    ensures OccursAt(content, m.start, StartIdx(content, m)) && OccursAt(content, m.end, EndIdx(content, m))
    ensures forall j: nat :: j < StartIdx(content, m) ==> !OccursAt(content, m.start, j)
    ensures forall j: nat :: StartIdx(content, m) <= j < EndIdx(content, m) ==> !OccursAt(content, m.end, j)
  {
  }

  /** With a newline after the end marker, the text before the start marker and after that
      newline is kept, and the method text between them is replaced. */
  lemma SpliceWithNewline(content: string, m: Markers, fixed: string)
    requires Found(content, m)
    requires Find(content, "\n", EndIdx(content, m)) != -1
    ensures var s, cut := StartIdx(content, m), CutAsWritten(content, m);
            var r := SpliceAsWritten(content, m, fixed).content;
            cut > 0 && content[cut - 1] == '\n' &&
            (forall k :: EndIdx(content, m) <= k < cut - 1 ==> content[k] != '\n') &&
            r == content[..s] + fixed + content[cut..] &&
            StartsWith(r, content[..s]) && EndsWith(r, content[cut..])
  {
    var s, cut := StartIdx(content, m), CutAsWritten(content, m);
    var r := SpliceAsWritten(content, m, fixed).content;
    FindChar(content, '\n', EndIdx(content, m));
    assert r[..s] == content[..s];
    assert r[|r| - |content[cut..]|..] == content[cut..];
  }

  /** When no newline follows the end marker, `find` returns -1, the cut is 0 and the whole
      original text, old method included, is appended after the new method. */
  lemma SpliceWithoutNewlineDuplicates(content: string, m: Markers, fixed: string)
    requires Found(content, m)
    requires Find(content, "\n", EndIdx(content, m)) == -1
    ensures var s := StartIdx(content, m);
            var r := SpliceAsWritten(content, m, fixed).content;
            r == content[..s] + fixed + content &&
            |r| == s + |fixed| + |content| &&
            OccursAt(r, m.start, s + |fixed| + s)
  {
    var s := StartIdx(content, m);
    var r := SpliceAsWritten(content, m, fixed).content;
    var head := content[..s] + fixed;
    assert content[0..] == content;
    assert r == head + content;
    assert r[|head|..] == content;
    OccursAtShift(r, m.start, s, |head|);
  }

  /** The evidently intended cut: one past the newline, or the end of the text when the end
      marker's line is the last one. */
  function Cut(content: string, m: Markers): (cut: nat)
    requires Found(content, m) && NoNewline(m.end)
    ensures EndIdx(content, m) + |m.end| <= cut <= |content|
    ensures cut == |content| || (EndIdx(content, m) < cut && content[cut - 1] == '\n')
    ensures forall k :: EndIdx(content, m) <= k < cut - 1 ==> content[k] != '\n'
  {
    var e := EndIdx(content, m);
    var n := Find(content, "\n", e);
    FindChar(content, '\n', e);
    if n == -1 then |content|
    else
      CharAfterOccurrence(content, m.end, e, '\n', n);
      n + 1
  }

  /** The corrected splice: the method from its start marker through the end of the end
      marker's line is replaced, and nothing after it is repeated. */
  function Splice(content: string, m: Markers, fixed: string): (r: Spliced)
    requires NoNewline(m.end)
    ensures r.Patched? <==> Found(content, m)
    ensures r.Patched? ==>
              var s, cut := StartIdx(content, m), Cut(content, m);
              s <= cut && r.content == content[..s] + fixed + content[cut..] &&
              |r.content| == |content| - (cut - s) + |fixed|
  {
    if StartIdx(content, m) == -1 then NoStartMarker
    else if EndIdx(content, m) == -1 then NoEndMarker
    else Patched(content[..StartIdx(content, m)] + fixed + content[Cut(content, m)..])
  }

  /** The text the corrected splice removes begins with the start marker and holds the end
      marker; by `Cut` it runs to the end of the end marker's line. */
  lemma SpliceRemovesMethod(content: string, m: Markers)
    requires Found(content, m) && NoNewline(m.start) && NoNewline(m.end)
    ensures var s, e, cut := StartIdx(content, m), EndIdx(content, m), Cut(content, m);
            StartsWith(content[s..cut], m.start) && OccursAt(content[s..cut], m.end, e - s)
  {
    var s, e, cut := StartIdx(content, m), EndIdx(content, m), Cut(content, m);
    MarkersInOrder(content, m);
    StartEndsBeforeCut(content, m);
    OccursInSlice(content, m.start, s, s, cut);
    OccursInSlice(content, m.end, e, s, cut);
    assert content[s..cut][..|m.start|] == content[s..cut][0..|m.start|];
  }

  /** A start marker without newlines lies wholly before the cut. */
  lemma StartEndsBeforeCut(content: string, m: Markers)
    requires Found(content, m) && NoNewline(m.start) && NoNewline(m.end)
    ensures StartIdx(content, m) + |m.start| <= Cut(content, m)
  {
    var s, cut := StartIdx(content, m), Cut(content, m);
    MarkersInOrder(content, m);
    if cut < |content| {
      CharAfterOccurrence(content, m.start, s, '\n', cut - 1);
    }
  }

  /** Where a newline follows the end marker, the program already does what was intended. */
  lemma SpliceAgreesWithNewline(content: string, m: Markers, fixed: string)
    requires NoNewline(m.end)
    requires Found(content, m) ==> Find(content, "\n", EndIdx(content, m)) != -1
    ensures Splice(content, m, fixed) == SpliceAsWritten(content, m, fixed)
  {
  }

  /** With no newline after the end marker, the corrected splice ends the text with the new
      method instead of repeating the original. */
  lemma SpliceWithoutNewline(content: string, m: Markers, fixed: string)
    requires Found(content, m) && NoNewline(m.end)
    requires Find(content, "\n", EndIdx(content, m)) == -1
    ensures Splice(content, m, fixed) == Patched(content[..StartIdx(content, m)] + fixed)
  {
    assert Cut(content, m) == |content|;
    assert content[|content|..] == [];
  }

  /** The outcome of `apply_hotfix`: whether it reported success, and the files after it. */
  datatype Run = Run(ok: bool, files: map<string, string>)

  /** `apply_hotfix`, as written, over the files it reads and writes. */
  function ApplyHotfix(files: map<string, string>, fixed: string): (r: Run)
    ensures r.ok <==> ApiFile in files && SpliceAsWritten(files[ApiFile], HotfixMarkers, fixed).Patched?
    ensures !r.ok ==> r.files == files
    ensures r.ok ==>
              r.files.Keys == files.Keys + {BackupFile} &&
              r.files[BackupFile] == files[ApiFile] &&
              r.files[ApiFile] == SpliceAsWritten(files[ApiFile], HotfixMarkers, fixed).content &&
              forall k :: k in files && k != ApiFile && k != BackupFile ==> r.files[k] == files[k]
  {
    if ApiFile !in files then Run(false, files)
    else
      var content := files[ApiFile];
      match SpliceAsWritten(content, HotfixMarkers, fixed)
      case Patched(newContent) => Run(true, files[BackupFile := content][ApiFile := newContent])
      case _ => Run(false, files)
  }
}
