/**
 * The "Key Moments" timeline of resolve_assistant/key_moments.py: every segment found in
 * the sidecar records becomes one cut of a flat edit plan, sorted by source file and start.
 */
module KeyMoments {
  import opened Wrappers
  import Text
  import PurePath

  /** One entry of a sidecar's `segments` list; either key may be missing. */
  datatype Segment = Segment(startSec: Option<real>, endSec: Option<real>)

  /** The keys of a loaded sidecar record that the edit plan reads; each may be missing. */
  datatype Sidecar = Sidecar(
    mediaType: Option<string>,
    filePath: Option<string>,
    filename: Option<string>,
    segments: Option<seq<Segment>>)

  /** One cut of the plan: a source range placed on a track. */
  datatype Cut = Cut(track: int, sourceFile: string, startSec: real, endSec: real)

  datatype EditPlan = EditPlan(timelineName: string, cuts: seq<Cut>)

  // ---------------------------------------------------------------------------
  // Reading a sidecar, with the defaults of `dict.get`
  // ---------------------------------------------------------------------------

  function MediaType(sc: Sidecar): string { sc.mediaType.GetOr("") }

  function FilePath(sc: Sidecar): string { sc.filePath.GetOr("") }

  function Segments(sc: Sidecar): seq<Segment> { sc.segments.GetOr([]) }

  function Start(seg: Segment): real { seg.startSec.GetOr(0.0) }

  function End(seg: Segment): real { seg.endSec.GetOr(0.0) }

  /** The media types the plan skips: `"audio"` itself and every `"audio/..."` type. */
  predicate IsAudioType(mediaType: string) {
    mediaType == "audio" || "audio/" <= mediaType
  }

  /** The name the clip filter is matched against: the file path's stem, else the `filename` key. */
  function StemOf(sc: Sidecar): string {
    if FilePath(sc) != "" then PurePath.Stem(PurePath.Name(FilePath(sc))) else sc.filename.GetOr("")
  }

  /** A filter is applied only when it is present and non-empty. */
  predicate Filtering(clipFilter: Option<seq<string>>) {
    clipFilter.Some? && clipFilter.value != []
  }

  /** Whether the segments of `sc` reach the plan at all. */
  predicate Contributes(sc: Sidecar, clipFilter: Option<seq<string>>) {
    !IsAudioType(MediaType(sc)) && (!Filtering(clipFilter) || StemOf(sc) in clipFilter.value)
  }

  predicate ValidSegment(seg: Segment) {
    Start(seg) < End(seg)
  }

  function CutFor(file: string, seg: Segment): Cut {
    Cut(1, file, Start(seg), End(seg))
  }

  // ---------------------------------------------------------------------------
  // The cuts collected before sorting
  // ---------------------------------------------------------------------------

  /** The cuts the inner loop appends for the segments `segs` of the file `file`, in order. */
  function SegmentCuts(file: string, segs: seq<Segment>): (r: seq<Cut>)
    ensures |r| <= |segs|
    ensures forall c <- r :: c.track == 1 && c.sourceFile == file && c.startSec < c.endSec
  {
    if segs == [] then []
    else
      var last := segs[|segs| - 1];
      SegmentCuts(file, segs[..|segs| - 1]) + (if ValidSegment(last) then [CutFor(file, last)] else [])
  }

  /** The cuts one sidecar adds. */
  function SidecarCuts(sc: Sidecar, clipFilter: Option<seq<string>>): seq<Cut> {
    if Contributes(sc, clipFilter) then SegmentCuts(FilePath(sc), Segments(sc)) else []
  }

  /** The cuts the outer loop has collected after visiting `sidecars`, in visiting order. */
  function CollectCuts(sidecars: seq<Sidecar>, clipFilter: Option<seq<string>>): seq<Cut> {
    if sidecars == [] then []
    else CollectCuts(sidecars[..|sidecars| - 1], clipFilter) + SidecarCuts(sidecars[|sidecars| - 1], clipFilter)
  }

  /** Indices of the segments that yield a cut. */
  function ValidIndices(segs: seq<Segment>): set<nat> {
    set j: nat | j < |segs| && ValidSegment(segs[j])
  }

  /** How many segments of included sidecars are valid. */
  function ValidSegmentCount(sidecars: seq<Sidecar>, clipFilter: Option<seq<string>>): nat {
    if sidecars == [] then 0
    else
      var sc := sidecars[|sidecars| - 1];
      ValidSegmentCount(sidecars[..|sidecars| - 1], clipFilter)
        + (if Contributes(sc, clipFilter) then |ValidIndices(Segments(sc))| else 0)
  }

  /** `c` is the cut of the `j`-th segment of the `i`-th sidecar, which is included and valid. */
  predicate EmitsAt(sidecars: seq<Sidecar>, clipFilter: Option<seq<string>>, c: Cut, i: int, j: int) {
    && 0 <= i < |sidecars|
    && 0 <= j < |Segments(sidecars[i])|
    && Contributes(sidecars[i], clipFilter)
    && ValidSegment(Segments(sidecars[i])[j])
    && c == CutFor(FilePath(sidecars[i]), Segments(sidecars[i])[j])
  }

  /** Some included, valid segment yields the cut `c`. */
  ghost predicate Emits(sidecars: seq<Sidecar>, clipFilter: Option<seq<string>>, c: Cut) {
    exists i, j :: EmitsAt(sidecars, clipFilter, c, i, j)
  }

  // ---------------------------------------------------------------------------
  // Ordering by (source_file, start_sec), as Python compares the key tuples
  // ---------------------------------------------------------------------------

  /** Python's `<` on strings: lexicographic by code point. */
  predicate StrLess(a: string, b: string) {
    if a == [] then b != []
    else if b == [] then false
    else if a[0] != b[0] then a[0] < b[0]
    else StrLess(a[1..], b[1..])
  }

  /** `(x.source_file, x.start_sec) <= (y.source_file, y.start_sec)`. */
  predicate KeyLeq(x: Cut, y: Cut) {
    StrLess(x.sourceFile, y.sourceFile) || (x.sourceFile == y.sourceFile && x.startSec <= y.startSec)
  }

  predicate SortedByKey(s: seq<Cut>) {
    forall i, j :: 0 <= i < j < |s| ==> KeyLeq(s[i], s[j])
  }

  /** The cuts of `s` whose key is `(file, start)`, in their order in `s`. */
  function WithKey(s: seq<Cut>, file: string, start: real): seq<Cut> {
    if s == [] then []
    else (if s[0].sourceFile == file && s[0].startSec == start then [s[0]] else []) + WithKey(s[1..], file, start)
  }

  /** Places `x` before the first cut of `s` whose key is not smaller than its own. */
  function Insert(x: Cut, s: seq<Cut>): (r: seq<Cut>)
    ensures multiset(r) == multiset(s) + multiset{x}
  {
    if s == [] || KeyLeq(x, s[0]) then [x] + s
    else
      assert s == [s[0]] + s[1..];
      [s[0]] + Insert(x, s[1..])
  }

  /**
   * `cuts.sort(key=lambda c: (c["source_file"], c["start_sec"]))`: a stable sort by key,
   * written as an insertion sort.
   */
  function SortCuts(s: seq<Cut>): (r: seq<Cut>)
    ensures multiset(r) == multiset(s)
  {
    if s == [] then []
    else
      assert s == [s[0]] + s[1..];
      Insert(s[0], SortCuts(s[1..]))
  }

  // ---------------------------------------------------------------------------
  // _segments_to_edit_plan
  // ---------------------------------------------------------------------------

  /**
   * Collects one cut per valid segment of every included sidecar, then sorts the cuts
   * by source file and start time.
   */
  method SegmentsToEditPlan(sidecars: seq<Sidecar>, timelineName: string, clipFilter: Option<seq<string>>)
    returns (plan: EditPlan)
    ensures plan.timelineName == timelineName
    ensures plan.cuts == SortCuts(CollectCuts(sidecars, clipFilter))
    ensures forall c <- plan.cuts :: c.track == 1 && c.startSec < c.endSec
    ensures SortedByKey(plan.cuts)
    ensures multiset(plan.cuts) == multiset(CollectCuts(sidecars, clipFilter))
    ensures |plan.cuts| == ValidSegmentCount(sidecars, clipFilter)
  {
    var cuts: seq<Cut> := [];
    var i := 0;
    while i < |sidecars|
      invariant 0 <= i <= |sidecars|
      invariant cuts == CollectCuts(sidecars[..i], clipFilter)
    {
      CollectStep(sidecars, i, clipFilter);
      cuts := AppendSidecarCuts(cuts, sidecars[i], clipFilter);
      i := i + 1;
    }
    assert sidecars[..i] == sidecars;
    cuts := SortCuts(cuts);
    SortedPlanFacts(sidecars, clipFilter);
    plan := EditPlan(timelineName, cuts);
  }

  /**
   * One pass of the outer loop of `_segments_to_edit_plan`: skips an audio sidecar and,
   * when the filter is in force, a sidecar whose stem is not listed; otherwise appends the
   * cuts of its segments.
   */
  method AppendSidecarCuts(cuts: seq<Cut>, sc: Sidecar, clipFilter: Option<seq<string>>) returns (r: seq<Cut>)
    ensures r == cuts + SidecarCuts(sc, clipFilter)
  {
    var mediaType := MediaType(sc);
    if IsAudioType(mediaType) {
      SkippedSidecar(sc, clipFilter);
      return cuts;
    }
    var filePath := FilePath(sc);
    var stem := StemOf(sc);
    if Filtering(clipFilter) && stem !in clipFilter.value {
      SkippedSidecar(sc, clipFilter);
      return cuts;
    }
    IncludedSidecar(sc, clipFilter);
    r := AppendSegmentCuts(cuts, filePath, Segments(sc));
  }

  lemma SkippedSidecar(sc: Sidecar, clipFilter: Option<seq<string>>)
    requires !Contributes(sc, clipFilter)
    ensures SidecarCuts(sc, clipFilter) == []
  {
  }

  lemma IncludedSidecar(sc: Sidecar, clipFilter: Option<seq<string>>)
    requires Contributes(sc, clipFilter)
    ensures SidecarCuts(sc, clipFilter) == SegmentCuts(FilePath(sc), Segments(sc))
  {
  }

  /** The inner loop of `_segments_to_edit_plan`: appends one cut per valid segment of `segs`. */
  method AppendSegmentCuts(cuts: seq<Cut>, filePath: string, segs: seq<Segment>) returns (r: seq<Cut>)
    ensures r == cuts + SegmentCuts(filePath, segs)
  {
    r := cuts;
    var j := 0;
    while j < |segs|
      invariant 0 <= j <= |segs|
      invariant r == cuts + SegmentCuts(filePath, segs[..j])
    {
      SegmentStep(filePath, segs, j);
      var start := segs[j].startSec.GetOr(0.0);
      var end := segs[j].endSec.GetOr(0.0);
      if end <= start {
        j := j + 1;
        continue;
      }
      r := r + [Cut(1, filePath, start, end)];
      j := j + 1;
    }
    assert segs[..j] == segs;
  }

  lemma CollectStep(sidecars: seq<Sidecar>, i: nat, clipFilter: Option<seq<string>>)
    requires i < |sidecars|
    ensures CollectCuts(sidecars[..i + 1], clipFilter) == CollectCuts(sidecars[..i], clipFilter) + SidecarCuts(sidecars[i], clipFilter)
  {
    assert sidecars[..i + 1][..i] == sidecars[..i];
  }

  lemma SegmentStep(file: string, segs: seq<Segment>, j: nat)
    requires j < |segs|
    ensures SegmentCuts(file, segs[..j + 1])
      == SegmentCuts(file, segs[..j]) + (if ValidSegment(segs[j]) then [CutFor(file, segs[j])] else [])
  {
    assert segs[..j + 1][..j] == segs[..j];
  }

  // ---------------------------------------------------------------------------
  // What the plan contains
  // ---------------------------------------------------------------------------

  /**
   * The sorted cuts are well formed, ordered by key, a permutation of the collected cuts,
   * and as many as the valid segments of the included sidecars.
   */
  lemma SortedPlanFacts(sidecars: seq<Sidecar>, clipFilter: Option<seq<string>>)
    ensures forall c <- SortCuts(CollectCuts(sidecars, clipFilter)) :: c.track == 1 && c.startSec < c.endSec
    ensures SortedByKey(SortCuts(CollectCuts(sidecars, clipFilter)))
    ensures |SortCuts(CollectCuts(sidecars, clipFilter))| == ValidSegmentCount(sidecars, clipFilter)
  {
    var collected := CollectCuts(sidecars, clipFilter);
    var sorted := SortCuts(collected);
    SortCutsSorted(collected);
    CollectedCount(sidecars, clipFilter);
    CollectedWellFormed(sidecars, clipFilter);
    assert |sorted| == |multiset(sorted)| == |multiset(collected)| == |collected|;
    forall c <- sorted ensures c.track == 1 && c.startSec < c.endSec {
      assert c in multiset(collected);
    }
  }

  /** Every collected cut is on track 1 and covers a non-empty range. */
  lemma {:induction false} CollectedWellFormed(sidecars: seq<Sidecar>, clipFilter: Option<seq<string>>)
    ensures forall c <- CollectCuts(sidecars, clipFilter) :: c.track == 1 && c.startSec < c.endSec
  {
    if sidecars != [] {
      CollectedWellFormed(sidecars[..|sidecars| - 1], clipFilter);
    }
  }

  /** A segment list yields one cut per valid segment. */
  lemma {:induction false} SegmentCutsCount(file: string, segs: seq<Segment>)
    ensures |SegmentCuts(file, segs)| == |ValidIndices(segs)|
  {
    if segs != [] {
      var n := |segs| - 1;
      var init := segs[..n];
      SegmentCutsCount(file, init);
      assert ValidIndices(init) == set j: nat | j < n && ValidSegment(segs[j]);
      if ValidSegment(segs[n]) {
        assert ValidIndices(segs) == ValidIndices(init) + {n};
      } else {
        assert ValidIndices(segs) == ValidIndices(init);
      }
    }
  }

  /** The number of cuts equals the number of valid segments of included sidecars. */
  lemma {:induction false} CollectedCount(sidecars: seq<Sidecar>, clipFilter: Option<seq<string>>)
    ensures |CollectCuts(sidecars, clipFilter)| == ValidSegmentCount(sidecars, clipFilter)
  {
    if sidecars != [] {
      var sc := sidecars[|sidecars| - 1];
      CollectedCount(sidecars[..|sidecars| - 1], clipFilter);
      SegmentCutsCount(FilePath(sc), Segments(sc));
    }
  }

  /** A cut comes from a segment list exactly when it is the cut of one of its valid segments. */
  lemma {:induction false} SegmentCutsMembership(file: string, segs: seq<Segment>, c: Cut)
    ensures c in SegmentCuts(file, segs) <==>
      exists j | 0 <= j < |segs| :: ValidSegment(segs[j]) && c == CutFor(file, segs[j])
  {
    if segs != [] {
      var n := |segs| - 1;
      var init := segs[..n];
      SegmentCutsMembership(file, init, c);
      if c in SegmentCuts(file, segs) {
        if c in SegmentCuts(file, init) {
          var j :| 0 <= j < n && ValidSegment(init[j]) && c == CutFor(file, init[j]);
          assert segs[j] == init[j];
        } else {
          assert ValidSegment(segs[n]) && c == CutFor(file, segs[n]);
        }
      }
      if exists j | 0 <= j < |segs| :: ValidSegment(segs[j]) && c == CutFor(file, segs[j]) {
        var j :| 0 <= j < |segs| && ValidSegment(segs[j]) && c == CutFor(file, segs[j]);
        if j < n {
          assert init[j] == segs[j];
        }
      }
    }
  }

  /**
   * A cut is collected exactly when it is the cut of a valid segment of an included sidecar:
   * a non-audio sidecar that passes the filter, stamped on track 1 with the sidecar's file path.
   */
  lemma CollectedMembership(sidecars: seq<Sidecar>, clipFilter: Option<seq<string>>, c: Cut)
    ensures c in CollectCuts(sidecars, clipFilter) <==> Emits(sidecars, clipFilter, c)
  {
    if c in CollectCuts(sidecars, clipFilter) {
      var i, j := CollectedSource(sidecars, clipFilter, c);
    }
    if Emits(sidecars, clipFilter, c) {
      var i, j :| EmitsAt(sidecars, clipFilter, c, i, j);
      CollectedFrom(sidecars, clipFilter, c, i, j);
    }
  }

  /** Every collected cut names the sidecar and segment it comes from. */
  lemma {:induction false} CollectedSource(sidecars: seq<Sidecar>, clipFilter: Option<seq<string>>, c: Cut)
    returns (i: nat, j: nat)
    requires c in CollectCuts(sidecars, clipFilter)
    ensures EmitsAt(sidecars, clipFilter, c, i, j)
  {
    assert sidecars != [];
    var init, sc := sidecars[..|sidecars| - 1], sidecars[|sidecars| - 1];
    assert CollectCuts(sidecars, clipFilter) == CollectCuts(init, clipFilter) + SidecarCuts(sc, clipFilter);
    if c in CollectCuts(init, clipFilter) {
      i, j := CollectedSource(init, clipFilter, c);
      assert sidecars[i] == init[i];
    } else {
      assert Contributes(sc, clipFilter) && c in SegmentCuts(FilePath(sc), Segments(sc));
      SegmentCutsMembership(FilePath(sc), Segments(sc), c);
      i := |sidecars| - 1;
      j :| 0 <= j < |Segments(sc)| && ValidSegment(Segments(sc)[j]) && c == CutFor(FilePath(sc), Segments(sc)[j]);
    }
  }

  /** The cut of every valid segment of an included sidecar is collected. */
  lemma {:induction false} CollectedFrom(sidecars: seq<Sidecar>, clipFilter: Option<seq<string>>, c: Cut, i: int, j: int)
    requires EmitsAt(sidecars, clipFilter, c, i, j)
    ensures c in CollectCuts(sidecars, clipFilter)
  {
    var init, sc := sidecars[..|sidecars| - 1], sidecars[|sidecars| - 1];
    assert CollectCuts(sidecars, clipFilter) == CollectCuts(init, clipFilter) + SidecarCuts(sc, clipFilter);
    if i < |sidecars| - 1 {
      assert init[i] == sidecars[i];
      CollectedFrom(init, clipFilter, c, i, j);
    } else {
      SegmentCutsMembership(FilePath(sc), Segments(sc), c);
    }
  }

  /** Collecting over two runs of sidecars is collecting over each in turn. */
  lemma {:induction false} CollectAppend(a: seq<Sidecar>, b: seq<Sidecar>, clipFilter: Option<seq<string>>)
    ensures CollectCuts(a + b, clipFilter) == CollectCuts(a, clipFilter) + CollectCuts(b, clipFilter)
  {
    if b == [] {
      assert a + b == a;
    } else {
      var init, last := b[..|b| - 1], b[|b| - 1];
      SplitLast(a, b);
      CollectAppend(a, init, clipFilter);
      CollectSnoc(a + init, last, clipFilter);
      CollectSnoc(init, last, clipFilter);
      ConcatAssoc(CollectCuts(a, clipFilter), CollectCuts(init, clipFilter), SidecarCuts(last, clipFilter));
    }
  }

  lemma CollectSnoc(sidecars: seq<Sidecar>, sc: Sidecar, clipFilter: Option<seq<string>>)
    ensures CollectCuts(sidecars + [sc], clipFilter) == CollectCuts(sidecars, clipFilter) + SidecarCuts(sc, clipFilter)
  {
    assert (sidecars + [sc])[..|sidecars|] == sidecars;
  }

  lemma SplitLast<T>(a: seq<T>, b: seq<T>)
    requires b != []
    ensures b == b[..|b| - 1] + [b[|b| - 1]]
    ensures a + b == (a + b[..|b| - 1]) + [b[|b| - 1]]
  {
  }

  lemma ConcatAssoc<T>(x: seq<T>, y: seq<T>, z: seq<T>)
    ensures (x + y) + z == x + (y + z)
  {
  }

  /** A sidecar that is not included can be removed from the input without changing the cuts. */
  lemma ExcludedSidecarAddsNothing(before: seq<Sidecar>, sc: Sidecar, after: seq<Sidecar>, clipFilter: Option<seq<string>>)
    requires !Contributes(sc, clipFilter)
    ensures CollectCuts(before + [sc] + after, clipFilter) == CollectCuts(before + after, clipFilter)
  {
    CollectAppend(before + [sc], after, clipFilter);
    CollectAppend(before, [sc], clipFilter);
    CollectAppend(before, after, clipFilter);
    assert CollectCuts([sc], clipFilter) == [] by {
      assert [sc][..0] == [];
    }
    var x, y := CollectCuts(before, clipFilter), CollectCuts(after, clipFilter);
    assert CollectCuts(before + [sc], clipFilter) == x;
    assert CollectCuts(before + [sc] + after, clipFilter) == x + y;
  }

  /** Sidecars whose media type is `"audio"` or `"audio/..."` contribute no cuts, whatever the filter. */
  lemma AudioSidecarAddsNothing(before: seq<Sidecar>, sc: Sidecar, after: seq<Sidecar>, clipFilter: Option<seq<string>>)
    requires MediaType(sc) == "audio" || "audio/" <= MediaType(sc)
    ensures CollectCuts(before + [sc] + after, clipFilter) == CollectCuts(before + after, clipFilter)
  {
    ExcludedSidecarAddsNothing(before, sc, after, clipFilter);
  }

  /** With a non-empty filter, a sidecar whose stem is not listed contributes no cuts. */
  lemma FilteredSidecarAddsNothing(before: seq<Sidecar>, sc: Sidecar, after: seq<Sidecar>, clipFilter: seq<string>)
    requires clipFilter != [] && StemOf(sc) !in clipFilter
    ensures CollectCuts(before + [sc] + after, Some(clipFilter)) == CollectCuts(before + after, Some(clipFilter))
  {
    ExcludedSidecarAddsNothing(before, sc, after, Some(clipFilter));
  }

  /** An absent filter and an empty filter list both mean "no filtering". */
  lemma {:induction false} NoFilterSameAsEmptyFilter(sidecars: seq<Sidecar>)
    ensures CollectCuts(sidecars, None) == CollectCuts(sidecars, Some([]))
  {
    if sidecars != [] {
      NoFilterSameAsEmptyFilter(sidecars[..|sidecars| - 1]);
    }
  }

  // ---------------------------------------------------------------------------
  // The sort
  // ---------------------------------------------------------------------------

  lemma {:induction false} StrLessIrreflexive(a: string)
    ensures !StrLess(a, a)
  {
    if a != [] {
      StrLessIrreflexive(a[1..]);
    }
  }

  lemma {:induction false} StrLessTransitive(a: string, b: string, c: string)
    requires StrLess(a, b) && StrLess(b, c)
    ensures StrLess(a, c)
  {
    if a != [] && b != [] && c != [] && a[0] == b[0] && b[0] == c[0] {
      StrLessTransitive(a[1..], b[1..], c[1..]);
    }
  }

  lemma {:induction false} StrLessTotal(a: string, b: string)
    ensures a == b || StrLess(a, b) || StrLess(b, a)
  {
    if a != [] && b != [] && a[0] == b[0] {
      StrLessTotal(a[1..], b[1..]);
      if a[1..] == b[1..] {
        assert a == [a[0]] + a[1..] && b == [b[0]] + b[1..];
      }
    }
  }

  lemma KeyLeqTransitive(x: Cut, y: Cut, z: Cut)
    requires KeyLeq(x, y) && KeyLeq(y, z)
    ensures KeyLeq(x, z)
  {
    if StrLess(x.sourceFile, y.sourceFile) && StrLess(y.sourceFile, z.sourceFile) {
      StrLessTransitive(x.sourceFile, y.sourceFile, z.sourceFile);
    }
  }

  lemma KeyLeqTotal(x: Cut, y: Cut)
    ensures KeyLeq(x, y) || KeyLeq(y, x)
  {
    StrLessTotal(x.sourceFile, y.sourceFile);
  }

  /** Inserting into a sorted sequence keeps it sorted. */
  lemma {:induction false} InsertSorted(x: Cut, s: seq<Cut>)
    requires SortedByKey(s)
    ensures SortedByKey(Insert(x, s))
  {
    var r := Insert(x, s);
    if s == [] || KeyLeq(x, s[0]) {
      forall i, j | 0 <= i < j < |r| ensures KeyLeq(r[i], r[j]) {
        if i == 0 && j > 1 {
          KeyLeqTransitive(x, s[0], s[j - 1]);
        }
      }
    } else {
      InsertSorted(x, s[1..]);
      KeyLeqTotal(x, s[0]);
      var t := Insert(x, s[1..]);
      assert r == [s[0]] + t;
      forall i, j | 0 <= i < j < |r| ensures KeyLeq(r[i], r[j]) {
        if i == 0 {
          assert r[j] in multiset(t);
          assert r[j] == x || r[j] in multiset(s[1..]);
          if r[j] != x {
            var k :| 0 <= k < |s[1..]| && s[1..][k] == r[j];
            assert s[k + 1] == r[j];
          }
        }
      }
    }
  }

  /** The result of the sort is ordered by (source file, start). */
  lemma {:induction false} SortCutsSorted(s: seq<Cut>)
    ensures SortedByKey(SortCuts(s))
  {
    if s != [] {
      SortCutsSorted(s[1..]);
      InsertSorted(s[0], SortCuts(s[1..]));
    }
  }

  lemma {:induction false} WithKeyAppend(a: seq<Cut>, b: seq<Cut>, file: string, start: real)
    ensures WithKey(a + b, file, start) == WithKey(a, file, start) + WithKey(b, file, start)
  {
    if a == [] {
      assert a + b == b;
    } else {
      assert (a + b)[0] == a[0] && (a + b)[1..] == a[1..] + b;
      WithKeyAppend(a[1..], b, file, start);
    }
  }

  /** Inserting keeps the relative order of the cuts that share a key. */
  lemma {:induction false} InsertStable(x: Cut, s: seq<Cut>, file: string, start: real)
    ensures WithKey(Insert(x, s), file, start) == WithKey([x] + s, file, start)
  {
    if s != [] && !KeyLeq(x, s[0]) {
      InsertStable(x, s[1..], file, start);
      SwapPastSmaller(x, s[0], s[1..], Insert(x, s[1..]), file, start);
    }
  }

  /**
   * Moving `x` past a cut `y` with a smaller key does not change the order of any key's cuts:
   * `x` and `y` never share a key.
   */
  lemma SwapPastSmaller(x: Cut, y: Cut, rest: seq<Cut>, inserted: seq<Cut>, file: string, start: real)
    requires !KeyLeq(x, y)
    requires WithKey(inserted, file, start) == WithKey([x] + rest, file, start)
    ensures WithKey([y] + inserted, file, start) == WithKey([x] + ([y] + rest), file, start)
  {
    WithKeyAppend([y], inserted, file, start);
    WithKeyAppend([x], rest, file, start);
    WithKeyAppend([x], [y] + rest, file, start);
    WithKeyAppend([y], rest, file, start);
    assert ([y] + inserted)[1..] == inserted;
    assert ([x] + rest)[1..] == rest;
    assert WithKey([x], file, start) == [] || WithKey([y], file, start) == [];
  }

  /** The sort is stable: cuts with equal keys keep their collected order. */
  lemma {:induction false} SortCutsStable(s: seq<Cut>, file: string, start: real)
    ensures WithKey(SortCuts(s), file, start) == WithKey(s, file, start)
  {
    if s != [] {
      var x, rest := s[0], s[1..];
      var sorted := SortCuts(rest);
      assert s == [x] + rest;
      assert SortCuts(s) == Insert(x, sorted);
      SortCutsStable(rest, file, start);
      InsertStable(x, sorted, file, start);
      WithKeyAppend([x], sorted, file, start);
      WithKeyAppend([x], rest, file, start);
      assert WithKey(Insert(x, sorted), file, start) == WithKey([x], file, start) + WithKey(rest, file, start);
    }
  }

  // ---------------------------------------------------------------------------
  // build_key_moments_timeline: filter parsing, the file-name guard, the clip count
  // ---------------------------------------------------------------------------

  /** `[s.strip() for s in parts if s.strip()]`. */
  function KeepNonBlank(parts: seq<string>): (r: seq<string>)
    ensures |r| <= |parts|
    ensures forall e <- r :: e != [] && Text.Trimmed(e)
  {
    if parts == [] then []
    else (if Text.Strip(parts[0]) != [] then [Text.Strip(parts[0])] else []) + KeepNonBlank(parts[1..])
  }

  /** The filter list built from the comma-separated `clip_filter` argument; `None` when it is empty. */
  function ParseClipFilter(clipFilter: string): (r: Option<seq<string>>)
    ensures r.None? <==> clipFilter == []
  {
    if clipFilter == [] then None else Some(KeepNonBlank(Text.Split(clipFilter, ',')))
  }

  /** Every entry of a parsed filter is non-empty, trimmed and free of commas. */
  lemma ParsedEntriesClean(clipFilter: string)
    ensures ParseClipFilter(clipFilter).Some? ==>
      forall e <- ParseClipFilter(clipFilter).value :: e != [] && Text.Trimmed(e) && ',' !in e
  {
    if clipFilter != [] {
      KeepNonBlankNoComma(Text.Split(clipFilter, ','));
    }
  }

  lemma {:induction false} KeepNonBlankNoComma(parts: seq<string>)
    requires forall p <- parts :: ',' !in p
    ensures forall e <- KeepNonBlank(parts) :: ',' !in e
  {
    if parts != [] {
      assert parts[0] in parts;
      Text.StripKeepsOnlyCharsOf(parts[0], ',');
      KeepNonBlankNoComma(parts[1..]);
    }
  }

  lemma {:induction false} KeepNonBlankOfClean(entries: seq<string>)
    requires forall e <- entries :: e != [] && Text.Trimmed(e)
    ensures KeepNonBlank(entries) == entries
  {
    if entries != [] {
      var first, rest := entries[0], entries[1..];
      assert first in entries;
      Text.StripTrimmed(first);
      forall e <- rest ensures e != [] && Text.Trimmed(e) {
        assert e in entries;
      }
      KeepNonBlankOfClean(rest);
      HeadTail(entries);
      assert KeepNonBlank(entries) == [first] + KeepNonBlank(rest);
    }
  }

  /** The kept entries are exactly the parts that are not blank, each stripped. */
  lemma {:induction false} KeepNonBlankMembers(parts: seq<string>, e: string)
    ensures e in KeepNonBlank(parts) <==> e != [] && exists p <- parts :: Text.Strip(p) == e
  {
    if parts != [] {
      var first, rest := parts[0], parts[1..];
      KeepNonBlankMembers(rest, e);
      HeadTail(parts);
      assert KeepNonBlank(parts) == (if Text.Strip(first) != [] then [Text.Strip(first)] else []) + KeepNonBlank(rest);
      if e != [] && Text.Strip(first) == e {
        assert first in parts;
      }
      if e in KeepNonBlank(rest) {
        var p :| p in rest && Text.Strip(p) == e;
        assert p in parts;
      }
      if e != [] && exists p <- parts :: Text.Strip(p) == e {
        var p :| p in parts && Text.Strip(p) == e;
        if p != first {
          assert p in rest;
        }
      }
    }
  }

  /** The parts are handled one at a time, left to right: the result keeps their order. */
  lemma {:induction false} KeepNonBlankAppend(a: seq<string>, b: seq<string>)
    ensures KeepNonBlank(a + b) == KeepNonBlank(a) + KeepNonBlank(b)
  {
    if a == [] {
      assert a + b == b;
    } else {
      var head := if Text.Strip(a[0]) != [] then [Text.Strip(a[0])] else [];
      assert (a + b)[0] == a[0];
      assert (a + b)[1..] == a[1..] + b;
      KeepNonBlankAppend(a[1..], b);
      ConcatAssoc(head, KeepNonBlank(a[1..]), KeepNonBlank(b));
    }
  }

  /** A single part gives its stripped text, or nothing when it is blank. */
  lemma KeepNonBlankSingle(p: string)
    ensures KeepNonBlank([p]) == if Text.Strip(p) == [] then [] else [Text.Strip(p)]
  {
    assert [p][1..] == [];
  }

  lemma HeadTail<T>(s: seq<T>)
    requires s != []
    ensures [s[0]] + s[1..] == s
  {
  }

  lemma {:induction false} JoinStartsWithFirst(parts: seq<string>, sep: char)
    requires parts != []
    ensures |Text.Join(parts, sep)| >= |parts[0]|
  {
  }

  /** Joining clean stems with commas and parsing the result gives the stems back. */
  lemma ParseJoinedFilter(entries: seq<string>)
    requires entries != []
    requires forall e <- entries :: e != [] && Text.Trimmed(e) && ',' !in e
    ensures ParseClipFilter(Text.Join(entries, ',')) == Some(entries)
  {
    assert entries[0] in entries;
    JoinStartsWithFirst(entries, ',');
    Text.SplitJoin(entries, ',');
    KeepNonBlankOfClean(entries);
  }

  /** The example of the tool's documentation: two stems separated by a comma. */
  lemma ParseDocumentedExample()
    ensures ParseClipFilter("DSC_4293,DSC_4294") == Some(["DSC_4293", "DSC_4294"])
  {
    var entries := ["DSC_4293", "DSC_4294"];
    assert Text.Join(entries, ',') == "DSC_4293,DSC_4294";
    ParseJoinedFilter(entries);
  }

  /** The timeline name with `:`, `/` and `\` replaced, as used in the saved plan's file name. */
  function SafeName(timelineName: string): (r: string)
    ensures ':' !in r && '/' !in r && '\\' !in r
    ensures forall d :: d in r ==> d in timelineName || d == ' ' || d == '-'
    ensures forall d :: d in timelineName && d != ':' && d != '/' && d != '\\' ==> d in r
  {
    Text.ReplaceChar(Text.ReplaceChar(Text.ReplaceChar(timelineName, ':', " -"), '/', "-"), '\\', "-")
  }

  /** The guard changes a name exactly when the name holds one of the three characters. */
  lemma SafeNameFixedPoint(timelineName: string)
    ensures SafeName(timelineName) == timelineName <==> (':' !in timelineName && '/' !in timelineName && '\\' !in timelineName)
  {
  }

  /** Applying the guard twice is applying it once. */
  lemma SafeNameIdempotent(timelineName: string)
    ensures SafeName(SafeName(timelineName)) == SafeName(timelineName)
  {
    SafeNameFixedPoint(SafeName(timelineName));
  }

  /** The clip count of the summary message: sidecars whose media type does not start with `"audio"`. */
  function NClips(sidecars: seq<Sidecar>): (n: nat)
    ensures n <= |sidecars|
  {
    if sidecars == [] then 0
    else NClips(sidecars[..|sidecars| - 1]) + (if "audio" <= MediaType(sidecars[|sidecars| - 1]) then 0 else 1)
  }

  /** How many sidecars the edit plan's own audio test lets through. */
  function PlanVideoCount(sidecars: seq<Sidecar>): nat {
    if sidecars == [] then 0
    else PlanVideoCount(sidecars[..|sidecars| - 1]) + (if IsAudioType(MediaType(sidecars[|sidecars| - 1])) then 0 else 1)
  }

  /**
   * The count counts all sidecars exactly when none has a media type starting with
   * `"audio"`; it never exceeds the number of sidecars the plan treats as video.
   */
  lemma {:induction false} NClipsBounds(sidecars: seq<Sidecar>)
    ensures NClips(sidecars) == |sidecars| <==> forall i | 0 <= i < |sidecars| :: !("audio" <= MediaType(sidecars[i]))
    ensures NClips(sidecars) <= PlanVideoCount(sidecars)
  {
    if sidecars != [] {
      var n := |sidecars| - 1;
      var init := sidecars[..n];
      NClipsBounds(init);
      assert forall i | 0 <= i < n :: init[i] == sidecars[i];
      if "audio" <= MediaType(sidecars[n]) {
        assert NClips(sidecars) < |sidecars|;
      }
    }
  }

  /**
   * The two audio tests differ: a media type such as `"audiovisual"` is left out of the
   * count although its segments reach the plan.
   */
  lemma NClipsStricterThanPlan()
    ensures var sc := Sidecar(Some("audiovisual"), Some("a.mp4"), None, Some([Segment(Some(0.0), Some(1.0))]));
      NClips([sc]) == 0 && |CollectCuts([sc], None)| == 1
  {
    var sc := Sidecar(Some("audiovisual"), Some("a.mp4"), None, Some([Segment(Some(0.0), Some(1.0))]));
    assert [sc][..0] == [];
    assert "audiovisual"[5] == 'v';
    assert !IsAudioType("audiovisual");
    assert Segments(sc)[..0] == [];
  }
}
