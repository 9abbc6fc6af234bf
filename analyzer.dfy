/**
  `DatasetAnalyzer.analyze_dataset` (yolo_dataset_stats.py:30-73) and the
  counting part of `get_image_sizes_and_stats` (:19-28).

  The filesystem is a snapshot value: for each image directory the listing
  with each entry's decoding result, for each label directory the listing of
  its files as their lines. A directory missing from the snapshot is one on
  which `os.listdir` raises. The second scan of the image directories
  (:63-67) reads the same snapshot as the first.
 */
module Analyzer {
  import opened Outcomes
  import opened PathRewrite
  import opened ClassCounts
  import opened ImageSizes

  /** The keys of `self.stats`. */
  datatype Split = Train | Val | Test | Total

  /**
    One entry of `self.stats`, in the three forms the dict takes: empty as
    created at :36, holding the size fields after :46-48, and holding all
    five fields after :59-60 (or :69-73 for the total).
   */
  datatype SplitRecord =
    | Pending
    | Sized(meanWidth: real, meanHeight: real, imageCount: nat)
    | Complete(meanWidth: real, meanHeight: real, imageCount: nat,
               classCounts: Counts, totalIndividuals: nat)

  /**
    The loaded configuration: the three image directories and the keys of
    `names`, in the dict's order.
   */
  datatype Config = Config(train: string, val: string, test: string, classIds: seq<int>)

  datatype FileSystem = FileSystem(
    images: map<string, seq<Option<Shape>>>,
    labels: map<string, seq<seq<string>>>)

  /** How `analyze_dataset` ends: it returns, or raises one of the errors. */
  datatype Outcome = Pass | Fail(error: Error)

  const SPLITS: seq<Split> := [Train, Val, Test]

  function Dirs(config: Config): seq<string> {
    [config.train, config.val, config.test]
  }

  /** `{'train': {}, 'val': {}, 'test': {}, 'total': {}}` (:36). */
  function InitialStats(): map<Split, SplitRecord> {
    map[Train := Pending, Val := Pending, Test := Pending, Total := Pending]
  }

  /** The shapes the scan of an image directory decodes; none for a missing directory. */
  function SplitShapes(fs: FileSystem, dir: string): seq<Shape> {
    if dir in fs.images then Decoded(fs.images[dir]) else []
  }

  /** The label lines of the split whose image directory is `dir`. */
  function SplitLines(fs: FileSystem, dir: string): seq<string> {
    var labelDir := LabelDir(dir);
    if labelDir in fs.labels then AllLines(fs.labels[labelDir]) else []
  }

  /**
    A filled-in record, as a split's is after :46-48 and :59-60 and the
    total's after :69-73: the mean width and height and the number of the
    decoded images, a class-count table, and the sum of that table.
   */
  function RecordOf(ids: seq<int>, shapes: seq<Shape>, counts: Counts): (r: SplitRecord)
    requires counts.Keys == KeySet(ids)
    ensures WellFormed(ids, r)
  {
    Complete(Mean(Widths(shapes)), Mean(Heights(shapes)), |shapes|, counts, SumValues(counts, ids))
  }

  /**
    What a filled-in record promises on its own: every configured id (and
    no other) is a key of its table, `total_individuals` is the sum of the
    table, and a record without images has mean sizes 0.
   */
  predicate WellFormed(ids: seq<int>, r: SplitRecord) {
    && r.Complete?
    && r.classCounts.Keys == KeySet(ids)
    && r.totalIndividuals == SumValues(r.classCounts, ids)
    && (r.imageCount == 0 ==> r.meanWidth == 0.0 && r.meanHeight == 0.0)
  }

  /**
    `total` adds up `a`, `b` and `c`: image counts, per-class counts and
    individuals are sums, and the mean sizes are the means weighted by
    image count.
   */
  predicate AddsUp(ids: seq<int>, total: SplitRecord, a: SplitRecord, b: SplitRecord, c: SplitRecord)
    requires WellFormed(ids, total) && WellFormed(ids, a) && WellFormed(ids, b) && WellFormed(ids, c)
  {
    && total.imageCount == a.imageCount + b.imageCount + c.imageCount
    && (forall id :: id in ids ==>
          total.classCounts[id] == a.classCounts[id] + b.classCounts[id] + c.classCounts[id])
    && total.totalIndividuals == a.totalIndividuals + b.totalIndividuals + c.totalIndividuals
    && Times(total.meanWidth, total.imageCount)
       == Times(a.meanWidth, a.imageCount) + Times(b.meanWidth, b.imageCount) + Times(c.meanWidth, c.imageCount)
    && Times(total.meanHeight, total.imageCount)
       == Times(a.meanHeight, a.imageCount) + Times(b.meanHeight, b.imageCount) + Times(c.meanHeight, c.imageCount)
  }

  /**
    The record of three splits' images put together, with a table holding
    per class the sum of the three splits' tables, adds up the three
    splits' records.
   */
  lemma PooledRecord(ids: seq<int>, s0: seq<Shape>, s1: seq<Shape>, s2: seq<Shape>,
                     t: Counts, c0: Counts, c1: Counts, c2: Counts)
    requires t.Keys == c0.Keys == c1.Keys == c2.Keys == KeySet(ids)
    requires forall id :: id in ids ==> t[id] == c0[id] + c1[id] + c2[id]
    ensures AddsUp(ids, RecordOf(ids, s0 + s1 + s2, t),
                   RecordOf(ids, s0, c0), RecordOf(ids, s1, c1), RecordOf(ids, s2, c2))
  {
    forall i | 0 <= i < |ids|
      ensures ids[i] in t && ids[i] in c0 && ids[i] in c1 && ids[i] in c2
      ensures t[ids[i]] == c0[ids[i]] + c1[ids[i]] + c2[ids[i]]
    {
      var id := ids[i];
      assert id in ids;
      assert t[id] == c0[id] + c1[id] + c2[id];
    }
    SumValuesAdd(t, c0, c1, c2, ids);
    PooledWidths(s0, s1, s2);
    PooledHeights(s0, s1, s2);
  }

  /** What one pass of the split loop (:41-60) leaves in its record, and the error it raises, if any. */
  datatype SplitOutcome = SplitOutcome(record: SplitRecord, error: Option<Error>)

  function SplitSpec(ids: seq<int>, fs: FileSystem, dir: string): SplitOutcome {
    if dir !in fs.images then SplitOutcome(Pending, Some(MissingDirectory(dir)))
    else
      var shapes := Decoded(fs.images[dir]);
      var sized := Sized(Mean(Widths(shapes)), Mean(Heights(shapes)), |shapes|);
      var labelDir := LabelDir(dir);
      if labelDir !in fs.labels then SplitOutcome(sized, Some(MissingDirectory(labelDir)))
      else
        var lines := AllLines(fs.labels[labelDir]);
        match Tally(lines, Zeros(ids))
        case Failure(e) => SplitOutcome(sized, Some(e))
        case Success(counts) =>
          TallyMeaning(lines, Zeros(ids));
          SplitOutcome(RecordOf(ids, shapes, counts), None)
  }

  function Processed(config: Config, fs: FileSystem, k: nat): SplitOutcome
    requires k < 3
  {
    SplitSpec(config.classIds, fs, Dirs(config)[k])
  }

  predicate AllSucceed(config: Config, fs: FileSystem) {
    forall k :: 0 <= k < 3 ==> Processed(config, fs, k).error.None?
  }

  /** Split `k` is the first to raise. */
  predicate FailsFirstAt(config: Config, fs: FileSystem, k: nat) {
    && k < 3
    && Processed(config, fs, k).error.Some?
    && forall j :: 0 <= j < k ==> Processed(config, fs, j).error.None?
  }

  /** `self.stats` once the first `k` splits have been processed. */
  function StatsAfter(config: Config, fs: FileSystem, k: nat): map<Split, SplitRecord>
    requires k <= 3
  {
    if k == 0 then InitialStats()
    else StatsAfter(config, fs, k - 1)[SPLITS[k - 1] := Processed(config, fs, k - 1).record]
  }

  /** The images of the first `k` splits, in scan order (`all_widths.extend`, :64-67). */
  function ShapesBefore(config: Config, fs: FileSystem, k: nat): seq<Shape>
    requires k <= 3
  {
    if k == 0 then [] else ShapesBefore(config, fs, k - 1) + SplitShapes(fs, Dirs(config)[k - 1])
  }

  /** The label lines of the first `k` splits, in the order `total_counts` sees them (:57). */
  function LinesBefore(config: Config, fs: FileSystem, k: nat): seq<string>
    requires k <= 3
  {
    if k == 0 then [] else LinesBefore(config, fs, k - 1) + SplitLines(fs, Dirs(config)[k - 1])
  }

  lemma ThreeSplits(config: Config, fs: FileSystem)
    ensures var dirs := Dirs(config);
      LinesBefore(config, fs, 3)
      == SplitLines(fs, dirs[0]) + SplitLines(fs, dirs[1]) + SplitLines(fs, dirs[2])
    ensures var dirs := Dirs(config);
      ShapesBefore(config, fs, 3)
      == SplitShapes(fs, dirs[0]) + SplitShapes(fs, dirs[1]) + SplitShapes(fs, dirs[2])
  {
    assert LinesBefore(config, fs, 1) == SplitLines(fs, Dirs(config)[0]);
    assert ShapesBefore(config, fs, 1) == SplitShapes(fs, Dirs(config)[0]);
  }

  /** After the three splits, each split's entry is the record its pass left. */
  lemma ThreeRecords(config: Config, fs: FileSystem)
    ensures StatsAfter(config, fs, 3) == map[Train := Processed(config, fs, 0).record,
                                             Val := Processed(config, fs, 1).record,
                                             Test := Processed(config, fs, 2).record,
                                             Total := Pending]
  {
    assert StatsAfter(config, fs, 1) == InitialStats()[Train := Processed(config, fs, 0).record];
  }

  /** The record and error of a split pass, by where the pass stops. */
  lemma SplitSpecCases(ids: seq<int>, fs: FileSystem, dir: string)
    ensures dir !in fs.images ==> SplitSpec(ids, fs, dir) == SplitOutcome(Pending, Some(MissingDirectory(dir)))
    ensures dir in fs.images ==>
      var shapes := SplitShapes(fs, dir);
      var sized := Sized(Mean(Widths(shapes)), Mean(Heights(shapes)), |shapes|);
      var tally := Tally(SplitLines(fs, dir), Zeros(ids));
      && (LabelDir(dir) !in fs.labels ==>
            SplitSpec(ids, fs, dir) == SplitOutcome(sized, Some(MissingDirectory(LabelDir(dir)))))
      && (LabelDir(dir) in fs.labels && tally.Failure? ==>
            SplitSpec(ids, fs, dir) == SplitOutcome(sized, Some(tally.error)))
      && (LabelDir(dir) in fs.labels && tally.Success? && tally.value.Keys == KeySet(ids) ==>
            SplitSpec(ids, fs, dir) == SplitOutcome(RecordOf(ids, shapes, tally.value), None))
  {
  }

  /** A split that raised nothing holds the record of its images and of the table of its label lines. */
  lemma SplitSucceeds(ids: seq<int>, fs: FileSystem, dir: string)
    requires SplitSpec(ids, fs, dir).error.None?
    ensures dir in fs.images && LabelDir(dir) in fs.labels
    ensures Tally(SplitLines(fs, dir), Zeros(ids)).Success?
    ensures Tally(SplitLines(fs, dir), Zeros(ids)).value.Keys == KeySet(ids)
    ensures SplitSpec(ids, fs, dir).record
      == RecordOf(ids, SplitShapes(fs, dir), Tally(SplitLines(fs, dir), Zeros(ids)).value)
  {
    TallyMeaning(SplitLines(fs, dir), Zeros(ids));
  }

  lemma TotalTallies(config: Config, fs: FileSystem)
    requires AllSucceed(config, fs)
    ensures Tally(LinesBefore(config, fs, 3), Zeros(config.classIds)).Success?
    ensures Tally(LinesBefore(config, fs, 3), Zeros(config.classIds)).value.Keys == KeySet(config.classIds)
  {
    var ids, dirs := config.classIds, Dirs(config);
    assert Processed(config, fs, 0).error.None?;
    assert Processed(config, fs, 1).error.None?;
    assert Processed(config, fs, 2).error.None?;
    SplitSucceeds(ids, fs, dirs[0]);
    SplitSucceeds(ids, fs, dirs[1]);
    SplitSucceeds(ids, fs, dirs[2]);
    ThreeSplits(config, fs);
    TotalTable(SplitLines(fs, dirs[0]), SplitLines(fs, dirs[1]), SplitLines(fs, dirs[2]), ids);
  }

  /** The `total` record (:69-73): the record of all images and of the table of all label lines. */
  function TotalSpec(config: Config, fs: FileSystem): SplitRecord
    requires AllSucceed(config, fs)
  {
    TotalTallies(config, fs);
    RecordOf(config.classIds, ShapesBefore(config, fs, 3),
             Tally(LinesBefore(config, fs, 3), Zeros(config.classIds)).value)
  }

  /** `self.stats` after a run that raised nothing. */
  function FinalStats(config: Config, fs: FileSystem): map<Split, SplitRecord>
    requires AllSucceed(config, fs)
  {
    StatsAfter(config, fs, 3)[Total := TotalSpec(config, fs)]
  }

  /** The `total` record the method assembles from its running totals is the specified one. */
  lemma TotalRecordAssembled(config: Config, fs: FileSystem, allWidths: seq<nat>, allHeights: seq<nat>,
                             imageCount: nat, totalCounts: Counts)
    requires AllSucceed(config, fs)
    requires allWidths == Widths(ShapesBefore(config, fs, 3))
    requires allHeights == Heights(ShapesBefore(config, fs, 3))
    requires imageCount == |ShapesBefore(config, fs, 3)|
    requires Tally(LinesBefore(config, fs, 3), Zeros(config.classIds)) == Success(totalCounts)
    requires totalCounts.Keys == KeySet(config.classIds)
    ensures FinalStats(config, fs) == StatsAfter(config, fs, 3)[Total := Complete(
      Mean(allWidths), Mean(allHeights), imageCount, totalCounts, SumValues(totalCounts, config.classIds))]
  {
  }

  /** When split `k` raises after the splits before it did not, it is the first to raise. */
  lemma FirstFailure(config: Config, fs: FileSystem, k: nat)
    requires k < 3 && Processed(config, fs, k).error.Some?
    requires forall j :: 0 <= j < k ==> Processed(config, fs, j).error.None?
    ensures !AllSucceed(config, fs)
    ensures forall k': nat :: FailsFirstAt(config, fs, k') ==> k' == k
  {
  }

  /**
    The report's invariants: all four records are filled in and well formed,
    and the `total` record adds up the three splits.
   */
  predicate ReportConsistent(ids: seq<int>, stats: map<Split, SplitRecord>) {
    && stats.Keys == {Train, Val, Test, Total}
    && (forall s :: s in stats ==> WellFormed(ids, stats[s]))
    && AddsUp(ids, stats[Total], stats[Train], stats[Val], stats[Test])
  }

  /**
    Four records built from three splits' images and tables, the total from
    all images and a table adding up the three, form a consistent report.
   */
  lemma ConsistentReport(ids: seq<int>, s0: seq<Shape>, s1: seq<Shape>, s2: seq<Shape>,
                         t: Counts, c0: Counts, c1: Counts, c2: Counts)
    requires t.Keys == c0.Keys == c1.Keys == c2.Keys == KeySet(ids)
    requires forall id :: id in ids ==> t[id] == c0[id] + c1[id] + c2[id]
    ensures ReportConsistent(ids, map[Train := RecordOf(ids, s0, c0), Val := RecordOf(ids, s1, c1),
                                      Test := RecordOf(ids, s2, c2), Total := RecordOf(ids, s0 + s1 + s2, t)])
  {
    PooledRecord(ids, s0, s1, s2, t, c0, c1, c2);
  }

  /** The four records of a run that raised nothing, in terms of each split's images and label lines. */
  lemma FinalRecords(config: Config, fs: FileSystem)
    requires AllSucceed(config, fs)
    ensures var ids, dirs := config.classIds, Dirs(config);
      var l0, l1, l2 := SplitLines(fs, dirs[0]), SplitLines(fs, dirs[1]), SplitLines(fs, dirs[2]);
      && Tally(l0, Zeros(ids)).Success? && Tally(l1, Zeros(ids)).Success? && Tally(l2, Zeros(ids)).Success?
      && Tally(l0 + l1 + l2, Zeros(ids)).Success?
      && Tally(l0, Zeros(ids)).value.Keys == KeySet(ids)
      && Tally(l1, Zeros(ids)).value.Keys == KeySet(ids)
      && Tally(l2, Zeros(ids)).value.Keys == KeySet(ids)
      && Tally(l0 + l1 + l2, Zeros(ids)).value.Keys == KeySet(ids)
      && FinalStats(config, fs) == map[
           Train := RecordOf(ids, SplitShapes(fs, dirs[0]), Tally(l0, Zeros(ids)).value),
           Val := RecordOf(ids, SplitShapes(fs, dirs[1]), Tally(l1, Zeros(ids)).value),
           Test := RecordOf(ids, SplitShapes(fs, dirs[2]), Tally(l2, Zeros(ids)).value),
           Total := RecordOf(ids, SplitShapes(fs, dirs[0]) + SplitShapes(fs, dirs[1]) + SplitShapes(fs, dirs[2]),
                             Tally(l0 + l1 + l2, Zeros(ids)).value)]
  {
    var ids, dirs := config.classIds, Dirs(config);
    assert Processed(config, fs, 0).error.None?;
    assert Processed(config, fs, 1).error.None?;
    assert Processed(config, fs, 2).error.None?;
    SplitSucceeds(ids, fs, dirs[0]);
    SplitSucceeds(ids, fs, dirs[1]);
    SplitSucceeds(ids, fs, dirs[2]);
    ThreeSplits(config, fs);
    ThreeRecords(config, fs);
    TotalTallies(config, fs);
  }

  /** A run that raises nothing leaves a consistent report. */
  lemma FinalStatsConsistent(config: Config, fs: FileSystem)
    requires AllSucceed(config, fs)
    ensures ReportConsistent(config.classIds, FinalStats(config, fs))
  {
    var ids, dirs := config.classIds, Dirs(config);
    var l0, l1, l2 := SplitLines(fs, dirs[0]), SplitLines(fs, dirs[1]), SplitLines(fs, dirs[2]);
    FinalRecords(config, fs);
    TotalTable(l0, l1, l2, ids);
    ConsistentReport(ids, SplitShapes(fs, dirs[0]), SplitShapes(fs, dirs[1]), SplitShapes(fs, dirs[2]),
                     Tally(l0 + l1 + l2, Zeros(ids)).value,
                     Tally(l0, Zeros(ids)).value, Tally(l1, Zeros(ids)).value, Tally(l2, Zeros(ids)).value);
  }

  /**
    The record of a split that raised nothing: its image count is the number
    of entries that decoded, its means counted once per image give the total
    width and height, its table holds per configured id the number of label
    lines naming it, and its `total_individuals` is the number of label
    lines read.
   */
  lemma SplitRecordMeaning(ids: seq<int>, fs: FileSystem, dir: string)
    requires Distinct(ids)
    requires SplitSpec(ids, fs, dir).error.None?
    ensures dir in fs.images && LabelDir(dir) in fs.labels
    ensures WellFormed(ids, SplitSpec(ids, fs, dir).record)
    ensures
      var r, entries, lines := SplitSpec(ids, fs, dir).record, fs.images[dir], SplitLines(fs, dir);
      var shapes := Decoded(entries);
      && r.imageCount + multiset(entries)[None] == |entries|
      && Times(r.meanWidth, r.imageCount) == Sum(Widths(shapes)) as real
      && Times(r.meanHeight, r.imageCount) == Sum(Heights(shapes)) as real
      && (forall id :: id in ids ==> r.classCounts[id] == Count(lines, id))
      && r.totalIndividuals == |lines|
  {
    SplitSucceeds(ids, fs, dir);
    SplitTable(SplitLines(fs, dir), ids);
  }

  /**
    A split raises exactly when its image directory or its label directory
    is missing or one of its label lines is refused (blank, not an integer,
    or an id outside the configuration).
   */
  lemma SplitFailureMeaning(ids: seq<int>, fs: FileSystem, dir: string)
    ensures SplitSpec(ids, fs, dir).error.Some? <==>
      || dir !in fs.images
      || LabelDir(dir) !in fs.labels
      || exists j :: 0 <= j < |SplitLines(fs, dir)|
           && Rejection(SplitLines(fs, dir)[j], KeySet(ids)).Some?
  {
    TallyMeaning(SplitLines(fs, dir), Zeros(ids));
  }

  /** Records of splits not yet reached are still empty. */
  lemma {:induction false} StatsAfterPending(config: Config, fs: FileSystem, k: nat, j: nat)
    requires k <= j < 3
    ensures StatsAfter(config, fs, k).Keys == {Train, Val, Test, Total}
    ensures StatsAfter(config, fs, k)[SPLITS[j]] == Pending
    ensures StatsAfter(config, fs, k)[Total] == Pending
  {
    if k > 0 {
      StatsAfterPending(config, fs, k - 1, j);
    }
  }

  class DatasetAnalyzer {
    const config: Config
    var stats: map<Split, SplitRecord>

    /**
      `__init__` with the configuration already loaded; `self.stats = {}`.
      The class ids are the keys of the `names` dict, so they are distinct.
     */
    constructor (config: Config)
      requires Distinct(config.classIds)
      ensures this.config == config
      ensures stats == map[]
    {
      this.config := config;
      stats := map[];
    }

    /**
      `get_image_sizes_and_stats`: the widths and heights of the entries that
      decoded, in listing order, and how many there are.
     */
    static method GetImageSizesAndStats(listing: seq<Option<Shape>>)
      returns (widths: seq<nat>, heights: seq<nat>, imageCount: nat)
      ensures widths == Widths(Decoded(listing)) && heights == Heights(Decoded(listing))
      ensures imageCount == |widths| == |heights|
      ensures imageCount + multiset(listing)[None] == |listing|
    {
      widths, heights := [], [];
      for k := 0 to |listing|
        invariant widths == Widths(Decoded(listing[..k]))
        invariant heights == Heights(Decoded(listing[..k]))
      {
        assert listing[..k + 1][..k] == listing[..k];
        match listing[k] {
          case Some(shape) =>
            WidthsHeightsAppend(Decoded(listing[..k]), [shape]);
            heights := heights + [shape.height];
            widths := widths + [shape.width];
          case None =>
        }
      }
      assert listing[..|listing|] == listing;
      imageCount := |widths|;
    }

    /**
      The inner loop over the lines of one label file (:54-57): each line
      adds one at its id in both `class_counts` and `total_counts`; the
      first refused line raises.
     */
    static method CountFile(lines: seq<string>, classCounts: Counts, totalCounts: Counts)
      returns (error: Option<Error>, newCounts: Counts, newTotals: Counts)
      requires classCounts.Keys == totalCounts.Keys
      ensures error.Some? <==> Tally(lines, classCounts).Failure?
      ensures error.Some? ==> error.value == Tally(lines, classCounts).error
      ensures error.None? ==> Tally(lines, classCounts) == Success(newCounts)
      ensures error.None? ==> Tally(lines, totalCounts) == Success(newTotals)
      ensures error.None? ==> newCounts.Keys == newTotals.Keys == classCounts.Keys
    {
      newCounts, newTotals := classCounts, totalCounts;
      for j := 0 to |lines|
        invariant Tally(lines[..j], classCounts) == Success(newCounts)
        invariant Tally(lines[..j], totalCounts) == Success(newTotals)
        invariant newCounts.Keys == newTotals.Keys == classCounts.Keys
      {
        var line := lines[j];
        assert lines[..j + 1] == lines[..j] + [line];
        TallySnoc(lines[..j], line, classCounts);
        TallySnoc(lines[..j], line, totalCounts);
        var parsed := LabelLines.ClassIdOf(line);
        if parsed.Failure? || parsed.value !in newCounts {
          error := Some(if parsed.Failure? then parsed.error else UnknownClass(parsed.value));
          TallyStopsAtFailure(lines, j + 1, classCounts);
          return;
        }
        var id := parsed.value;
        newCounts := newCounts[id := newCounts[id] + 1];
        newTotals := newTotals[id := newTotals[id] + 1];
      }
      assert lines[..|lines|] == lines;
      error := None;
    }

    /**
      The loop over a split's label files (:51-57): `class_counts` starts at
      zero for every configured id and the files are read one after the
      other.
     */
    static method CountLabels(ids: seq<int>, files: seq<seq<string>>, totalCounts: Counts)
      returns (error: Option<Error>, classCounts: Counts, newTotals: Counts)
      requires totalCounts.Keys == KeySet(ids)
      ensures error.Some? <==> Tally(AllLines(files), Zeros(ids)).Failure?
      ensures error.Some? ==> error.value == Tally(AllLines(files), Zeros(ids)).error
      ensures error.None? ==> Tally(AllLines(files), Zeros(ids)) == Success(classCounts)
      ensures error.None? ==> Tally(AllLines(files), totalCounts) == Success(newTotals)
      ensures error.None? ==> classCounts.Keys == newTotals.Keys == KeySet(ids)
    {
      classCounts := Zeros(ids);
      newTotals := totalCounts;
      for i := 0 to |files|
        invariant Tally(AllLines(files[..i]), Zeros(ids)) == Success(classCounts)
        invariant Tally(AllLines(files[..i]), totalCounts) == Success(newTotals)
        invariant classCounts.Keys == newTotals.Keys == KeySet(ids)
      {
        TallyNextFile(files, i, Zeros(ids));
        TallyNextFile(files, i, totalCounts);
        var fileError, fileCounts, fileTotals := CountFile(files[i], classCounts, newTotals);
        if fileError.Some? {
          error := fileError;
          TallyFailsInFile(files, i, Zeros(ids));
          return;
        }
        classCounts, newTotals := fileCounts, fileTotals;
      }
      assert files[..|files|] == files;
      error := None;
    }

    /**
      One pass of the split loop (:41-60) for split `k`: the image scan and
      its means, stored at :46-48, then the label files counted into a fresh
      `class_counts` and into `total_counts`, stored at :59-60. An error
      leaves the record as far as it got.
     */
    method ProcessSplit(fs: FileSystem, k: nat, totalCounts: Counts)
      returns (error: Option<Error>, newTotals: Counts, imageCount: nat)
      requires k < 3
      requires totalCounts.Keys == KeySet(config.classIds)
      requires SPLITS[k] in stats && stats[SPLITS[k]] == Pending
      modifies this
      ensures error == Processed(config, fs, k).error
      ensures stats == old(stats)[SPLITS[k] := Processed(config, fs, k).record]
      ensures error.None? ==> Tally(SplitLines(fs, Dirs(config)[k]), totalCounts) == Success(newTotals)
      ensures error.None? ==> newTotals.Keys == totalCounts.Keys
      ensures error.None? ==> imageCount == |SplitShapes(fs, Dirs(config)[k])|
    {
      var ids := config.classIds;
      var split, imagesDir := SPLITS[k], Dirs(config)[k];
      SplitSpecCases(ids, fs, imagesDir);
      newTotals, imageCount := totalCounts, 0;
      if imagesDir !in fs.images {
        error := Some(MissingDirectory(imagesDir));
        return;
      }
      var widths, heights;
      widths, heights, imageCount := GetImageSizesAndStats(fs.images[imagesDir]);
      var meanWidth := Mean(widths);
      var meanHeight := Mean(heights);
      stats := stats[split := Sized(meanWidth, meanHeight, imageCount)];
      var labelDir := LabelDir(imagesDir);
      if labelDir !in fs.labels {
        error := Some(MissingDirectory(labelDir));
        return;
      }
      var classCounts;
      error, classCounts, newTotals := CountLabels(ids, fs.labels[labelDir], totalCounts);
      if error.Some? {
        return;
      }
      stats := stats[split := Complete(meanWidth, meanHeight, imageCount, classCounts, SumValues(classCounts, ids))];
    }

    /**
      The second scan of the three image directories (:63-67): all decoded
      widths and heights, split after split.
     */
    method RescanSizes(fs: FileSystem) returns (allWidths: seq<nat>, allHeights: seq<nat>)
      requires AllSucceed(config, fs)
      ensures allWidths == Widths(ShapesBefore(config, fs, 3))
      ensures allHeights == Heights(ShapesBefore(config, fs, 3))
    {
      var dirs := Dirs(config);
      allWidths, allHeights := [], [];
      for k := 0 to |SPLITS|
        invariant allWidths == Widths(ShapesBefore(config, fs, k))
        invariant allHeights == Heights(ShapesBefore(config, fs, k))
      {
        assert Processed(config, fs, k).error.None?;
        var widths, heights, _ := GetImageSizesAndStats(fs.images[dirs[k]]);
        WidthsHeightsAppend(ShapesBefore(config, fs, k), SplitShapes(fs, dirs[k]));
        allWidths := allWidths + widths;
        allHeights := allHeights + heights;
      }
    }

    /**
      The split loop of `analyze_dataset` (:36-60): `stats` reset, then one
      pass per split until one raises, the running table and image count
      carried from pass to pass.
     */
    method ProcessSplits(fs: FileSystem) returns (error: Option<Error>, totalCounts: Counts, totalImageCount: nat)
      modifies this
      ensures error.None? <==> AllSucceed(config, fs)
      ensures error.None? ==>
        && stats == StatsAfter(config, fs, 3)
        && Tally(LinesBefore(config, fs, 3), Zeros(config.classIds)) == Success(totalCounts)
        && totalCounts.Keys == KeySet(config.classIds)
        && totalImageCount == |ShapesBefore(config, fs, 3)|
      ensures forall k: nat :: FailsFirstAt(config, fs, k) ==>
        error == Processed(config, fs, k).error && stats == StatsAfter(config, fs, k + 1)
    {
      var ids := config.classIds;
      var dirs := Dirs(config);
      stats := InitialStats();
      totalCounts := Zeros(ids);
      totalImageCount := 0;
      for k := 0 to |SPLITS|
        invariant stats == StatsAfter(config, fs, k)
        invariant forall j :: 0 <= j < k ==> Processed(config, fs, j).error.None?
        invariant Tally(LinesBefore(config, fs, k), Zeros(ids)) == Success(totalCounts)
        invariant totalCounts.Keys == KeySet(ids)
        invariant totalImageCount == |ShapesBefore(config, fs, k)|
      {
        StatsAfterPending(config, fs, k, k);
        var newTotals, imageCount;
        error, newTotals, imageCount := ProcessSplit(fs, k, totalCounts);
        if error.Some? {
          FirstFailure(config, fs, k);
          return;
        }
        TallyAppend(LinesBefore(config, fs, k), SplitLines(fs, dirs[k]), Zeros(ids));
        totalCounts := newTotals;
        totalImageCount := totalImageCount + imageCount;
      }
      error := None;
    }

    /**
      `analyze_dataset` (:30-73): the split loop, then the `total` record.
      The first error raised ends the run, leaving `stats` as filled so far.
     */
    method AnalyzeDataset(fs: FileSystem) returns (outcome: Outcome)
      modifies this
      ensures AllSucceed(config, fs) ==> outcome == Pass && stats == FinalStats(config, fs)
      ensures forall k: nat :: FailsFirstAt(config, fs, k) ==>
        && outcome == Fail(Processed(config, fs, k).error.value)
        && stats == StatsAfter(config, fs, k + 1)
      ensures outcome.Pass? ==> ReportConsistent(config.classIds, stats)
    {
      var error, totalCounts, totalImageCount := ProcessSplits(fs);
      if error.Some? {
        outcome := Fail(error.value);
        return;
      }
      FillTotal(fs, totalCounts, totalImageCount);
      outcome := Pass;
    }

    /**
      The `total` record (:63-73): the means of the second scan, the running
      table and its sum, and the running image count.
     */
    method FillTotal(fs: FileSystem, totalCounts: Counts, totalImageCount: nat)
      requires AllSucceed(config, fs)
      requires stats == StatsAfter(config, fs, 3)
      requires Tally(LinesBefore(config, fs, 3), Zeros(config.classIds)) == Success(totalCounts)
      requires totalCounts.Keys == KeySet(config.classIds)
      requires totalImageCount == |ShapesBefore(config, fs, 3)|
      modifies this
      ensures stats == FinalStats(config, fs)
      ensures ReportConsistent(config.classIds, stats)
    {
      var allWidths, allHeights := RescanSizes(fs);
      var totalRecord := Complete(Mean(allWidths), Mean(allHeights), totalImageCount,
                                  totalCounts, SumValues(totalCounts, config.classIds));
      TotalRecordAssembled(config, fs, allWidths, allHeights, totalImageCount, totalCounts);
      stats := stats[Total := totalRecord];
      FinalStatsConsistent(config, fs);
    }
  }
}
