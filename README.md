# Dataset statistics kernel of a YOLO dataset analyzer

This project models in Dafny the counting and aggregation kernel of
`DatasetAnalyzer` in `yolo_dataset_stats.py`, a small tool that reports
statistics on an object-detection dataset in YOLO layout. The dataset has
three splits (train, val, test). Each split has an image directory, and a
sibling label directory whose path is the image directory's path with
`images` replaced by `labels`. Each label file holds one annotation per
line, and the first token of a line is the integer class id.

For each split, `analyze_dataset` does the following:

- it scans the image directory and keeps the width and height of every image that decodes;
- it computes the mean width and height, or 0 when no image decoded;
- it counts the annotations per configured class id, in a fresh table and in a running total;
- it stores the results in the `stats` record of that split.

After the three splits, it scans the image directories again for the means of the whole dataset and fills in the `total` record. The first error ends the run: a missing directory, a blank label line, a first token that is not an integer, or a class id that is not configured. Whatever `stats` held at that point is left in place. An image that does not decode is skipped silently.

The model has six modules:

- `Outcomes`: the `Option` and `Result` types and the four errors the kernel can raise.
- `PathRewrite`: Python's `str.replace` for a non-empty pattern, and the label-directory derivation.
- `LabelLines`: `int(line.split()[0])`. It covers Python's whitespace set, the optional sign, digits with single underscores, the IndexError on a blank line and the ValueError on a token that is not an integer.
- `ClassCounts`: the class-count table. `Step` handles one line, `Tally` a sequence of lines that stops at the first refused one, and `Count` is the reference count it is checked against.
- `ImageSizes`: the decoded shapes, the means, and the weighted recombination of means.
- `Analyzer`: the `DatasetAnalyzer` class, with `stats` as a mutable field. It also holds the functions that specify each split pass (`SplitSpec`) and the whole run (`StatsAfter`, `FinalStats`), and the report invariant `ReportConsistent`.

The filesystem is an immutable snapshot. It has a listing per image directory, giving each entry's decoding result, and a listing per label directory, giving each file's lines. A directory that is missing from the snapshot is one on which `os.listdir` raises. Integers are unbounded, as Python's are, except that `int` refuses a decimal string of more than 4300 digits, as CPython does by default from version 3.11 on (and in the security releases of 3.7-3.10). Means are exact rationals (`real`).

## Model

| member | source | states |
|---|---|---|
| PathRewrite.ReplaceAll | yolo_dataset_stats.py:50 | replacing a pattern by one of the same length keeps the length; a string without the pattern is returned unchanged |
| PathRewrite.LabelDir | yolo_dataset_stats.py:50 | the label directory has the length of the image directory (both words have six letters) and equals it when it contains no `images` |
| PathRewrite.SingleSegmentReplaced | yolo_dataset_stats.py:50 | a path holding `images` exactly once has that segment turned into `labels` and is otherwise identical |
| PathRewrite.CleanPrefixKept | yolo_dataset_stats.py:50 | text before the first `images` is copied unchanged |
| PathRewrite.NoImagesRemain | yolo_dataset_stats.py:50 | every occurrence is replaced: no `images` is left in the label directory, including across the replaced segments |
| PathRewrite.LabelDirRoundTrip | yolo_dataset_stats.py:50 | for a path that does not contain `labels`, replacing `labels` by `images` in the label directory gives back the image directory |
| LabelLines.FirstToken | yolo_dataset_stats.py:55 | `line.split()[0]`, or nothing on a line where `split()` gives an empty list; its meaning is stated by `FirstTokenMeaning` and `FirstTokenOfLayout` |
| LabelLines.WordShape | yolo_dataset_stats.py:55 | a word is a whitespace-free prefix that ends at whitespace or at the end of the line |
| LabelLines.FirstTokenMeaning | yolo_dataset_stats.py:55 | `split()` finds no first token exactly on a blank line; a token it finds is non-empty and free of whitespace |
| LabelLines.FirstTokenOfLayout | yolo_dataset_stats.py:55 | after leading whitespace, the first token is the word up to the next whitespace |
| LabelLines.ParseIntChars | yolo_dataset_stats.py:55 | a token `int` accepts holds only digits, underscores and a leading sign, ends in a digit, and has at most 4300 digits |
| LabelLines.ParseInt | yolo_dataset_stats.py:55 | `int(tok)`: an optional sign, then digits with single underscores between them, at most 4300 digits; anything else raises ValueError. `ParseIntChars` and `ParseShowInt` state what it accepts and that it reads back `str` |
| LabelLines.ParseShowInt | yolo_dataset_stats.py:55 | `int(str(n)) == n` for every integer of at most 4300 digits (where `str(n)` itself succeeds), negatives included |
| LabelLines.ClassIdOf | yolo_dataset_stats.py:55 | reading a class id fails only with IndexError (blank line) or ValueError (not an integer) |
| LabelLines.ClassIdOfMeaning | yolo_dataset_stats.py:55 | IndexError occurs exactly on blank lines; ValueError occurs exactly when the line has a first token that `int` refuses, and carries that token; in particular a first token of more than 4300 digits raises ValueError |
| LabelLines.ClassIdOfLabelLine | yolo_dataset_stats.py:55 | a line written as `<id> <x> <y> <w> <h>`, with optional indentation, yields its id |
| ClassCounts.Zeros | yolo_dataset_stats.py:37 | the fresh table has exactly the configured ids as keys, all at 0 |
| ClassCounts.Step | yolo_dataset_stats.py:55-57 | a line fails exactly when it is blank, not an integer, or names an id outside the table (KeyError, no key is created); otherwise it adds one at its id, keeps the keys and leaves every other entry unchanged |
| ClassCounts.Tally | yolo_dataset_stats.py:52-57 | the loop over label lines: `Step` on each line in order, stopping at the first refused one; its meaning is stated by `TallyMeaning` |
| ClassCounts.TallyMeaning | yolo_dataset_stats.py:52-57 | counting the lines succeeds exactly when every line is accepted; the table then keeps its keys and adds to each id the number of lines naming it; otherwise the error is the rejection of the first refused line, and every line before it is accepted |
| ClassCounts.TallyFirstRejection | yolo_dataset_stats.py:52-57 | a failed count fails at a refused line, and every line before that one is accepted |
| ClassCounts.TallyAccepted | yolo_dataset_stats.py:52-57 | in a count that succeeds, every line is accepted |
| ClassCounts.TallyStopsAtFailure | yolo_dataset_stats.py:52-57 | once a refused line is reached, the lines after it are never read |
| ClassCounts.TallyAppend | yolo_dataset_stats.py:52-57 | counting two runs of lines one after the other equals counting their concatenation |
| ClassCounts.AllLinesAppend | yolo_dataset_stats.py:52-54 | reading two groups of files one after the other reads the lines of both, in order |
| ClassCounts.CountAppend | yolo_dataset_stats.py:52-57 | the reference count of an id is additive over concatenated lines |
| ClassCounts.SumValues | yolo_dataset_stats.py:60 | `sum(counts.values())` over the configured ids; `TallySum`, `SplitTable` and `SumValuesAdd` state its value |
| ClassCounts.SumValuesZeros | yolo_dataset_stats.py:37 | the fresh table sums to 0 |
| ClassCounts.StepSum | yolo_dataset_stats.py:55-60 | a counted line adds exactly one to the sum of the table |
| ClassCounts.TallySum | yolo_dataset_stats.py:54-60 | every counted line adds exactly one to the sum of the table |
| ClassCounts.SplitTable | yolo_dataset_stats.py:51-60 | a split's table holds, per configured id, the number of lines naming it, and sums to the number of label lines read |
| ClassCounts.SumValuesAdd | yolo_dataset_stats.py:60-73 | the sum of a table that adds up three tables per id is the sum of their sums |
| ClassCounts.TotalTable | yolo_dataset_stats.py:37-73 | when the three splits' counts succeed, the count over all their lines succeeds; per id it is the sum of the three splits' counts, and `total_individuals` is the sum of the three splits' |
| ImageSizes.Decoded | yolo_dataset_stats.py:22-28 | the decoded images are the listed entries minus the ones that failed to decode, and every decoded shape comes from the listing |
| ImageSizes.DecodedAppend | yolo_dataset_stats.py:22-28 | decoding two listings one after the other gives the decoded images of both, in order |
| ImageSizes.Sum | yolo_dataset_stats.py:42-43 | `sum(widths)`; `SumAppend` makes it additive and `Mean` is tied to it |
| ImageSizes.SumAppend | yolo_dataset_stats.py:66-70 | the sum of sizes put together with `extend` is the sum of their sums |
| ImageSizes.Mean | yolo_dataset_stats.py:42-43 | the mean of no sizes is 0, not a division by zero; counted once per size, the mean gives back the sum |
| ImageSizes.MeanBounds | yolo_dataset_stats.py:42-43 | a mean lies between the smallest and the largest size |
| ImageSizes.PooledMean | yolo_dataset_stats.py:63-70 | the mean of three lists of sizes put together is the average of their means weighted by their lengths |
| ImageSizes.PooledWidths | yolo_dataset_stats.py:63-70 | the total mean width is the split mean widths weighted by image count |
| ImageSizes.PooledHeights | yolo_dataset_stats.py:63-70 | the total mean height is the split mean heights weighted by image count |
| Analyzer.InitialStats | yolo_dataset_stats.py:36 | `stats` reset to four empty records; `StatsAfterPending` states that the splits not yet reached stay empty |
| Analyzer.SplitSpec | yolo_dataset_stats.py:41-60 | one pass of the split loop as a value: the record it leaves and the error it raises; its meaning is stated by `SplitRecordMeaning` and `SplitFailureMeaning` |
| Analyzer.StatsAfter | yolo_dataset_stats.py:40-60 | `stats` after the first k passes; `ThreeRecords` and `FinalRecords` state its final value |
| Analyzer.StatsAfterPending | yolo_dataset_stats.py:36-60 | after k passes, `stats` has the four keys, and the records of the splits not yet reached and of `total` are still empty |
| Analyzer.TotalSpec | yolo_dataset_stats.py:63-73 | the `total` record: the means of all decoded images and the table of all label lines; `FinalRecords` and `FinalStatsConsistent` state what it adds up to |
| Analyzer.RecordOf | yolo_dataset_stats.py:46-60 | a filled-in record has exactly the configured ids in its table, `total_individuals` equal to the sum of that table, and mean sizes 0 when it has no images |
| Analyzer.PooledRecord | yolo_dataset_stats.py:63-73 | the record of three splits put together adds them up: image counts, per-class counts and individuals are sums, and the means are the split means weighted by image count |
| Analyzer.ConsistentReport | yolo_dataset_stats.py:36-73 | four records built from the splits, with a total table that adds up the three, satisfy the report invariant |
| Analyzer.FinalRecords | yolo_dataset_stats.py:40-73 | after a run that raised nothing, each split's record is built from its own images and label lines, and the total record from all of them |
| Analyzer.FinalStatsConsistent | yolo_dataset_stats.py:36-73 | a run that raises nothing leaves four records, each well formed, with a `total` that adds up train, val and test |
| Analyzer.SplitRecordMeaning | yolo_dataset_stats.py:41-60 | for a split that raised nothing: `image_count` is the number of entries that decoded; each mean counted once per image gives the total width or height; per configured id, the table holds the number of label lines naming it; `total_individuals` is the number of label lines |
| Analyzer.SplitFailureMeaning | yolo_dataset_stats.py:41-57 | a split raises exactly when its image or label directory is missing, or one of its label lines is blank, not an integer, or names an id that is not configured |
| Analyzer.FirstFailure | yolo_dataset_stats.py:40-60 | a split that raises after the earlier ones did not is the only first failure, and the run does not succeed |
| Analyzer.DatasetAnalyzer.constructor | yolo_dataset_stats.py:9-12 | the analyzer keeps its configuration and starts with empty `stats`; the class ids must be distinct, as the keys of a dict are |
| Analyzer.DatasetAnalyzer.GetImageSizesAndStats | yolo_dataset_stats.py:19-28 | returns the widths and heights of the decoded entries in listing order; the count equals both lengths, and together with the failed entries it makes up the listing |
| Analyzer.DatasetAnalyzer.CountFile | yolo_dataset_stats.py:54-57 | the lines of one file are added to both the split table and the running total, with the same keys; the error is that of the first refused line |
| Analyzer.DatasetAnalyzer.CountLabels | yolo_dataset_stats.py:51-57 | a split's files, read in order, give the count of all its lines from zero and the running total extended by the same lines; the error is that of the first refused line |
| Analyzer.DatasetAnalyzer.ProcessSplit | yolo_dataset_stats.py:41-60 | one pass of the split loop raises the split's error and leaves its record exactly as the specified pass does (empty, sizes only, or complete); the running total absorbs the split's lines and the image count is its decoded images |
| Analyzer.DatasetAnalyzer.RescanSizes | yolo_dataset_stats.py:63-67 | the second scan collects the decoded widths and heights of train, val and test, in that order |
| Analyzer.DatasetAnalyzer.ProcessSplits | yolo_dataset_stats.py:36-60 | the split loop raises exactly when some split does; when none does, `stats` holds the three split records and the running table and image count cover all three splits; when split k is the first to raise, the loop raises its error and `stats` is as left after pass k |
| Analyzer.DatasetAnalyzer.FillTotal | yolo_dataset_stats.py:63-73 | after a run with no error, the second scan and the running totals fill in `total` so that `stats` is the specified final report, which satisfies the report invariant |
| Analyzer.DatasetAnalyzer.AnalyzeDataset | yolo_dataset_stats.py:30-73 | when no split raises, the run passes and `stats` is the specified final report, which satisfies the report invariant; when split k is the first to raise, the run fails with its error and `stats` is as left after pass k |

## Left out

- The loading of the YAML configuration (yolo_dataset_stats.py:14-17) is left out. `Config` is the loaded value: the three image directories and the keys of `names`, in order. The keys are integers, and the constructor requires them to be distinct, as the keys of a `names` dict are. A `names` list, or a missing field, is not modelled.
- Image decoding by `cv2.imread` and `img.shape` (yolo_dataset_stats.py:24-27) is a foreign call. Each directory entry comes with its decoding result as a value.
- The order of `os.listdir` is implementation-defined and is given by the snapshot. `os.path.join` and `open` are left out. A label file is given as its lines, so line splitting and encodings are not modelled. So is the error path of an entry that `open` or the line loop cannot read (yolo_dataset_stats.py:53-54), such as a subdirectory (IsADirectoryError) or a file that is not valid text (UnicodeDecodeError): in the source these abort the run, and the model cannot express them.
- Analyzer.DatasetAnalyzer.RescanSizes reads the same snapshot as the first scan. Directories that change between the two scans are not modelled.
- Floating-point rounding is left out. Means are exact `real`s, and the integer `0` of an empty mean is the real 0. The weighted recombination of means is therefore exact, and `ImageSizes.PooledMean` holds for rationals, not for IEEE doubles.
- `display_stats` (yolo_dataset_stats.py:75-86) only prints, so it is left out, as is the unused `pandas` import.
- PathRewrite.ReplaceAll requires a non-empty pattern. Python's behaviour for an empty pattern is not modelled, because the source only calls it with `images`.
- LabelLines.ParseInt uses CPython's default limit of 4300 digits. A limit changed with `sys.set_int_max_str_digits` or `PYTHONINTMAXSTRDIGITS`, and older interpreters without a limit, are not modelled.
- LabelLines.ParseInt accepts ASCII digits only. Python's `int` also accepts other Unicode decimal digits, which this model refuses.
- Exceptions are values of `Error`: MissingDirectory stands for the listing OSError, BlankLine for IndexError, NotAnInteger for ValueError and UnknownClass for KeyError. The exception class hierarchy and the tracebacks are not modelled.
- `analyze_dataset` is factored into methods: `ProcessSplits` is the split loop and `ProcessSplit` its body, `CountLabels` and `CountFile` are the file and line loops, and `FillTotal` with `RescanSizes` covers the second scan and the `total` record. The writes to `stats` and the points where the run raises keep the source's order. The running image count and the running total table are committed only after a pass succeeds, whereas the source updates them during the pass (yolo_dataset_stats.py:44, :57); they are locals that an error discards, so the difference is not observable. Likewise each split's fresh table is created after its label directory is found, not before (yolo_dataset_stats.py:51-52).
