/**
  The class-count table of the analysis kernel (yolo_dataset_stats.py:37,
  :51-60): a dict from class id to count, created with every configured id
  at 0, to which each label line adds one at the id it names. The table is
  indexed and never extended, so an id outside the configuration raises
  KeyError and aborts the run.

  Class ids are the keys of the configuration's `names` dict, in the dict's
  order; as dict keys they are distinct. `sum(counts.values())` visits the
  values in that same order.
 */
module ClassCounts {
  import opened Outcomes
  import opened LabelLines

  type Counts = map<int, nat>

  predicate Distinct(ids: seq<int>) {
    forall i, j :: 0 <= i < j < |ids| ==> ids[i] != ids[j]
  }

  function KeySet(ids: seq<int>): set<int> {
    set id | id in ids
  }

  /** `{class_id: 0 for class_id in classes}` */
  function Zeros(ids: seq<int>): (m: Counts)
    ensures m.Keys == KeySet(ids)
    ensures forall id :: id in m ==> m[id] == 0
  {
    map id | id in ids :: 0
  }

  /** `sum(counts.values())`, the values visited in key order. */
  function SumValues(m: Counts, ids: seq<int>): nat
    requires forall i :: 0 <= i < |ids| ==> ids[i] in m
    decreases |ids|
  {
    if ids == [] then 0 else m[ids[0]] + SumValues(m, ids[1..])
  }

  /** Why a line is refused by a table with the given keys; None when it is counted. */
  function Rejection(line: string, keys: set<int>): Option<Error> {
    match ClassIdOf(line)
    case Failure(e) => Some(e)
    case Success(id) => if id in keys then None else Some(UnknownClass(id))
  }

  /**
    One line of the inner loop (:55-56): parse the id, then
    `counts[class_id] += 1`.
   */
  function Step(counts: Counts, line: string): (r: Result<Counts>)
    ensures r.Failure? <==> Rejection(line, counts.Keys).Some?
    ensures r.Failure? ==> Rejection(line, counts.Keys) == Some(r.error)
    ensures r.Success? ==>
      var id := ClassIdOf(line).value;
      && r.value.Keys == counts.Keys
      && r.value[id] == counts[id] + 1
      && forall k :: k in counts && k != id ==> r.value[k] == counts[k]
  {
    match ClassIdOf(line)
    case Failure(e) => Failure(e)
    case Success(id) =>
      if id in counts then Success(counts[id := counts[id] + 1]) else Failure(UnknownClass(id))
  }

  /** The table after the lines, in order, starting from `counts`; the first refused line aborts. */
  function Tally(lines: seq<string>, counts: Counts): Result<Counts>
    decreases |lines|
  {
    if lines == [] then Success(counts)
    else
      match Tally(lines[..|lines| - 1], counts)
      case Failure(e) => Failure(e)
      case Success(c) => Step(c, lines[|lines| - 1])
  }

  /** How many of the lines name class `id`: the reference the table is checked against. */
  function Count(lines: seq<string>, id: int): nat
    decreases |lines|
  {
    if lines == [] then 0
    else Count(lines[..|lines| - 1], id) + (if ClassIdOf(lines[|lines| - 1]) == Success(id) then 1 else 0)
  }

  /** The lines of several files read one file after the other. */
  function AllLines(files: seq<seq<string>>): seq<string>
    decreases |files|
  {
    if files == [] then [] else AllLines(files[..|files| - 1]) + files[|files| - 1]
  }

  /**
    The table succeeds exactly when every line is accepted; it then keeps its
    keys and adds to each id the number of lines naming it. Otherwise it
    fails with the rejection of the first refused line.
   */
  lemma {:induction false} TallyMeaning(lines: seq<string>, c: Counts)
    ensures Tally(lines, c).Success? <==> forall j :: 0 <= j < |lines| ==> Rejection(lines[j], c.Keys).None?
    ensures Tally(lines, c).Success? ==>
      && Tally(lines, c).value.Keys == c.Keys
      && forall id :: id in c ==> Tally(lines, c).value[id] == c[id] + Count(lines, id)
    ensures Tally(lines, c).Failure? ==>
      exists k :: 0 <= k < |lines|
        && Rejection(lines[k], c.Keys) == Some(Tally(lines, c).error)
        && forall j :: 0 <= j < k ==> Rejection(lines[j], c.Keys).None?
  {
    TallyCounts(lines, c);
    if Tally(lines, c).Success? {
      TallyAccepted(lines, c);
    } else {
      TallyFirstRejection(lines, c);
    }
  }

  /** A table that succeeds keeps its keys and adds to each id the number of lines naming it. */
  lemma {:induction false} TallyCounts(lines: seq<string>, c: Counts)
    ensures Tally(lines, c).Success? ==>
      && Tally(lines, c).value.Keys == c.Keys
      && forall id :: id in c ==> Tally(lines, c).value[id] == c[id] + Count(lines, id)
    decreases |lines|
  {
    if lines != [] {
      TallyCounts(lines[..|lines| - 1], c);
    }
  }

  /** A table that succeeds has accepted line `j`. */
  lemma {:induction false} TallyAcceptedAt(lines: seq<string>, c: Counts, j: nat)
    requires Tally(lines, c).Success? && j < |lines|
    ensures Rejection(lines[j], c.Keys).None?
    decreases |lines|
  {
    var n := |lines| - 1;
    var front := lines[..n];
    assert Tally(front, c).Success?;
    var m := Tally(front, c).value;
    if j < n {
      TallyAcceptedAt(front, c, j);
      assert lines[j] == front[j];
    } else {
      assert m.Keys == c.Keys by { TallyCounts(front, c); }
      assert Step(m, lines[n]).Success?;
    }
  }

  /** A table that succeeds has accepted every line. */
  lemma TallyAccepted(lines: seq<string>, c: Counts)
    requires Tally(lines, c).Success?
    ensures forall j :: 0 <= j < |lines| ==> Rejection(lines[j], c.Keys).None?
  {
    forall j | 0 <= j < |lines| ensures Rejection(lines[j], c.Keys).None? {
      TallyAcceptedAt(lines, c, j);
    }
  }

  /** A table that fails does so with the rejection of the first refused line. */
  lemma {:induction false} TallyFirstRejection(lines: seq<string>, c: Counts)
    ensures Tally(lines, c).Failure? ==>
      exists k :: 0 <= k < |lines|
        && Rejection(lines[k], c.Keys) == Some(Tally(lines, c).error)
        && forall j :: 0 <= j < k ==> Rejection(lines[j], c.Keys).None?
    decreases |lines|
  {
    if lines != [] {
      var n := |lines| - 1;
      var front := lines[..n];
      TallyFirstRejection(front, c);
      assert forall j :: 0 <= j < n ==> front[j] == lines[j];
      match Tally(front, c)
      case Failure(e) =>
        var k :| 0 <= k < n && Rejection(front[k], c.Keys) == Some(e)
          && forall j :: 0 <= j < k ==> Rejection(front[j], c.Keys).None?;
        assert Rejection(lines[k], c.Keys) == Some(Tally(lines, c).error);
      case Success(m) =>
        TallyAccepted(front, c);
        assert m.Keys == c.Keys by { TallyCounts(front, c); }
        if Tally(lines, c).Failure? {
          assert Rejection(lines[n], c.Keys) == Some(Tally(lines, c).error);
        }
    }
  }

  /** One more line is one more `Step` on the table so far. */
  lemma TallySnoc(lines: seq<string>, line: string, c: Counts)
    requires Tally(lines, c).Success?
    ensures Tally(lines + [line], c) == Step(Tally(lines, c).value, line)
  {
    assert (lines + [line])[..|lines|] == lines;
  }

  /** Once a prefix of the lines is refused, the rest is never read. */
  lemma {:induction false} TallyStopsAtFailure(lines: seq<string>, k: nat, c: Counts)
    requires k <= |lines|
    requires Tally(lines[..k], c).Failure?
    ensures Tally(lines, c) == Tally(lines[..k], c)
    decreases |lines| - k
  {
    if k < |lines| {
      var front := lines[..|lines| - 1];
      assert front[..k] == lines[..k];
      TallyStopsAtFailure(front, k, c);
    } else {
      assert lines[..k] == lines;
    }
  }

  /** Counting two runs of lines one after the other is counting their concatenation. */
  lemma {:induction false} TallyAppend(a: seq<string>, b: seq<string>, c: Counts)
    requires Tally(a, c).Success?
    ensures Tally(a + b, c) == Tally(b, Tally(a, c).value)
    decreases |b|
  {
    if b == [] {
      assert a + b == a;
    } else {
      var front := b[..|b| - 1];
      TallyAppend(a, front, c);
      assert (a + b)[..|a + b| - 1] == a + front;
      assert (a + b)[|a + b| - 1] == b[|b| - 1];
    }
  }

  lemma {:induction false} CountAppend(a: seq<string>, b: seq<string>, id: int)
    ensures Count(a + b, id) == Count(a, id) + Count(b, id)
    decreases |b|
  {
    if b == [] {
      assert a + b == a;
    } else {
      var front := b[..|b| - 1];
      CountAppend(a, front, id);
      assert (a + b)[..|a + b| - 1] == a + front;
      assert (a + b)[|a + b| - 1] == b[|b| - 1];
    }
  }

  lemma {:induction false} AllLinesAppend(a: seq<seq<string>>, b: seq<seq<string>>)
    ensures AllLines(a + b) == AllLines(a) + AllLines(b)
    decreases |b|
  {
    if b == [] {
      assert a + b == a;
    } else {
      var front := b[..|b| - 1];
      AllLinesAppend(a, front);
      assert (a + b)[..|a + b| - 1] == a + front;
      assert (a + b)[|a + b| - 1] == b[|b| - 1];
    }
  }

  /** The lines read before file `i` is finished form a prefix of all the lines. */
  lemma AllLinesPrefix(files: seq<seq<string>>, i: nat, j: nat)
    requires i < |files| && j <= |files[i]|
    ensures |AllLines(files[..i])| + j <= |AllLines(files)|
    ensures AllLines(files[..i]) + files[i][..j]
         == AllLines(files)[..|AllLines(files[..i])| + j]
  {
    assert files == files[..i] + ([files[i]] + files[i + 1..]);
    AllLinesAppend(files[..i], [files[i]] + files[i + 1..]);
    AllLinesAppend([files[i]], files[i + 1..]);
    assert AllLines([files[i]]) == AllLines([]) + files[i];
    assert [files[i]][..0] == [];
  }

  /** Reading file `i` after the files before it continues the table where they left it. */
  lemma TallyNextFile(files: seq<seq<string>>, i: nat, c: Counts)
    requires i < |files|
    requires Tally(AllLines(files[..i]), c).Success?
    ensures Tally(AllLines(files[..i + 1]), c) == Tally(files[i], Tally(AllLines(files[..i]), c).value)
  {
    assert files[..i + 1][..i] == files[..i];
    TallyAppend(AllLines(files[..i]), files[i], c);
  }

  /** A file whose lines make the running table fail makes the table of all the files fail the same way. */
  lemma TallyFailsInFile(files: seq<seq<string>>, i: nat, c: Counts)
    requires i < |files|
    requires Tally(AllLines(files[..i]), c).Success?
    requires Tally(files[i], Tally(AllLines(files[..i]), c).value).Failure?
    ensures Tally(AllLines(files), c) == Tally(files[i], Tally(AllLines(files[..i]), c).value)
  {
    var done, all := AllLines(files[..i]), AllLines(files);
    var n := |done| + |files[i]|;
    AllLinesPrefix(files, i, |files[i]|);
    assert files[i][..|files[i]|] == files[i];
    assert all[..n] == done + files[i];
    TallyAppend(done, files[i], c);
    TallyStopsAtFailure(all, n, c);
  }

  lemma {:induction false} SumValuesZeros(ids: seq<int>)
    ensures SumValues(Zeros(ids), ids) == 0
    decreases |ids|
  {
    if ids != [] {
      SumValuesOn(Zeros(ids), Zeros(ids[1..]), ids[1..]);
      SumValuesZeros(ids[1..]);
    }
  }

  /** The sum only looks at the listed keys. */
  lemma {:induction false} SumValuesOn(m: Counts, m': Counts, ids: seq<int>)
    requires forall i :: 0 <= i < |ids| ==> ids[i] in m && ids[i] in m' && m[ids[i]] == m'[ids[i]]
    ensures SumValues(m, ids) == SumValues(m', ids)
    decreases |ids|
  {
    if ids != [] {
      SumValuesOn(m, m', ids[1..]);
    }
  }

  /** Adding one at a listed key adds one to the sum. */
  lemma {:induction false} SumValuesIncrement(m: Counts, ids: seq<int>, i: nat)
    requires Distinct(ids) && i < |ids|
    requires forall j :: 0 <= j < |ids| ==> ids[j] in m
    ensures SumValues(m[ids[i] := m[ids[i]] + 1], ids) == SumValues(m, ids) + 1
    decreases |ids|
  {
    var m' := m[ids[i] := m[ids[i]] + 1];
    if i == 0 {
      SumValuesOn(m', m, ids[1..]);
    } else {
      SumValuesIncrement(m, ids[1..], i - 1);
    }
  }

  /** A counted line adds exactly one individual to the table's sum. */
  lemma StepSum(m: Counts, line: string, ids: seq<int>)
    requires Distinct(ids) && m.Keys == KeySet(ids)
    requires Step(m, line).Success?
    ensures SumValues(Step(m, line).value, ids) == SumValues(m, ids) + 1
  {
    var id := ClassIdOf(line).value;
    assert Step(m, line).value == m[id := m[id] + 1];
    var i :| 0 <= i < |ids| && ids[i] == id;
    SumValuesIncrement(m, ids, i);
  }

  /** Every counted line adds exactly one individual to the table's sum. */
  lemma {:induction false} TallySum(lines: seq<string>, c: Counts, ids: seq<int>)
    requires Distinct(ids) && c.Keys == KeySet(ids)
    requires Tally(lines, c).Success?
    ensures Tally(lines, c).value.Keys == c.Keys
    ensures SumValues(Tally(lines, c).value, ids) == SumValues(c, ids) + |lines|
    decreases |lines|
  {
    assert Tally(lines, c).value.Keys == c.Keys by { TallyCounts(lines, c); }
    if lines != [] {
      var front := lines[..|lines| - 1];
      assert Tally(front, c).Success?;
      TallySum(front, c, ids);
      StepSum(Tally(front, c).value, lines[|lines| - 1], ids);
    }
  }

  /**
    The table of one split, started from zero: exactly the configured ids as
    keys, each holding the number of lines naming it, and its values summing
    to the number of lines read.
   */
  lemma SplitTable(lines: seq<string>, ids: seq<int>)
    requires Distinct(ids)
    requires Tally(lines, Zeros(ids)).Success?
    ensures Tally(lines, Zeros(ids)).value.Keys == KeySet(ids)
    ensures forall id :: id in ids ==> Tally(lines, Zeros(ids)).value[id] == Count(lines, id)
    ensures SumValues(Tally(lines, Zeros(ids)).value, ids) == |lines|
  {
    TallyMeaning(lines, Zeros(ids));
    TallySum(lines, Zeros(ids), ids);
    SumValuesZeros(ids);
  }

  /** The sum is additive over a pointwise sum of tables. */
  lemma {:induction false} SumValuesAdd(t: Counts, a: Counts, b: Counts, c: Counts, ids: seq<int>)
    requires forall i :: 0 <= i < |ids| ==> ids[i] in t && ids[i] in a && ids[i] in b && ids[i] in c
    requires forall i :: 0 <= i < |ids| ==> t[ids[i]] == a[ids[i]] + b[ids[i]] + c[ids[i]]
    ensures SumValues(t, ids) == SumValues(a, ids) + SumValues(b, ids) + SumValues(c, ids)
    decreases |ids|
  {
    if ids != [] {
      SumValuesAdd(t, a, b, c, ids[1..]);
    }
  }

  /**
    The running total table, fed every line of the three splits in turn,
    succeeds when each split's table does, and then holds per class the sum
    of the three splits' counts, and per table the sum of their sums.
   */
  lemma TotalTable(l0: seq<string>, l1: seq<string>, l2: seq<string>, ids: seq<int>)
    requires Tally(l0, Zeros(ids)).Success?
    requires Tally(l1, Zeros(ids)).Success?
    requires Tally(l2, Zeros(ids)).Success?
    ensures Tally(l0 + l1 + l2, Zeros(ids)).Success?
    ensures
      var t, c0, c1, c2 := Tally(l0 + l1 + l2, Zeros(ids)).value,
        Tally(l0, Zeros(ids)).value, Tally(l1, Zeros(ids)).value, Tally(l2, Zeros(ids)).value;
      && t.Keys == c0.Keys == c1.Keys == c2.Keys == KeySet(ids)
      && (forall id :: id in ids ==> t[id] == c0[id] + c1[id] + c2[id])
      && SumValues(t, ids) == SumValues(c0, ids) + SumValues(c1, ids) + SumValues(c2, ids)
  {
    var z := Zeros(ids);
    var all := l0 + l1 + l2;
    TallyMeaning(l0, z);
    TallyMeaning(l1, z);
    TallyMeaning(l2, z);
    forall j | 0 <= j < |all| ensures Rejection(all[j], z.Keys).None? {
      if j < |l0| {
        assert all[j] == l0[j];
      } else if j < |l0| + |l1| {
        assert all[j] == l1[j - |l0|];
      } else {
        assert all[j] == l2[j - |l0| - |l1|];
      }
    }
    TallyMeaning(all, z);
    var t, c0, c1, c2 := Tally(all, z).value, Tally(l0, z).value, Tally(l1, z).value, Tally(l2, z).value;
    forall id | id in ids ensures t[id] == c0[id] + c1[id] + c2[id] {
      CountAppend(l0 + l1, l2, id);
      CountAppend(l0, l1, id);
    }
    SumValuesAdd(t, c0, c1, c2, ids);
  }
}
