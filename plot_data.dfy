/** The parsed content of phonopy band.yaml files and everything that
    `Plotter.load_data` derives from it: the shared distance axis, one
    frequency matrix per file, and the tick labels with their distances.
    Distances and frequencies are only copied, never computed with, so they
    are modelled as `real`. */
module PlotData {

  datatype Option<T> = None | Some(value: T)

  type Label = string

  /** One element of a q-point's `band` list; only its `frequency` is read. */
  datatype BandEntry = BandEntry(frequency: real)

  /** One element of the `phonon` list: a q-point on the path. `name` holds
      the record's `label` key, `None` when it has none (`label` is a keyword
      in Dafny). */
  datatype QPoint = QPoint(distance: real, band: seq<BandEntry>, name: Option<Label>)

  /** One parsed band.yaml document. `labels` (a list of [start, end] pairs)
      and `segmentNqpoint` (a list of ints) are `None` when the key is absent. */
  datatype BandYaml = BandYaml(
    phonon: seq<QPoint>,
    labels: Option<seq<seq<Label>>>,
    segmentNqpoint: Option<seq<int>>)

  /** The x-axis ticks: `labels` and `dists` are the plotter's `_labels` and
      `_label_dists`. */
  datatype Ticks = Ticks(labels: seq<Label>, dists: seq<real>)

  /** The exceptions `load_data` raises once the files are parsed. */
  datatype LoadError =
    | NoBandFile                  // IndexError: data[0] with an empty file list
    | MissingLabels               // KeyError: 'labels'
    | MalformedLabelPair(index: nat)  // ValueError: pair `index` does not unpack into (i, j)
    | MissingSegmentNqpoint       // KeyError: 'segment_nqpoint'
    | EmptySegmentNqpoint         // IndexError: segment_nqpoint[0]
    | ZeroStride                  // ValueError: range() step must not be zero
    | EmptyPath                   // IndexError: dists[0][-1] on an empty path

  /** The tick fields as `load_data` leaves them, and the exception it raised
      while filling them, if any. When it raises, the fields keep whatever
      was appended before the exception. */
  datatype TickOutcome = TickOutcome(ticks: Ticks, error: Option<LoadError>)

  // ---------------------------------------------------------------------
  // Distance axis and frequency matrices (core.py lines 22-26)
  // ---------------------------------------------------------------------

  /** The distances of the records, one per record, in record order. */
  function DistanceAxis(points: seq<QPoint>): (axis: seq<real>)
    ensures |axis| == |points|
    ensures forall k :: 0 <= k < |points| ==> axis[k] == points[k].distance
  {
    seq(|points|, k requires 0 <= k < |points| => points[k].distance)
  }

  /** The frequencies of one record's band entries, in band order. */
  function FrequencyRow(point: QPoint): (row: seq<real>)
    ensures |row| == |point.band|
    ensures forall b :: 0 <= b < |point.band| ==> row[b] == point.band[b].frequency
  {
    seq(|point.band|, b requires 0 <= b < |point.band| => point.band[b].frequency)
  }

  /** One row per record, one column per branch. */
  function FrequencyMatrix(points: seq<QPoint>): (m: seq<seq<real>>)
    ensures |m| == |points|
    ensures forall k :: 0 <= k < |points| ==> m[k] == FrequencyRow(points[k])
  {
    seq(|points|, k requires 0 <= k < |points| => FrequencyRow(points[k]))
  }

  /** One frequency matrix per parsed file, in file order. */
  function FrequencyMatrices(data: seq<BandYaml>): (ms: seq<seq<seq<real>>>)
    ensures |ms| == |data|
    ensures forall i :: 0 <= i < |data| ==> ms[i] == FrequencyMatrix(data[i].phonon)
  {
    seq(|data|, i requires 0 <= i < |data| => FrequencyMatrix(data[i].phonon))
  }

  /** A dataset whose records all have `branches` band entries gives a
      matrix of |points| rows and `branches` columns, entry (k, b) being the
      frequency of branch b at q-point k. */
  lemma FrequencyMatrixShape(points: seq<QPoint>, branches: nat)
    requires forall k :: 0 <= k < |points| ==> |points[k].band| == branches
    ensures |FrequencyMatrix(points)| == |points|
    ensures forall k :: 0 <= k < |points| ==> |FrequencyMatrix(points)[k]| == branches
    ensures forall k, b :: 0 <= k < |points| && 0 <= b < branches ==>
      FrequencyMatrix(points)[k][b] == points[k].band[b].frequency
  {
  }

  /** The matrix of file i is read from file i alone: replacing any other
      file leaves it as it was. */
  lemma FrequencyMatrixOfOwnFile(data: seq<BandYaml>, i: nat, j: nat, other: BandYaml)
    requires i < |data| && j < |data| && i != j
    ensures FrequencyMatrices(data[j := other])[i] == FrequencyMatrices(data)[i]
  {
  }

  // ---------------------------------------------------------------------
  // Inline labels (core.py lines 29-36)
  // ---------------------------------------------------------------------

  /** The ticks the loop over the records collects: the label and distance
      of each record that has a `label` key, appended in record order. Defined
      on prefixes, the way the loop extends its lists. */
  function InlineTicks(points: seq<QPoint>): (t: Ticks)
    ensures |t.labels| == |t.dists| <= |points|
  {
    if |points| == 0 then Ticks([], [])
    else
      var before := InlineTicks(points[..|points| - 1]);
      var p := points[|points| - 1];
      if p.name.None? then before
      else Ticks(before.labels + [p.name.value], before.dists + [p.distance])
  }

  /** The positions of the labelled records, in increasing order: exactly the
      indices whose record has a label. */
  function LabelledIndices(points: seq<QPoint>): (idx: seq<nat>)
    ensures forall j :: 0 <= j < |idx| ==> idx[j] < |points| && points[idx[j]].name.Some?
    ensures forall j, j' :: 0 <= j < j' < |idx| ==> idx[j] < idx[j']
    ensures forall k :: 0 <= k < |points| && points[k].name.Some? ==> k in idx
  {
    if |points| == 0 then []
    else
      var before := LabelledIndices(points[..|points| - 1]);
      if points[|points| - 1].name.None? then before
      else before + [|points| - 1]
  }

  /** The inline ticks are the labels and distances of exactly the labelled
      records (LabelledIndices), in record order. */
  lemma {:induction false} InlineTicksSelectLabelled(points: seq<QPoint>)
    ensures |InlineTicks(points).labels| == |LabelledIndices(points)|
    ensures forall j :: 0 <= j < |LabelledIndices(points)| ==>
      InlineTicks(points).labels[j] == points[LabelledIndices(points)[j]].name.value &&
      InlineTicks(points).dists[j] == points[LabelledIndices(points)[j]].distance
  {
    if |points| > 0 {
      var before := points[..|points| - 1];
      InlineTicksSelectLabelled(before);
      var idx, t := LabelledIndices(before), InlineTicks(before);
      assert forall j :: 0 <= j < |idx| ==> points[idx[j]] == before[idx[j]];
      if points[|points| - 1].name.Some? {
        assert LabelledIndices(points) == idx + [|points| - 1];
        assert InlineTicks(points).labels == t.labels + [points[|points| - 1].name.value];
        assert InlineTicks(points).dists == t.dists + [points[|points| - 1].distance];
      } else {
        assert LabelledIndices(points) == idx && InlineTicks(points) == t;
      }
    }
  }

  /** The inline scan finds no label exactly when no record is labelled. */
  lemma InlineTicksEmptyIff(points: seq<QPoint>)
    ensures |InlineTicks(points).labels| == 0 <==>
      forall k :: 0 <= k < |points| ==> points[k].name.None?
  {
    InlineTicksSelectLabelled(points);
    var idx := LabelledIndices(points);
    if |idx| > 0 {
      assert points[idx[0]].name.Some?;
    }
  }

  // ---------------------------------------------------------------------
  // Segment fallback (core.py lines 37-48)
  // ---------------------------------------------------------------------

  /** Every pair unpacks into (start, end). */
  predicate WellFormedPairs(pairs: seq<seq<Label>>) {
    forall k :: 0 <= k < |pairs| ==> |pairs[k]| == 2
  }

  /** The index of the first pair that does not unpack into two labels, or
      |pairs| when every pair does. */
  function FirstMalformed(pairs: seq<seq<Label>>): (k: nat)
    ensures k <= |pairs|
    ensures WellFormedPairs(pairs[..k])
    ensures k < |pairs| ==> |pairs[k]| != 2
  {
    if |pairs| == 0 then 0
    else if |pairs[0]| != 2 then 0
    else
      var rest := FirstMalformed(pairs[1..]);
      assert pairs[..1 + rest] == [pairs[0]] + pairs[1..][..rest];
      1 + rest
  }

  /** The contract of FirstMalformed pins its result: an index k with every
      pair before it well formed and pair k malformed (or k == |pairs|) is the
      first malformed pair. */
  lemma FirstMalformedIs(pairs: seq<seq<Label>>, k: nat)
    requires k <= |pairs| && WellFormedPairs(pairs[..k])
    requires k < |pairs| ==> |pairs[k]| != 2
    ensures FirstMalformed(pairs) == k
  {
  }

  /** The labels the `enumerate` loop appends: the first pair's start, then
      each pair's end. Defined on prefixes, the way the loop extends the list. */
  function FallbackLabels(pairs: seq<seq<Label>>): (r: seq<Label>)
    requires WellFormedPairs(pairs)
    ensures |r| == if |pairs| == 0 then 0 else |pairs| + 1
    ensures |pairs| > 0 ==> r[0] == pairs[0][0]
  {
    if |pairs| == 0 then []
    else
      var before := pairs[..|pairs| - 1];
      FallbackLabels(before)
        + (if |before| == 0 then [pairs[0][0]] else [])
        + [pairs[|pairs| - 1][1]]
  }

  /** For m >= 1 pairs the fallback labels are the first start followed by
      the m ends, m + 1 labels in all. */
  lemma {:induction false} FallbackLabelsClosedForm(pairs: seq<seq<Label>>)
    requires WellFormedPairs(pairs) && |pairs| > 0
    ensures |FallbackLabels(pairs)| == |pairs| + 1
    ensures FallbackLabels(pairs)[0] == pairs[0][0]
    ensures forall k :: 0 <= k < |pairs| ==> FallbackLabels(pairs)[k + 1] == pairs[k][1]
  {
    var before := pairs[..|pairs| - 1];
    if |before| > 0 {
      FallbackLabelsClosedForm(before);
    }
  }

  /** How many indices Python's `range(0, stop, step)` yields. */
  function RangeLength(stop: nat, step: int): (n: nat)
    requires step != 0
    ensures step < 0 || stop == 0 ==> n == 0
    ensures step > 0 && stop > 0 ==> (n - 1) * step < stop <= n * step
  {
    if step < 0 || stop == 0 then 0
    else
      var q := (stop + step - 1) / step;
      assert q * step == stop + step - 1 - (stop + step - 1) % step;
      assert (q - 1) * step == q * step - step;
      q
  }

  /** The indices `range(0, stop, step)` yields: 0, step, 2 * step, ...,
      every one below `stop`. */
  function StrideIndices(stop: nat, step: int): (idx: seq<int>)
    requires step != 0
    ensures |idx| == RangeLength(stop, step)
    ensures forall j :: 0 <= j < |idx| ==> idx[j] == j * step && 0 <= idx[j] < stop
  {
    var n := RangeLength(stop, step);
    var idx := seq(n, j requires 0 <= j < n => j * step);
    StridesBelowStop(idx, stop, step);
    idx
  }

  /** Multiples of a positive step, taken fewer than RangeLength times, stay
      in [0, stop). */
  lemma StridesBelowStop(idx: seq<int>, stop: nat, step: int)
    requires step != 0 && |idx| == RangeLength(stop, step)
    requires forall j :: 0 <= j < |idx| ==> idx[j] == j * step
    ensures forall j :: 0 <= j < |idx| ==> 0 <= idx[j] < stop
  {
    forall j | 0 <= j < |idx| ensures 0 <= idx[j] < stop {
      MulMonotone(0, j, step);
      MulMonotone(j, |idx| - 1, step);
    }
  }

  /** Multiplying by a positive factor keeps the order. */
  lemma MulMonotone(a: int, b: int, c: int)
    requires 0 <= a <= b && c > 0
    ensures a * c <= b * c
  {
  }

  /** `[dists[i] for i in range(0, len(dists), step)]`. */
  function StrideSample(dists: seq<real>, step: int): (r: seq<real>)
    requires step != 0
    ensures |r| == RangeLength(|dists|, step)
    ensures forall j :: 0 <= j < |r| ==> 0 <= j * step < |dists| && r[j] == dists[j * step]
  {
    var idx := StrideIndices(|dists|, step);
    seq(|idx|, j requires 0 <= j < |idx| => dists[idx[j]])
  }

  /** The fallback tick fields, used when no record is labelled (so both
      lists are still empty when it starts). */
  function FallbackTicks(ds: BandYaml): (o: TickOutcome)
    ensures o.error != Some(NoBandFile)
    ensures o.error.Some? ==> o.ticks.dists == []
    ensures o.error == Some(MissingLabels) <==> ds.labels.None?
    ensures o.error == Some(MissingLabels) ==> o.ticks.labels == []
    ensures o.error.Some? && o.error.value.MalformedLabelPair? ==>
      var k := o.error.value.index;
      && ds.labels.Some? && k < |ds.labels.value| && |ds.labels.value[k]| != 2
      && WellFormedPairs(ds.labels.value[..k])
      && o.ticks.labels == FallbackLabels(ds.labels.value[..k])
    ensures o.error.Some? && o.error.value in {MissingSegmentNqpoint, EmptySegmentNqpoint, ZeroStride, EmptyPath} ==>
      ds.labels.Some? && WellFormedPairs(ds.labels.value) && o.ticks.labels == FallbackLabels(ds.labels.value)
    ensures o.error.None? ==>
      ds.labels.Some? && WellFormedPairs(ds.labels.value) && o.ticks.labels == FallbackLabels(ds.labels.value) &&
      |ds.phonon| > 0 && |o.ticks.dists| > 0 &&
      o.ticks.dists[|o.ticks.dists| - 1] == ds.phonon[|ds.phonon| - 1].distance
  {
    match ds.labels
    case None => TickOutcome(Ticks([], []), Some(MissingLabels))
    case Some(pairs) =>
      var bad := FirstMalformed(pairs);
      if bad < |pairs| then
        TickOutcome(Ticks(FallbackLabels(pairs[..bad]), []), Some(MalformedLabelPair(bad)))
      else
        var labels := FallbackLabels(pairs);
        var dists := DistanceAxis(ds.phonon);
        match ds.segmentNqpoint
        case None => TickOutcome(Ticks(labels, []), Some(MissingSegmentNqpoint))
        case Some(counts) =>
          if |counts| == 0 then TickOutcome(Ticks(labels, []), Some(EmptySegmentNqpoint))
          else if counts[0] == 0 then TickOutcome(Ticks(labels, []), Some(ZeroStride))
          else if |dists| == 0 then TickOutcome(Ticks(labels, []), Some(EmptyPath))
          else TickOutcome(Ticks(labels, StrideSample(dists, counts[0]) + [dists[|dists| - 1]]), None)
  }

  /** The tick fields after `load_data`: the inline ticks when any record of
      the first file is labelled, the segment fallback otherwise. */
  function DeriveTicks(ds: BandYaml): (o: TickOutcome)
    ensures o.error != Some(NoBandFile)
    ensures o.error.Some? ==>
      o.ticks.dists == [] && forall k :: 0 <= k < |ds.phonon| ==> ds.phonon[k].name.None?
    ensures (exists k :: 0 <= k < |ds.phonon| && ds.phonon[k].name.Some?) ==>
      o.error == None && |o.ticks.labels| == |o.ticks.dists| > 0
  {
    InlineTicksEmptyIff(ds.phonon);
    var inline := InlineTicks(ds.phonon);
    if |inline.labels| > 0 then TickOutcome(inline, None) else FallbackTicks(ds)
  }

  /** The exception `load_data` raises on already parsed files, if any. */
  function LoadFailure(data: seq<BandYaml>): (r: Option<LoadError>)
    ensures r == Some(NoBandFile) <==> |data| == 0
    ensures r.Some? && |data| > 0 ==>
      forall k :: 0 <= k < |data[0].phonon| ==> data[0].phonon[k].name.None?
  {
    if |data| == 0 then Some(NoBandFile) else DeriveTicks(data[0]).error
  }

  // ---------------------------------------------------------------------
  // Properties of the derived ticks
  // ---------------------------------------------------------------------

  /** When a record is labelled, the inline ticks are final: the load does
      not fail on the ticks, and neither `labels` nor `segment_nqpoint` is
      consulted. */
  lemma InlineLabelsAreFinal(
    ds: BandYaml, k: nat, labels: Option<seq<seq<Label>>>, counts: Option<seq<int>>)
    requires k < |ds.phonon| && ds.phonon[k].name.Some?
    ensures DeriveTicks(ds) == TickOutcome(InlineTicks(ds.phonon), None)
    ensures |DeriveTicks(ds).ticks.labels| == |DeriveTicks(ds).ticks.dists| > 0
    ensures DeriveTicks(ds.(labels := labels, segmentNqpoint := counts)) == DeriveTicks(ds)
  {
    InlineTicksEmptyIff(ds.phonon);
  }

  /** The fallback runs exactly when no record is labelled. */
  lemma FallbackWhenUnlabelled(ds: BandYaml)
    requires forall k :: 0 <= k < |ds.phonon| ==> ds.phonon[k].name.None?
    ensures DeriveTicks(ds) == FallbackTicks(ds)
  {
    InlineTicksEmptyIff(ds.phonon);
  }

  /** The fallback succeeds exactly when `labels` is present with every pair
      of two labels, `segment_nqpoint` is present and non-empty with a
      non-zero first count, and the path is non-empty; when it fails, no tick
      distance has been stored. */
  lemma FallbackFailsIff(ds: BandYaml)
    ensures FallbackTicks(ds).error.None? <==>
      && ds.labels.Some? && WellFormedPairs(ds.labels.value)
      && ds.segmentNqpoint.Some? && |ds.segmentNqpoint.value| > 0
      && ds.segmentNqpoint.value[0] != 0 && |ds.phonon| > 0
    ensures FallbackTicks(ds).error.Some? ==> FallbackTicks(ds).ticks.dists == []
  {
  }

  /** The fallback on well-formed metadata and a non-empty path: labels are
      the first start then every end, tick distances are the samples at
      indices 0, step, 2 * step, ... below n followed by the last distance,
      ceil(n / step) + 1 of them, the first being the first distance. */
  lemma FallbackTicksClosedForm(ds: BandYaml)
    requires ds.labels.Some? && WellFormedPairs(ds.labels.value)
    requires ds.segmentNqpoint.Some? && |ds.segmentNqpoint.value| > 0
    requires ds.segmentNqpoint.value[0] > 0 && |ds.phonon| > 0
    ensures var pairs, step, n := ds.labels.value, ds.segmentNqpoint.value[0], |ds.phonon|;
      var t := FallbackTicks(ds);
      && t.error == None
      && (|pairs| == 0 ==> t.ticks.labels == [])
      && (|pairs| > 0 ==> |t.ticks.labels| == |pairs| + 1 && t.ticks.labels[0] == pairs[0][0])
      && (forall k :: 0 <= k < |pairs| ==> |pairs| + 1 == |t.ticks.labels| && t.ticks.labels[k + 1] == pairs[k][1])
      && |t.ticks.dists| == (n + step - 1) / step + 1
      && t.ticks.dists[0] == ds.phonon[0].distance
      && (forall j :: 0 <= j < |t.ticks.dists| - 1 ==> j * step < n && t.ticks.dists[j] == ds.phonon[j * step].distance)
      && t.ticks.dists[|t.ticks.dists| - 1] == ds.phonon[n - 1].distance
  {
    var pairs := ds.labels.value;
    if |pairs| > 0 {
      FallbackLabelsClosedForm(pairs);
    }
    assert FirstMalformed(pairs) == |pairs|;
  }

  /** With the layout phonopy writes (m segments of `step` points each, so
      n == m * step), the fallback gives as many tick distances as labels,
      m + 1: the first point of each segment, then the last point. */
  lemma FallbackCountsAgree(ds: BandYaml, m: nat)
    requires ds.labels.Some? && WellFormedPairs(ds.labels.value) && |ds.labels.value| == m > 0
    requires ds.segmentNqpoint.Some? && |ds.segmentNqpoint.value| > 0
    requires ds.segmentNqpoint.value[0] > 0
    requires |ds.phonon| == m * ds.segmentNqpoint.value[0]
    ensures var t := FallbackTicks(ds);
      && t.error == None
      && |t.ticks.labels| == |t.ticks.dists| == m + 1
      && (forall j :: 0 <= j < m ==> t.ticks.dists[j] == ds.phonon[j * ds.segmentNqpoint.value[0]].distance)
      && t.ticks.dists[m] == ds.phonon[|ds.phonon| - 1].distance
  {
    var step := ds.segmentNqpoint.value[0];
    var n := |ds.phonon|;
    var len := RangeLength(n, step);
    assert (len - 1) * step < m * step <= len * step;
    if len - 1 >= m { MulMonotone(m, len - 1, step); }
    if m >= len + 1 { MulMonotone(len + 1, m, step); }
    assert len == m;
    FallbackTicksClosedForm(ds);
  }

  /** Every tick distance, whichever strategy produced it and even when the
      load failed half-way, is a distance of the first file's axis. */
  lemma TickDistancesOnAxis(ds: BandYaml)
    ensures forall x :: x in DeriveTicks(ds).ticks.dists ==> x in DistanceAxis(ds.phonon)
  {
    var axis := DistanceAxis(ds.phonon);
    var inline := InlineTicks(ds.phonon);
    if |inline.labels| > 0 {
      InlineTicksSelectLabelled(ds.phonon);
      var idx := LabelledIndices(ds.phonon);
      forall x | x in inline.dists ensures x in axis {
        var j :| 0 <= j < |inline.dists| && inline.dists[j] == x;
        assert axis[idx[j]] == x;
      }
    } else {
      var t := FallbackTicks(ds).ticks;
      if t.dists != [] {
        var step := ds.segmentNqpoint.value[0];
        var sample := StrideSample(axis, step);
        assert t.dists == sample + [axis[|axis| - 1]];
        forall x | x in t.dists ensures x in axis {
          var j :| 0 <= j < |t.dists| && t.dists[j] == x;
          if j < |sample| {
            assert axis[j * step] == x;
          }
        }
      }
    }
  }
  // ---------------------------------------------------------------------
  // Worked examples
  // ---------------------------------------------------------------------

  /** Five q-points, two branches, labels "G" on the first and "X" on the
      last: the ticks are ["G", "X"] at the first and last distances. */
  lemma InlineExample(d: seq<real>, band: seq<BandEntry>)
    requires |d| == 5 && |band| == 2
    ensures var points := [
        QPoint(d[0], band, Some("G")), QPoint(d[1], band, None), QPoint(d[2], band, None),
        QPoint(d[3], band, None), QPoint(d[4], band, Some("X"))];
      && DeriveTicks(BandYaml(points, None, None)) == TickOutcome(Ticks(["G", "X"], [d[0], d[4]]), None)
      && |FrequencyMatrix(points)| == 5
      && (forall k :: 0 <= k < 5 ==> |FrequencyMatrix(points)[k]| == 2)
  {
    var points := [
      QPoint(d[0], band, Some("G")), QPoint(d[1], band, None), QPoint(d[2], band, None),
      QPoint(d[3], band, None), QPoint(d[4], band, Some("X"))];
    assert InlineTicks(points[..1]) == Ticks(["G"], [d[0]]);
    assert points[..2][..1] == points[..1];
    assert InlineTicks(points[..2]) == Ticks(["G"], [d[0]]);
    assert points[..3][..2] == points[..2];
    assert InlineTicks(points[..3]) == Ticks(["G"], [d[0]]);
    assert points[..4][..3] == points[..3];
    assert InlineTicks(points[..4]) == Ticks(["G"], [d[0]]);
    assert points[..4] == points[..|points| - 1];
  }

  /** Pairs [[A, B], [B, C]], stride 10 and 21 q-points without labels: the
      labels are [A, B, C] but the tick distances are four, the last point
      appearing twice, because the last distance is appended after the
      samples at 0, 10 and 20. */
  lemma SegmentExampleWithTrailingPoint(points: seq<QPoint>)
    requires |points| == 21
    requires forall k :: 0 <= k < |points| ==> points[k].name.None?
    ensures var ds := BandYaml(points, Some([["A", "B"], ["B", "C"]]), Some([10]));
      DeriveTicks(ds) == TickOutcome(
        Ticks(["A", "B", "C"], [points[0].distance, points[10].distance, points[20].distance, points[20].distance]),
        None)
  {
    var ds := BandYaml(points, Some([["A", "B"], ["B", "C"]]), Some([10]));
    FallbackWhenUnlabelled(ds);
    FallbackTicksClosedForm(ds);
    assert RangeLength(21, 10) == 3;
  }
}
