/** The `Plotter` object of phonon_plotter/core.py: it keeps the list of
    band.yaml files and, after `load_data`, the derived plot series. The
    files are read and parsed outside this model: `data` holds the parsed
    document of each file, in file order. */
module PhononPlotter {
  import opened PlotData

  class Plotter {
    var bandYamlFiles: seq<string>
    var nBand: nat
    /** A one-element list: the first file's distance axis. */
    var dists: seq<seq<real>>
    /** One frequency matrix per file. */
    var eigenvalues: seq<seq<seq<real>>>
    var labels: seq<Label>
    var labelDists: seq<real>
    /** The exception the Python constructor propagated, if any (Python then
        hands no object to the caller). */
    ghost var initError: Option<LoadError>

    ghost predicate Valid()
      reads this
    {
      nBand == |bandYamlFiles|
    }

    /** The derived fields are those of a load of `data`. */
    ghost predicate LoadedFrom(data: seq<BandYaml>)
      reads this
      requires |data| > 0
    {
      && dists == [DistanceAxis(data[0].phonon)]
      && eigenvalues == FrequencyMatrices(data)
      && Ticks(labels, labelDists) == DeriveTicks(data[0]).ticks
    }

    /** Stores the file list and its length, then loads. */
    constructor (bandYamlFiles: seq<string>, data: seq<BandYaml>)
      requires |data| == |bandYamlFiles|
      ensures Valid() && this.bandYamlFiles == bandYamlFiles && nBand == |bandYamlFiles|
      ensures initError == LoadFailure(data)
      ensures |data| > 0 ==> LoadedFrom(data)
    {
      this.bandYamlFiles := bandYamlFiles;
      nBand := |bandYamlFiles|;
      dists, eigenvalues, labels, labelDists := [], [], [], [];
      new;
      var err := LoadData(data);
      initError := err;
    }

    /** Rebuilds the distance axis, the frequency matrices and the ticks from
        the parsed files. An empty file list fails before any field changes;
        a failure in the tick fallback leaves the fields as far as they were
        filled. */
    method LoadData(data: seq<BandYaml>) returns (err: Option<LoadError>)
      requires Valid() && |data| == |bandYamlFiles|
      modifies this
      ensures Valid() && bandYamlFiles == old(bandYamlFiles) && initError == old(initError)
      ensures err == LoadFailure(data)
      ensures |data| == 0 ==>
        dists == old(dists) && eigenvalues == old(eigenvalues) &&
        labels == old(labels) && labelDists == old(labelDists)
      ensures |data| > 0 ==> LoadedFrom(data)
    {
      if |data| == 0 {
        return Some(NoBandFile);
      }
      var points := data[0].phonon;
      dists := [DistanceAxis(points)];
      var n := nBand;
      eigenvalues := seq(n, i requires 0 <= i < n => FrequencyMatrix(data[i].phonon));

      labels := [];
      labelDists := [];
      for k := 0 to |points|
        modifies this`labels, this`labelDists
        invariant Ticks(labels, labelDists) == InlineTicks(points[..k])
      {
        assert points[..k + 1][..k] == points[..k];
        if points[k].name.None? {
          continue;
        }
        labels := labels + [points[k].name.value];
        labelDists := labelDists + [points[k].distance];
      }
      assert points[..|points|] == points;

      if |labels| == 0 {
        err := LoadFallbackTicks(data[0]);
        return;
      }
      return None;
    }

    /** The segment fallback, run when no record is labelled: the first
        pair's start and every pair's end go to `labels`, then the distances
        sampled at stride `segment_nqpoint[0]` and the last distance go to
        `labelDists`, stopping where Python raises. */
    method LoadFallbackTicks(ds: BandYaml) returns (err: Option<LoadError>)
      requires dists == [DistanceAxis(ds.phonon)] && labels == [] && labelDists == []
      modifies this`labels, this`labelDists
      ensures Ticks(labels, labelDists) == FallbackTicks(ds).ticks
      ensures err == FallbackTicks(ds).error
    {
      if ds.labels.None? {
        return Some(MissingLabels);
      }
      var pairs := ds.labels.value;
      for cnt := 0 to |pairs|
        invariant WellFormedPairs(pairs[..cnt])
        invariant labels == FallbackLabels(pairs[..cnt]) && labelDists == []
      {
        if |pairs[cnt]| != 2 {
          FirstMalformedIs(pairs, cnt);
          return Some(MalformedLabelPair(cnt));
        }
        assert pairs[..cnt + 1][..cnt] == pairs[..cnt];
        if cnt == 0 {
          labels := labels + [pairs[cnt][0]];
        }
        labels := labels + [pairs[cnt][1]];
      }
      assert pairs[..|pairs|] == pairs;
      FirstMalformedIs(pairs, |pairs|);

      if ds.segmentNqpoint.None? {
        return Some(MissingSegmentNqpoint);
      }
      if |ds.segmentNqpoint.value| == 0 {
        return Some(EmptySegmentNqpoint);
      }
      var step := ds.segmentNqpoint.value[0];
      var nDists := |dists[0]|;
      if step == 0 {
        return Some(ZeroStride);
      }
      labelDists := StrideSample(dists[0], step);
      if nDists == 0 {
        return Some(EmptyPath);
      }
      labelDists := labelDists + [dists[0][nDists - 1]];
      return None;
    }
  }

  /** Loading the same parsed files twice gives the same fields and the same
      outcome: every derived field is rebuilt from the files alone. */
  method LoadTwice(p: Plotter, data: seq<BandYaml>) returns (first: Option<LoadError>, second: Option<LoadError>)
    requires p.Valid() && |data| == |p.bandYamlFiles|
    modifies p
    ensures p.Valid() && p.bandYamlFiles == old(p.bandYamlFiles)
    ensures first == second == LoadFailure(data)
    ensures |data| > 0 ==> p.LoadedFrom(data)
  {
    first := p.LoadData(data);
    ghost var dists, eigenvalues, labels, labelDists := p.dists, p.eigenvalues, p.labels, p.labelDists;
    second := p.LoadData(data);
    assert p.dists == dists && p.eigenvalues == eigenvalues;
    assert p.labels == labels && p.labelDists == labelDists;
  }
}
