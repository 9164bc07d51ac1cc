/** The doctor dashboard's queue metrics (pages/DoctorDashboard.tsx): the
    number of records per level, the overcrowding flags derived from them,
    and the chart series built from the counts. The staff dashboard's
    counters use the same count. */
module QueueMetrics {
  import opened ClinicTypes

  /** `apps.filter(a => a.triageLevel === level).length`. */
  function CountLevel(apps: seq<Appointment>, level: TriageLevel): (n: nat)
    ensures n <= |apps|
    ensures n == 0 <==> forall a :: a in apps ==> a.triageLevel != level
  {
    if apps == [] then 0
    else (if apps[0].triageLevel == level then 1 else 0) + CountLevel(apps[1..], level)
  }

  /** The records whose level is none of the four enum members. */
  function CountUnlisted(apps: seq<Appointment>): (n: nat)
    ensures n <= |apps|
  {
    if apps == [] then 0
    else (if apps[0].triageLevel.Unlisted? then 1 else 0) + CountUnlisted(apps[1..])
  }

  function Levels(apps: seq<Appointment>): seq<TriageLevel> {
    seq(|apps|, i requires 0 <= i < |apps| => apps[i].triageLevel)
  }

  /** The count agrees with the multiplicity of the level among the records' levels. */
  lemma {:induction false} CountIsMultiplicity(apps: seq<Appointment>, level: TriageLevel)
    ensures CountLevel(apps, level) == multiset(Levels(apps))[level]
  {
    if apps != [] {
      CountIsMultiplicity(apps[1..], level);
      assert Levels(apps) == [apps[0].triageLevel] + Levels(apps[1..]);
    }
  }

  /** Adding one record raises the count of its own level by one and no other. */
  lemma {:induction false} CountAfterAppend(apps: seq<Appointment>, a: Appointment, level: TriageLevel)
    ensures CountLevel(apps + [a], level) == CountLevel(apps, level) + (if a.triageLevel == level then 1 else 0)
  {
    if apps == [] {
      assert [a][1..] == [];
    } else {
      assert (apps + [a])[1..] == apps[1..] + [a];
      CountAfterAppend(apps[1..], a, level);
    }
  }

  /** Every record is counted exactly once: the four counts and the unlisted
      ones add up to the total. */
  lemma {:induction false} CountsPartition(apps: seq<Appointment>)
    ensures CountLevel(apps, Emergency) + CountLevel(apps, Critical) + CountLevel(apps, Intermediate)
            + CountLevel(apps, Normal) + CountUnlisted(apps) == |apps|
  {
    if apps != [] {
      CountsPartition(apps[1..]);
    }
  }

  /** With every level one of the enum members, the four counts sum to the total. */
  lemma {:induction false} CountsSumToTotal(apps: seq<Appointment>)
    requires forall a :: a in apps ==> Listed(a.triageLevel)
    ensures CountLevel(apps, Emergency) + CountLevel(apps, Critical) + CountLevel(apps, Intermediate)
            + CountLevel(apps, Normal) == |apps|
  {
    CountsPartition(apps);
    NoUnlisted(apps);
  }

  lemma {:induction false} NoUnlisted(apps: seq<Appointment>)
    requires forall a :: a in apps ==> Listed(a.triageLevel)
    ensures CountUnlisted(apps) == 0
  {
    if apps != [] {
      assert apps[0] in apps;
      NoUnlisted(apps[1..]);
    }
  }

  datatype Counts = Counts(emergency: nat, critical: nat, intermediate: nat, normal: nat)

  datatype Metrics = Metrics(counts: Counts, isOvercrowded: bool,
                             isVolumeOverloaded: bool, isResourceStrained: bool)

  const VolumeThreshold: nat := 10
  const StrainThreshold: nat := 5

  /** The `metrics` memo. */
  function ComputeMetrics(apps: seq<Appointment>): (m: Metrics)
    ensures m.counts == Counts(CountLevel(apps, Emergency), CountLevel(apps, Critical),
                               CountLevel(apps, Intermediate), CountLevel(apps, Normal))
    ensures m.isVolumeOverloaded <==> |apps| >= VolumeThreshold
    ensures m.isResourceStrained <==> CountLevel(apps, Emergency) + CountLevel(apps, Critical) >= StrainThreshold
    ensures m.isOvercrowded <==> m.isVolumeOverloaded || m.isResourceStrained
  {
    var counts := Counts(CountLevel(apps, Emergency), CountLevel(apps, Critical),
                         CountLevel(apps, Intermediate), CountLevel(apps, Normal));
    var overloaded := |apps| >= VolumeThreshold;
    var strained := counts.emergency + counts.critical >= StrainThreshold;
    Metrics(counts, overloaded || strained, overloaded, strained)
  }

  /** Ten or more records mean overcrowding whatever their levels, and fewer
      than ten mean overcrowding exactly when five or more are EMERGENCY or CRITICAL. */
  lemma OvercrowdingCases(apps: seq<Appointment>)
    ensures |apps| >= 10 ==> ComputeMetrics(apps).isOvercrowded
    ensures |apps| < 10 ==>
      (ComputeMetrics(apps).isOvercrowded <==> CountLevel(apps, Emergency) + CountLevel(apps, Critical) >= 5)
  {
  }

  /** Fewer than five records can never strain resources, so with fewer than
      five the queue is not overcrowded. */
  lemma {:induction false} SmallQueueNotOvercrowded(apps: seq<Appointment>)
    requires |apps| < 5
    ensures !ComputeMetrics(apps).isOvercrowded
  {
    CountsPartition(apps);
  }

  datatype ChartEntry = ChartEntry(name: string, value: nat)

  /** The `triageData` series of the level chart. */
  function TriageData(m: Metrics): (d: seq<ChartEntry>)
    ensures |d| == 4
    ensures d[0] == ChartEntry("Emergency", m.counts.emergency)
    ensures d[1] == ChartEntry("Critical", m.counts.critical)
    ensures d[2] == ChartEntry("Intermediate", m.counts.intermediate)
    ensures d[3] == ChartEntry("Normal", m.counts.normal)
  {
    [ ChartEntry("Emergency", m.counts.emergency),
      ChartEntry("Critical", m.counts.critical),
      ChartEntry("Intermediate", m.counts.intermediate),
      ChartEntry("Normal", m.counts.normal) ]
  }

  function ChartTotal(d: seq<ChartEntry>): nat {
    if d == [] then 0 else d[0].value + ChartTotal(d[1..])
  }

  /** The chart shows every record whose level is an enum member, once. */
  lemma ChartCoversQueue(apps: seq<Appointment>)
    requires forall a :: a in apps ==> Listed(a.triageLevel)
    ensures ChartTotal(TriageData(ComputeMetrics(apps))) == |apps|
  {
    var d := TriageData(ComputeMetrics(apps));
    CountsSumToTotal(apps);
    assert d[1..][1..][1..][1..] == [];
  }
}
