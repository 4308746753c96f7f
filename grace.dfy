/// Grace-period labelling shared by the German calculator and the French
/// method: every period 1..N gets a label S (standard), P (partial grace) or
/// T (total grace), and every partial/total entry lowers the count of
/// non-grace periods.
module Grace {
  import opened Enums

  /// The per-period label the calculators store ('S', 'P', 'T').
  datatype GraceLabel = S | P | T

  /// One grace-period row of the bond record (1-based period index).
  datatype GracePeriodEntry = GracePeriodEntry(period: int, kind: GracePeriodType)

  function LabelOf(kind: GracePeriodType): GraceLabel
  {
    match kind
    case Total => T
    case Partial => P
    case NoGrace => S
  }

  predicate IsGraceEntry(e: GracePeriodEntry)
  {
    e.kind == Partial || e.kind == Total
  }

  /// Number of entries that lower the non-grace count: every partial or total
  /// entry, whatever period it names and however often that period repeats.
  function GraceEntryCount(entries: seq<GracePeriodEntry>): (c: nat)
    ensures c <= |entries|
  {
    if entries == [] then 0
    else GraceEntryCount(entries[..|entries| - 1])
         + (if IsGraceEntry(entries[|entries| - 1]) then 1 else 0)
  }

  /// The periods the entries name.
  function PeriodsOf(entries: seq<GracePeriodEntry>): set<int>
  {
    if entries == [] then {}
    else PeriodsOf(entries[..|entries| - 1]) + {entries[|entries| - 1].period}
  }

  /// Label of period i: the LAST entry naming i decides (a later entry
  /// overwrites an earlier one); a period no entry names is standard.
  function LabelAt(entries: seq<GracePeriodEntry>, i: int): GraceLabel
  {
    if entries == [] then S
    else if entries[|entries| - 1].period == i then LabelOf(entries[|entries| - 1].kind)
    else LabelAt(entries[..|entries| - 1], i)
  }

  /// Entries are distinct and each names a period in 1..n.
  predicate ValidEntries(entries: seq<GracePeriodEntry>, n: int)
  {
    (forall j :: 0 <= j < |entries| ==> 1 <= entries[j].period <= n) &&
    (forall j, k :: 0 <= j < k < |entries| ==> entries[j].period != entries[k].period)
  }

  /// Number of periods among 1..k labelled standard.
  function StandardCount(entries: seq<GracePeriodEntry>, k: nat): (c: nat)
    ensures c <= k
  {
    if k == 0 then 0
    else StandardCount(entries, k - 1) + (if LabelAt(entries, k) == S then 1 else 0)
  }

  /// Number of periods among 1..k labelled partial or total grace.
  function GraceLabelCount(entries: seq<GracePeriodEntry>, k: nat): (c: nat)
    ensures c + StandardCount(entries, k) == k
  {
    if k == 0 then 0
    else GraceLabelCount(entries, k - 1) + (if LabelAt(entries, k) == S then 0 else 1)
  }

  /// A period that no entry names is standard.
  lemma {:induction false} LabelAtUnnamed(entries: seq<GracePeriodEntry>, i: int)
    requires i !in PeriodsOf(entries)
    ensures LabelAt(entries, i) == S
  {
    if entries != [] {
      LabelAtUnnamed(entries[..|entries| - 1], i);
    }
  }

  /// A period that is named by some entry is in PeriodsOf.
  lemma {:induction false} PeriodsOfContains(entries: seq<GracePeriodEntry>, j: nat)
    requires j < |entries|
    ensures entries[j].period in PeriodsOf(entries)
  {
    if j < |entries| - 1 {
      PeriodsOfContains(entries[..|entries| - 1], j);
    }
  }

  /// Adding entry x at the end changes the grace count over 1..k by one
  /// exactly when x is a grace entry naming a period in 1..k that no earlier
  /// entry labelled.
  lemma {:induction false} GraceLabelCountStep(init: seq<GracePeriodEntry>, x: GracePeriodEntry, k: nat)
    requires LabelAt(init, x.period) == S
    ensures GraceLabelCount(init + [x], k)
         == GraceLabelCount(init, k) + (if 1 <= x.period <= k && IsGraceEntry(x) then 1 else 0)
  {
    var e := init + [x];
    assert e[..|e| - 1] == init;
    if k > 0 {
      GraceLabelCountStep(init, x, k - 1);
    }
  }

  /// With distinct, in-range entries, the grace count over 1..n equals the
  /// number of partial/total entries, so the standard periods are exactly
  /// n minus that count (the calculators' nonGracePeriods).
  lemma {:induction false} GraceCountMatches(entries: seq<GracePeriodEntry>, n: nat)
    requires ValidEntries(entries, n)
    ensures GraceLabelCount(entries, n) == GraceEntryCount(entries)
    ensures StandardCount(entries, n) == n - GraceEntryCount(entries)
  {
    if entries != [] {
      var init := entries[..|entries| - 1];
      var x := entries[|entries| - 1];
      assert init + [x] == entries;
      assert ValidEntries(init, n);
      GraceCountMatches(init, n);
      if x.period in PeriodsOf(init) {
        var j := PeriodIndex(init, x.period);
        assert false;
      }
      LabelAtUnnamed(init, x.period);
      GraceLabelCountStep(init, x, n);
      assert 1 <= x.period <= n;
      assert GraceLabelCount(init + [x], n) == GraceLabelCount(init, n) + (if IsGraceEntry(x) then 1 else 0);
      assert GraceLabelCount(entries, n) == GraceLabelCount(init, n) + (if IsGraceEntry(x) then 1 else 0);
      assert GraceEntryCount(entries) == GraceEntryCount(init) + (if IsGraceEntry(x) then 1 else 0);
    } else {
      NoEntriesNoGrace(n);
    }
  }

  /// Without entries every period is standard.
  lemma {:induction false} NoEntriesNoGrace(k: nat)
    ensures GraceLabelCount([], k) == 0
  {
    if k > 0 {
      NoEntriesNoGrace(k - 1);
    }
  }

  /// Some entry names every period in PeriodsOf.
  lemma {:induction false} PeriodIndex(entries: seq<GracePeriodEntry>, p: int) returns (j: nat)
    requires p in PeriodsOf(entries)
    ensures j < |entries| && entries[j].period == p
  {
    var init := entries[..|entries| - 1];
    if entries[|entries| - 1].period == p {
      j := |entries| - 1;
    } else {
      j := PeriodIndex(init, p);
    }
  }

  /// Builds the label map the calculators consult: the entries in order
  /// (later ones overwrite), then every unlabelled period in 1..n set to S,
  /// while counting down the non-grace periods for every grace entry.
  method BuildGraceMap(entries: seq<GracePeriodEntry>, n: nat)
    returns (graceMap: map<int, GraceLabel>, nonGracePeriods: int)
    ensures nonGracePeriods == n - GraceEntryCount(entries)
    ensures forall i :: i in graceMap <==> (1 <= i <= n || i in PeriodsOf(entries))
    ensures forall i :: i in graceMap ==> graceMap[i] == LabelAt(entries, i)
  {
    nonGracePeriods := n;
    graceMap := map[];
    var k := 0;
    while k < |entries|
      invariant 0 <= k <= |entries|
      invariant nonGracePeriods == n - GraceEntryCount(entries[..k])
      invariant forall i :: i in graceMap <==> i in PeriodsOf(entries[..k])
      invariant forall i :: i in graceMap ==> graceMap[i] == LabelAt(entries[..k], i)
    {
      var gp := entries[k];
      assert entries[..k + 1][..k] == entries[..k];
      if gp.kind == Total {
        nonGracePeriods := nonGracePeriods - 1;
        graceMap := graceMap[gp.period := T];
      } else if gp.kind == Partial {
        nonGracePeriods := nonGracePeriods - 1;
        graceMap := graceMap[gp.period := P];
      } else {
        graceMap := graceMap[gp.period := S];
      }
      k := k + 1;
    }
    assert entries[..k] == entries;
    var i := 1;
    while i <= n
      invariant 1 <= i <= n + 1
      invariant forall j :: j in graceMap <==> (1 <= j < i || j in PeriodsOf(entries))
      invariant forall j :: j in graceMap ==> graceMap[j] == LabelAt(entries, j)
    {
      if i !in graceMap {
        LabelAtUnnamed(entries, i);
        graceMap := graceMap[i := S];
      }
      i := i + 1;
    }
  }
}
