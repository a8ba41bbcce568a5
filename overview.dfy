/**
 * Helpers of the monitoring web view's overview page: per-engine SQL text,
 * the link limits that apply to a (source, destination) pair, the
 * de-duplicated list of (source, destination, VO) triplets and the summary
 * counters. Rows of database queries are inputs.
 */
module Overview {
  import opened Wrappers
  import opened Text

  /** The configured database engine. */
  datatype Engine = Oracle | MySql | OtherEngine

  // ---------------------------------------------------------------------------
  // SQL text

  /**
   * The parameter slots a "%"-format string leaves for the query's
   * parameters: "%%" is a literal percent sign, any other '%' opens a slot.
   */
  function Slots(s: string): nat {
    if s == [] then 0
    else if s[0] != '%' then Slots(s[1..])
    else if |s| >= 2 && s[1] == '%' then Slots(s[2..])
    else 1 + Slots(s[1..])
  }

  const OracleDateFormat := ", 'YYYY-" + ("MM-DD " + ("HH24:" + ("MI:SS" + ".FF')")))
  /** The MySQL format, its percent signs doubled to pass through the query's own formatting. */
  const MySqlDateFormat := ", '" + ("%%" + ("Y-" + ("%%" + ("m-" + ("%%" + ("d " + ("%%" + ("H:" + ("%%" + ("i:" + ("%%" + "S')")))))))))))

  /** _db_to_date: the engine's conversion of a text parameter to a timestamp. */
  function DbToDate(engine: Engine): (r: string)
    ensures engine == OtherEngine ==> r == "%s"
    ensures |r| >= 2 && r[|r| - 1] != '%'
  {
    match engine
    case Oracle => "TO_TIMESTAMP(" + ("%s" + OracleDateFormat)
    case MySql => "STR_TO_DATE(" + ("%s" + MySqlDateFormat)
    case OtherEngine => "%s"
  }

  lemma {:induction false} SlotsSkip(a: string, b: string)
    requires '%' !in a
    ensures Slots(a + b) == Slots(b)
    decreases |a|
  {
    if a != [] {
      assert (a + b)[1..] == a[1..] + b;
      SlotsSkip(a[1..], b);
    } else {
      assert a + b == b;
    }
  }

  lemma SlotsEscaped(b: string)
    ensures Slots("%%" + b) == Slots(b)
  {
    assert ("%%" + b)[2..] == b;
  }

  lemma SlotsPlaceholder(b: string)
    ensures Slots("%s" + b) == 1 + Slots(b)
  {
    assert ("%s" + b)[1..] == "s" + b;
    SlotsSkip("s", b);
  }

  lemma OracleDateSlots()
    ensures Slots(DbToDate(Oracle)) == 1
  {
    var t3 := ".FF')";
    var t2 := "MI:SS" + t3;
    var t1 := "HH24:" + t2;
    var t0 := "MM-DD " + t1;
    SlotsSkip(t3, "");
    assert t3 + "" == t3;
    SlotsSkip("MI:SS", t3);
    SlotsSkip("HH24:", t2);
    SlotsSkip("MM-DD ", t1);
    SlotsSkip(", 'YYYY-", t0);
    SlotsPlaceholder(OracleDateFormat);
    SlotsSkip("TO_TIMESTAMP(", "%s" + OracleDateFormat);
  }

  /** The escaped MySQL format opens no slot. */
  lemma MySqlFormatSlots()
    ensures Slots(MySqlDateFormat) == 0
  {
    var t5 := "S')";
    var t4 := "i:" + ("%%" + t5);
    var t3 := "H:" + ("%%" + t4);
    var t2 := "d " + ("%%" + t3);
    var t1 := "m-" + ("%%" + t2);
    var t0 := "Y-" + ("%%" + t1);
    SlotsSkip(t5, "");
    assert t5 + "" == t5;
    SlotsEscaped(t5);
    SlotsSkip("i:", "%%" + t5);
    SlotsEscaped(t4);
    SlotsSkip("H:", "%%" + t4);
    SlotsEscaped(t3);
    SlotsSkip("d ", "%%" + t3);
    SlotsEscaped(t2);
    SlotsSkip("m-", "%%" + t2);
    SlotsEscaped(t1);
    SlotsSkip("Y-", "%%" + t1);
    SlotsEscaped(t0);
    SlotsSkip(", '", "%%" + t0);
  }

  lemma MySqlDateSlots()
    ensures Slots(DbToDate(MySql)) == 1
  {
    SlotsSkip("STR_TO_DATE(", "%s" + MySqlDateFormat);
    SlotsPlaceholder(MySqlDateFormat);
    MySqlFormatSlots();
  }

  /** Every engine's date expression takes exactly one query parameter (the not-before time). */
  lemma DbToDateTakesOneParameter(engine: Engine)
    ensures Slots(DbToDate(engine)) == 1
  {
    match engine
    case Oracle => OracleDateSlots();
    case MySql => MySqlDateSlots();
    case OtherEngine =>
      SlotsPlaceholder("");
      assert "%s" + "" == "%s";
  }

  /** _db_limit: at most `limit` rows of the query `sql`. */
  function DbLimit(engine: Engine, sql: string, limit: int): (r: string)
    ensures engine == OtherEngine ==> r == sql
    ensures engine == MySql ==> |r| > |sql| + 7 && r[..|sql|] == sql && r[|sql|..|sql| + 7] == " LIMIT "
    ensures engine == Oracle ==> |r| > |sql| + 33 && r[15..15 + |sql|] == sql
  {
    match engine
    case Oracle => "SELECT * FROM (" + sql + ") WHERE rownum <= " + IntToString(limit)
    case MySql => sql + " LIMIT " + IntToString(limit)
    case OtherEngine => sql
  }

  /** The query and the limit can be read back from the limited query. */
  lemma DbLimitRoundTrip(engine: Engine, sql: string, limit: int)
    ensures engine == MySql ==>
      var r := DbLimit(engine, sql, limit);
      r[..|sql|] == sql && r[|sql|..|sql| + 7] == " LIMIT " && ParseSigned(r[|sql| + 7..]) == Some(limit)
    ensures engine == Oracle ==>
      var r := DbLimit(engine, sql, limit);
      r[..15] == "SELECT * FROM (" && r[15..15 + |sql|] == sql &&
      r[15 + |sql|..15 + |sql| + 18] == ") WHERE rownum <= " &&
      ParseSigned(r[15 + |sql| + 18..]) == Some(limit)
  {
    ParseSignedOfIntToString(limit);
    var n := IntToString(limit);
    if engine == MySql {
      var r := sql + " LIMIT " + n;
      assert r[|sql|..|sql| + 7] == " LIMIT ";
      assert r[|sql| + 7..] == n;
    } else if engine == Oracle {
      var r := "SELECT * FROM (" + sql + ") WHERE rownum <= " + n;
      assert r[..15] == "SELECT * FROM (";
      assert r[15 + |sql|..15 + |sql| + 18] == ") WHERE rownum <= ";
      assert r[15 + |sql| + 18..] == n;
    }
  }

  // ---------------------------------------------------------------------------
  // _get_pair_limits

  /** A row of t_optimize: source, destination, throughput limit, active limit (NULL as None). */
  datatype LimitRow = LimitRow(source: string, dest: string, throughput: Option<int>, active: Option<int>)

  /** Python truthiness of a nullable number: neither NULL nor 0. */
  predicate Truthy(v: Option<int>) {
    v.Some? && v.value != 0
  }

  datatype Section = SourceSection | DestinationSection
  datatype LimitKey = Bandwidth | Active

  function KeyName(k: LimitKey): string {
    match k
    case Bandwidth => "bandwidth"
    case Active => "active"
  }

  /** The row updates this section: a matching source wins over a matching destination. */
  predicate Selects(l: LimitRow, sec: Section, source: string, destination: string) {
    match sec
    case SourceSection => l.source == source
    case DestinationSection => l.source != source && l.dest == destination
  }

  /** The row records this key: a truthy throughput as bandwidth, else a truthy active. */
  predicate Writes(l: LimitRow, k: LimitKey) {
    match k
    case Bandwidth => Truthy(l.throughput)
    case Active => !Truthy(l.throughput) && Truthy(l.active)
  }

  function Written(l: LimitRow, k: LimitKey): int
    requires Writes(l, k)
  {
    match k
    case Bandwidth => l.throughput.value
    case Active => l.active.value
  }

  /** One loop iteration's effect on one section. */
  function UpdateSection(m: map<string, int>, l: LimitRow, sec: Section, source: string, destination: string): map<string, int> {
    if !Selects(l, sec, source, destination) then m
    else if Writes(l, Bandwidth) then m["bandwidth" := Written(l, Bandwidth)]
    else if Writes(l, Active) then m["active" := Written(l, Active)]
    else m
  }

  /** A section after the loop has seen `limits`. */
  function SectionAfter(limits: seq<LimitRow>, sec: Section, source: string, destination: string): map<string, int>
    decreases |limits|
  {
    if limits == [] then map[]
    else UpdateSection(SectionAfter(limits[..|limits| - 1], sec, source, destination), limits[|limits| - 1], sec, source, destination)
  }

  /** Row i is the last row that records key k in section sec. */
  predicate IsLastWrite(limits: seq<LimitRow>, i: int, sec: Section, k: LimitKey, source: string, destination: string) {
    0 <= i < |limits| && Selects(limits[i], sec, source, destination) && Writes(limits[i], k) &&
    forall j :: i < j < |limits| ==> !(Selects(limits[j], sec, source, destination) && Writes(limits[j], k))
  }

  /** The section holds, for each key, exactly the value of the last row recording it. */
  predicate HoldsLastWrites(m: map<string, int>, limits: seq<LimitRow>, sec: Section, source: string, destination: string) {
    (forall key :: key in m ==> key == "bandwidth" || key == "active") &&
    (forall k: LimitKey :: KeyName(k) in m <==> exists i :: 0 <= i < |limits| && IsLastWrite(limits, i, sec, k, source, destination)) &&
    (forall k: LimitKey, i :: 0 <= i < |limits| && IsLastWrite(limits, i, sec, k, source, destination) ==>
       KeyName(k) in m && m[KeyName(k)] == Written(limits[i], k))
  }

  lemma LastWriteOfAppended(limits: seq<LimitRow>, l: LimitRow, sec: Section, k: LimitKey, source: string, destination: string)
    ensures Selects(l, sec, source, destination) && Writes(l, k) ==>
      IsLastWrite(limits + [l], |limits|, sec, k, source, destination) &&
      forall i :: 0 <= i < |limits| ==> !IsLastWrite(limits + [l], i, sec, k, source, destination)
    ensures !(Selects(l, sec, source, destination) && Writes(l, k)) ==>
      !IsLastWrite(limits + [l], |limits|, sec, k, source, destination) &&
      forall i :: 0 <= i < |limits| ==> (IsLastWrite(limits + [l], i, sec, k, source, destination) <==> IsLastWrite(limits, i, sec, k, source, destination))
  {
    var ext := limits + [l];
    if !(Selects(l, sec, source, destination) && Writes(l, k)) {
      forall i | 0 <= i < |limits|
        ensures IsLastWrite(ext, i, sec, k, source, destination) <==> IsLastWrite(limits, i, sec, k, source, destination)
      {
        assert ext[i] == limits[i];
        assert forall j :: i < j < |limits| ==> ext[j] == limits[j];
      }
    }
  }

  /** One row changes at most the key it records. */
  lemma UpdateSectionKey(m: map<string, int>, l: LimitRow, sec: Section, k: LimitKey, source: string, destination: string)
    ensures var u := UpdateSection(m, l, sec, source, destination);
      (Selects(l, sec, source, destination) && Writes(l, k) ==> KeyName(k) in u && u[KeyName(k)] == Written(l, k)) &&
      (!(Selects(l, sec, source, destination) && Writes(l, k)) ==>
        (KeyName(k) in u <==> KeyName(k) in m) && (KeyName(k) in m ==> u[KeyName(k)] == m[KeyName(k)]))
  {
  }

  /** The loop's fold keeps, for key k, the value of the last row recording it. */
  lemma {:induction false} SectionAfterKey(limits: seq<LimitRow>, sec: Section, k: LimitKey, source: string, destination: string)
    ensures var m := SectionAfter(limits, sec, source, destination);
      (KeyName(k) in m <==> exists i :: 0 <= i < |limits| && IsLastWrite(limits, i, sec, k, source, destination)) &&
      (forall i :: 0 <= i < |limits| && IsLastWrite(limits, i, sec, k, source, destination) ==>
         KeyName(k) in m && m[KeyName(k)] == Written(limits[i], k))
    decreases |limits|
  {
    if limits != [] {
      var init, l := limits[..|limits| - 1], limits[|limits| - 1];
      assert limits == init + [l];
      SectionAfterKey(init, sec, k, source, destination);
      LastWriteOfAppended(init, l, sec, k, source, destination);
      UpdateSectionKey(SectionAfter(init, sec, source, destination), l, sec, k, source, destination);
      if Selects(l, sec, source, destination) && Writes(l, k) {
        assert IsLastWrite(limits, |init|, sec, k, source, destination);
      } else if KeyName(k) in SectionAfter(init, sec, source, destination) {
        var i :| 0 <= i < |init| && IsLastWrite(init, i, sec, k, source, destination);
        assert IsLastWrite(limits, i, sec, k, source, destination);
      }
    }
  }

  lemma {:induction false} SectionAfterKeys(limits: seq<LimitRow>, sec: Section, source: string, destination: string)
    ensures forall key :: key in SectionAfter(limits, sec, source, destination) ==> key == "bandwidth" || key == "active"
    decreases |limits|
  {
    if limits != [] {
      SectionAfterKeys(limits[..|limits| - 1], sec, source, destination);
    }
  }

  /** The loop's fold records, per key, the last matching row: later rows overwrite earlier ones. */
  lemma SectionAfterHoldsLastWrites(limits: seq<LimitRow>, sec: Section, source: string, destination: string)
    ensures HoldsLastWrites(SectionAfter(limits, sec, source, destination), limits, sec, source, destination)
  {
    SectionAfterKeys(limits, sec, source, destination);
    var m := SectionAfter(limits, sec, source, destination);
    forall k: LimitKey
      ensures KeyName(k) in m <==> exists i :: 0 <= i < |limits| && IsLastWrite(limits, i, sec, k, source, destination)
      ensures forall i :: 0 <= i < |limits| && IsLastWrite(limits, i, sec, k, source, destination) ==>
                KeyName(k) in m && m[KeyName(k)] == Written(limits[i], k)
    {
      SectionAfterKey(limits, sec, k, source, destination);
    }
  }

  /** The result: a section appears only when it recorded something. */
  function PairLimits(src: map<string, int>, dst: map<string, int>): (r: map<string, map<string, int>>)
    ensures "source" in r <==> |src| != 0
    ensures "destination" in r <==> |dst| != 0
    ensures "source" in r ==> r["source"] == src
    ensures "destination" in r ==> r["destination"] == dst
    ensures forall key :: key in r ==> key == "source" || key == "destination"
  {
    var r := map["source" := src, "destination" := dst];
    var r := if |src| == 0 then r - {"source"} else r;
    if |dst| == 0 then r - {"destination"} else r
  }

  /** _get_pair_limits: the limits of the pair's source and destination, the last matching row winning. */
  method GetPairLimits(limits: seq<LimitRow>, source: string, destination: string) returns (r: map<string, map<string, int>>)
    ensures r == PairLimits(SectionAfter(limits, SourceSection, source, destination),
                            SectionAfter(limits, DestinationSection, source, destination))
    ensures "source" in r ==> HoldsLastWrites(r["source"], limits, SourceSection, source, destination)
    ensures "destination" in r ==> HoldsLastWrites(r["destination"], limits, DestinationSection, source, destination)
  {
    var src: map<string, int> := map[];
    var dst: map<string, int> := map[];
    for i := 0 to |limits|
      invariant src == SectionAfter(limits[..i], SourceSection, source, destination)
      invariant dst == SectionAfter(limits[..i], DestinationSection, source, destination)
    {
      var l := limits[i];
      assert limits[..i + 1][..i] == limits[..i];
      if l.source == source {
        if Truthy(l.throughput) {
          src := src["bandwidth" := l.throughput.value];
        } else if Truthy(l.active) {
          src := src["active" := l.active.value];
        }
      } else if l.dest == destination {
        if Truthy(l.throughput) {
          dst := dst["bandwidth" := l.throughput.value];
        } else if Truthy(l.active) {
          dst := dst["active" := l.active.value];
        }
      }
    }
    assert limits[..|limits|] == limits;
    SectionAfterHoldsLastWrites(limits, SourceSection, source, destination);
    SectionAfterHoldsLastWrites(limits, DestinationSection, source, destination);
    r := PairLimits(src, dst);
  }

  /** A row whose source matches never touches the destination section, whatever its destination. */
  lemma SourceMatchShadowsDestination(limits: seq<LimitRow>, source: string, destination: string, l: LimitRow)
    requires l.source == source
    ensures SectionAfter(limits + [l], DestinationSection, source, destination) ==
            SectionAfter(limits, DestinationSection, source, destination)
  {
    assert (limits + [l])[..|limits|] == limits;
  }

  // ---------------------------------------------------------------------------
  // all_triplets

  type Triplet = (string, string, string)

  /** The triplets of `ts` that are neither in `seen` nor earlier in `ts`, in order. */
  function FreshOnes(ts: seq<Triplet>, seen: set<Triplet>): (r: seq<Triplet>)
    ensures forall i, j :: 0 <= i < j < |r| ==> r[i] != r[j]
    ensures forall i :: 0 <= i < |r| ==> r[i] !in seen
    ensures forall t :: t in r <==> t in ts && t !in seen
    decreases |ts|
  {
    if ts == [] then []
    else
      var init, t := ts[..|ts| - 1], ts[|ts| - 1];
      var p := FreshOnes(init, seen);
      assert forall x :: x in ts <==> x in init || x == t;
      if t in seen || t in init then p else p + [t]
  }

  lemma FreshOnesSnoc(ts: seq<Triplet>, t: Triplet, seen: set<Triplet>)
    ensures FreshOnes(ts + [t], seen) == if t in seen || t in ts then FreshOnes(ts, seen) else FreshOnes(ts, seen) + [t]
  {
    assert (ts + [t])[..|ts|] == ts;
  }

  function Elems(ts: seq<Triplet>): set<Triplet> {
    set t | t in ts
  }

  lemma ElemsAppend(ts: seq<Triplet>, t: Triplet)
    ensures Elems(ts + [t]) == Elems(ts) + {t}
  {
    assert forall x :: x in ts + [t] <==> x in ts || x == t;
  }

  /** What all_triplets yields: the first query's triplets, then the new ones of the terminal query. */
  lemma AllTripletsYieldEachOnce(first: seq<Triplet>, terminal: seq<Triplet>)
    ensures var out := first + FreshOnes(terminal, Elems(first));
      (forall t :: t in out <==> t in first || t in terminal) &&
      (forall i, j :: |first| <= i < j < |out| ==> out[i] != out[j]) &&
      (forall i, j :: 0 <= i < |first| <= j < |out| ==> out[i] != out[j])
  {
    var newOnes := FreshOnes(terminal, Elems(first));
    var out := first + newOnes;
    forall i, j | |first| <= i < j < |out|
      ensures out[i] != out[j]
    {
      assert out[i] == newOnes[i - |first|] && out[j] == newOnes[j - |first|];
    }
    forall i, j | 0 <= i < |first| <= j < |out|
      ensures out[i] != out[j]
    {
      assert out[j] == newOnes[j - |first|] && out[i] in Elems(first);
    }
  }

  /**
   * all_triplets: every triplet of the active query, then those of the
   * terminal query not yielded yet.
   */
  method AllTriplets(first: seq<Triplet>, terminal: seq<Triplet>) returns (out: seq<Triplet>)
    ensures out == first + FreshOnes(terminal, Elems(first))
    ensures forall t :: t in out <==> t in first || t in terminal
    ensures forall i, j :: |first| <= i < j < |out| ==> out[i] != out[j]
    ensures forall i, j :: 0 <= i < |first| <= j < |out| ==> out[i] != out[j]
  {
    var seen: set<Triplet> := {};
    out := [];
    for i := 0 to |first|
      invariant out == first[..i]
      invariant seen == Elems(first[..i])
    {
      assert first[..i + 1] == first[..i] + [first[i]];
      ElemsAppend(first[..i], first[i]);
      seen := seen + {first[i]};
      out := out + [first[i]];
    }
    assert first[..|first|] == first;
    ghost var seenFirst := seen;
    for j := 0 to |terminal|
      invariant out == first + FreshOnes(terminal[..j], seenFirst)
      invariant seen == seenFirst + Elems(terminal[..j])
    {
      var t := terminal[j];
      ghost var before := terminal[..j];
      assert terminal[..j + 1] == before + [t];
      FreshOnesSnoc(before, t, seenFirst);
      ElemsAppend(before, t);
      assert t in seen <==> t in seenFirst || t in before;
      if t !in seen {
        seen := seen + {t};
        out := out + [t];
      } else {
        assert seen + {t} == seen;
      }
    }
    assert terminal[..|terminal|] == terminal;
    AllTripletsYieldEachOnce(first, terminal);
  }

  // ---------------------------------------------------------------------------
  // Per-pair counters and the summary

  /** A pair's counters by file state, as the overview builds them. */
  type Counters = map<string, int>

  /** o.get(key, 0). */
  function Get(o: Counters, key: string): int {
    if key in o then o[key] else 0
  }

  /** 'current' is set to 0 only when the pair has 'active' but no 'current'. */
  function DefaultCurrent(o: Counters): (r: Counters)
    ensures "current" in r <==> "current" in o || "active" in o
    ensures "current" in o ==> r == o
    ensures "current" !in o && "active" in o ==> r["current"] == 0
    ensures forall key :: key != "current" ==> (key in r <==> key in o)
    ensures forall key :: key in o ==> r[key] == o[key]
  {
    if "current" !in o && "active" in o then o["current" := 0] else o
  }

  lemma DefaultCurrentIdempotent(o: Counters)
    ensures DefaultCurrent(DefaultCurrent(o)) == DefaultCurrent(o)
  {
  }

  /** sum(map(lambda o: o.get(key, 0), objs), 0). */
  function SumOf(objs: seq<Counters>, key: string): (r: int)
    ensures (forall i :: 0 <= i < |objs| ==> Get(objs[i], key) >= 0) ==> r >= 0
    ensures (forall i :: 0 <= i < |objs| ==> key !in objs[i]) ==> r == 0
    decreases |objs|
  {
    if objs == [] then 0 else SumOf(objs[..|objs| - 1], key) + Get(objs[|objs| - 1], key)
  }

  /** The sum over two runs of pairs is the sum of the sums. */
  lemma {:induction false} SumOfAppend(a: seq<Counters>, b: seq<Counters>, key: string)
    ensures SumOf(a + b, key) == SumOf(a, key) + SumOf(b, key)
    decreases |b|
  {
    if b == [] {
      assert a + b == a;
    } else {
      var init := b[..|b| - 1];
      assert (a + b)[..|a + b| - 1] == a + init;
      SumOfAppend(a, init, key);
    }
  }

  /** Each pair's count is at most the total when all counts are non-negative. */
  lemma {:induction false} SumBoundsEach(objs: seq<Counters>, key: string, i: nat)
    requires i < |objs|
    requires forall j :: 0 <= j < |objs| ==> Get(objs[j], key) >= 0
    ensures Get(objs[i], key) <= SumOf(objs, key)
    decreases |objs|
  {
    if i < |objs| - 1 {
      SumBoundsEach(objs[..|objs| - 1], key, i);
    }
  }

  const SummaryKeys := ["submitted", "active", "finished", "failed", "canceled", "current", "staging", "started"]

  /** The summary of get_overview (its 'rate' is floating point and not modelled). */
  function Summary(objs: seq<Counters>): (r: map<string, int>)
    ensures r.Keys == set k | k in SummaryKeys
    ensures forall k :: k in r ==> r[k] == SumOf(objs, k)
  {
    map k | k in SummaryKeys :: SumOf(objs, k)
  }

  /** Summaries add up over any split of the pairs. */
  lemma SummaryAdditive(a: seq<Counters>, b: seq<Counters>)
    ensures forall k :: k in SummaryKeys ==> Summary(a + b)[k] == Summary(a)[k] + Summary(b)[k]
  {
    forall k | k in SummaryKeys
      ensures Summary(a + b)[k] == Summary(a)[k] + Summary(b)[k]
    {
      SumOfAppend(a, b, k);
    }
  }
}
