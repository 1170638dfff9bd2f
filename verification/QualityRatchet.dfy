/**
 * The quality ratchet (scripts/quality-baseline-policy.js): when a baseline is
 * consistent with itself, and when one baseline may replace another.
 */
module QualityRatchet {
  import opened Common

  /** A JSON method score: null, a finite number, or anything the validator refuses. */
  datatype Score = Unmeasured | Measured(value: real) | Malformed

  datatype MethodKey = MethodKey(name: string)

  datatype CrapBaseline = CrapBaseline(
    version: int,
    newCodeThreshold: real,
    maxCrap: real,
    methodsAboveThreshold: int,
    unmeasuredMethods: int,
    methods: map<MethodKey, Score>)

  datatype Rejection =
    | BadVersion | BadThreshold | BadMaximum | BadCount | EmptyMethodKey | BadScore(key: MethodKey)
    | DishonestMaximum | DishonestAboveCount | DishonestUnmeasuredCount

  datatype Failure =
    | ThresholdIncreased | MaximumIncreased | AboveIncreased | UnmeasuredIncreased
    | LostCoverage(key: MethodKey) | NewUnmeasured(key: MethodKey)
    | ScoreIncreased(key: MethodKey) | NewTooComplex(key: MethodKey)

  // -------------------------------------------------------------- definitions

  predicate ExceedsAt(methods: map<MethodKey, Score>, m: MethodKey, threshold: real) {
    m in methods && methods[m].Measured? && methods[m].value > threshold
  }

  function Above(methods: map<MethodKey, Score>, threshold: real): set<MethodKey> {
    set m | m in methods && ExceedsAt(methods, m, threshold)
  }

  function UnmeasuredIn(methods: map<MethodKey, Score>): set<MethodKey> {
    set m | m in methods && methods[m].Unmeasured?
  }

  /** `x` is the largest measured score among `keys`, or zero when there is none above it. */
  ghost predicate IsMaximum(methods: map<MethodKey, Score>, keys: set<MethodKey>, x: real) {
    x >= 0.0 &&
    (forall m :: m in keys && m in methods && methods[m].Measured? ==> methods[m].value <= x) &&
    (x == 0.0 || exists m :: m in keys && m in methods && methods[m] == Measured(x))
  }

  ghost predicate GoodScores(methods: map<MethodKey, Score>) {
    AllGood(methods, methods.Keys)
  }

  /** What a trustworthy baseline is: sane fields, and aggregates that match the method map. */
  ghost predicate ValidCrap(b: CrapBaseline) {
    b.version == 1 && b.newCodeThreshold >= 0.0 && b.maxCrap >= 0.0 &&
    b.methodsAboveThreshold >= 0 && b.unmeasuredMethods >= 0 &&
    GoodScores(b.methods) &&
    IsMaximum(b.methods, b.methods.Keys, b.maxCrap) &&
    b.methodsAboveThreshold == |Above(b.methods, b.newCodeThreshold)| &&
    b.unmeasuredMethods == |UnmeasuredIn(b.methods)|
  }

  ghost predicate Fails(f: Failure, current: CrapBaseline, base: CrapBaseline) {
    match f
    case ThresholdIncreased => current.newCodeThreshold > base.newCodeThreshold
    case MaximumIncreased => current.maxCrap > base.maxCrap
    case AboveIncreased => current.methodsAboveThreshold > |Above(base.methods, current.newCodeThreshold)|
    case UnmeasuredIncreased => current.unmeasuredMethods > base.unmeasuredMethods
    case LostCoverage(m) =>
      m in current.methods && current.methods[m].Unmeasured? && m in base.methods && base.methods[m].Measured?
    case NewUnmeasured(m) => m in current.methods && current.methods[m].Unmeasured? && m !in base.methods
    case ScoreIncreased(m) =>
      m in current.methods && current.methods[m].Measured? && m in base.methods && base.methods[m].Measured? &&
      current.methods[m].value > base.methods[m].value
    case NewTooComplex(m) =>
      m !in base.methods && ExceedsAt(current.methods, m, current.newCodeThreshold)
  }

  ghost predicate Accepted(current: CrapBaseline, base: CrapBaseline) {
    forall f :: !Fails(f, current, base)
  }

  // -------------------------------------------------------------- the programs

  method ValidateCrapBaseline(b: CrapBaseline) returns (error: Option<Rejection>)
    ensures error.None? <==> ValidCrap(b)
    ensures error == Some(DishonestMaximum) ==> !IsMaximum(b.methods, b.methods.Keys, b.maxCrap)
    ensures error == Some(DishonestAboveCount) ==>
      b.methodsAboveThreshold != |Above(b.methods, b.newCodeThreshold)|
    ensures error == Some(DishonestUnmeasuredCount) ==> b.unmeasuredMethods != |UnmeasuredIn(b.methods)|
  {
    if b.version != 1 { return Some(BadVersion); }
    if b.newCodeThreshold < 0.0 { return Some(BadThreshold); }
    if b.maxCrap < 0.0 { return Some(BadMaximum); }
    if b.methodsAboveThreshold < 0 || b.unmeasuredMethods < 0 { return Some(BadCount); }
    var bad, measuredMaximum, above, unmeasured := Aggregate(b.methods, b.newCodeThreshold);
    if bad.Some? { return bad; }
    if b.maxCrap != measuredMaximum {
      MaximumIsUnique(b.methods, b.methods.Keys, b.maxCrap, measuredMaximum);
      return Some(DishonestMaximum);
    }
    if b.methodsAboveThreshold != above { return Some(DishonestAboveCount); }
    if b.unmeasuredMethods != unmeasured { return Some(DishonestUnmeasuredCount); }
    return None;
  }

  predicate AcceptableScore(m: MethodKey, score: Score) {
    m.name != "" && !score.Malformed? && (score.Measured? ==> score.value >= 0.0)
  }

  ghost predicate AllGood(methods: map<MethodKey, Score>, keys: set<MethodKey>) {
    forall m :: m in keys && m in methods ==> AcceptableScore(m, methods[m])
  }

  lemma OneMoreGood(methods: map<MethodKey, Score>, done: set<MethodKey>, m: MethodKey)
    requires AllGood(methods, done) && m in methods && AcceptableScore(m, methods[m])
    ensures AllGood(methods, done + {m})
  {}

  /** One pass over the method map: its maximum and its two counts, or the first bad entry. */
  method Aggregate(methods: map<MethodKey, Score>, threshold: real)
    returns (bad: Option<Rejection>, maximum: real, above: nat, unmeasured: nat)
    ensures bad.None? <==> GoodScores(methods)
    ensures bad.Some? ==> bad.value == EmptyMethodKey || bad.value.BadScore?
    ensures bad.None? ==>
      IsMaximum(methods, methods.Keys, maximum) &&
      above == |Above(methods, threshold)| && unmeasured == |UnmeasuredIn(methods)|
  {
    hide Tallied, AllGood, IsMaximum, Above, UnmeasuredIn;
    maximum, above, unmeasured := 0.0, 0, 0;
    var left := methods.Keys;
    ghost var done := {};
    NothingTallied(methods, threshold);
    while left != {}
      invariant left + done == methods.Keys && left !! done
      invariant AllGood(methods, done)
      invariant Tallied(methods, threshold, done, maximum, above, unmeasured)
    {
      var m :| m in left;
      if !AcceptableScore(m, methods[m]) {
        OneBadEntry(methods, m);
        return Some(if m.name == "" then EmptyMethodKey else BadScore(m)), maximum, above, unmeasured;
      }
      TallyOneMore(methods, threshold, done, m, maximum, above, unmeasured);
      OneMoreGood(methods, done, m);
      if methods[m].Unmeasured? {
        unmeasured := unmeasured + 1;
      } else {
        maximum := if methods[m].value > maximum then methods[m].value else maximum;
        above := if methods[m].value > threshold then above + 1 else above;
      }
      done, left := done + {m}, left - {m};
    }
    assert done == methods.Keys;
    TallyOfAll(methods, threshold, maximum, above, unmeasured);
    bad := None;
  }

  /** The three running figures after the entries in `done`. */
  ghost predicate Tallied(methods: map<MethodKey, Score>, threshold: real, done: set<MethodKey>,
                          maximum: real, above: nat, unmeasured: nat) {
    IsMaximum(methods, done, maximum) &&
    above == |Above(methods, threshold) * done| && unmeasured == |UnmeasuredIn(methods) * done|
  }

  lemma NothingTallied(methods: map<MethodKey, Score>, threshold: real)
    ensures Tallied(methods, threshold, {}, 0.0, 0, 0) && AllGood(methods, {})
  {}

  lemma OneBadEntry(methods: map<MethodKey, Score>, m: MethodKey)
    requires m in methods && !AcceptableScore(m, methods[m])
    ensures !AllGood(methods, methods.Keys)
  {}

  lemma TallyOfAll(methods: map<MethodKey, Score>, threshold: real, maximum: real, above: nat, unmeasured: nat)
    requires Tallied(methods, threshold, methods.Keys, maximum, above, unmeasured)
    ensures IsMaximum(methods, methods.Keys, maximum)
    ensures above == |Above(methods, threshold)| && unmeasured == |UnmeasuredIn(methods)|
  {
    assert Above(methods, threshold) * methods.Keys == Above(methods, threshold);
    assert UnmeasuredIn(methods) * methods.Keys == UnmeasuredIn(methods);
  }

  lemma TallyOneMore(methods: map<MethodKey, Score>, threshold: real, done: set<MethodKey>, m: MethodKey,
                     maximum: real, above: nat, unmeasured: nat)
    requires Tallied(methods, threshold, done, maximum, above, unmeasured)
    requires m in methods && m !in done && !methods[m].Malformed?
    ensures if methods[m].Unmeasured? then Tallied(methods, threshold, done + {m}, maximum, above, unmeasured + 1)
            else Tallied(methods, threshold, done + {m},
                         if methods[m].value > maximum then methods[m].value else maximum,
                         if methods[m].value > threshold then above + 1 else above, unmeasured)
  {
    CountOneMore(Above(methods, threshold), done, m);
    CountOneMore(UnmeasuredIn(methods), done, m);
    MaximumOneMore(methods, done, m, maximum);
  }

  lemma CountOneMore(counted: set<MethodKey>, done: set<MethodKey>, m: MethodKey)
    requires m !in done
    ensures |counted * (done + {m})| == |counted * done| + if m in counted then 1 else 0
  {
    assert counted * (done + {m}) == counted * done + if m in counted then {m} else {};
  }

  lemma MaximumOneMore(methods: map<MethodKey, Score>, done: set<MethodKey>, m: MethodKey, x: real)
    requires IsMaximum(methods, done, x) && m in methods && !methods[m].Malformed?
    ensures IsMaximum(methods, done + {m},
                      if methods[m].Measured? && methods[m].value > x then methods[m].value else x)
  {}

  lemma MaximumIsUnique(methods: map<MethodKey, Score>, keys: set<MethodKey>, x: real, y: real)
    requires IsMaximum(methods, keys, y) && x != y
    ensures !IsMaximum(methods, keys, x)
  {}

  /** The failure list holds exactly the rules that are broken, once each. */
  method CompareCrapBaselines(current: CrapBaseline, base: CrapBaseline)
    returns (error: Option<Rejection>, failures: seq<Failure>)
    ensures error.None? <==> ValidCrap(current) && ValidCrap(base)
    ensures error.None? ==> forall f :: f in failures <==> Fails(f, current, base)
    ensures error.None? ==> Distinct(failures)
  {
    failures := [];
    error := ValidateCrapBaseline(current);
    if error.Some? { return; }
    error := ValidateCrapBaseline(base);
    if error.Some? { return; }
    failures := CompareAggregates(current, base);
    var found := CompareMethods(current, base);
    assert forall i, j :: 0 <= i < |failures| && 0 <= j < |found| ==> failures[i] != found[j] by {
      assert forall i :: 0 <= i < |failures| ==> failures[i] in failures;
      assert forall j :: 0 <= j < |found| ==> found[j] in found;
    }
    failures := failures + found;
  }

  ghost predicate Distinct(failures: seq<Failure>) {
    forall i, j :: 0 <= i < j < |failures| ==> failures[i] != failures[j]
  }

  method CompareAggregates(current: CrapBaseline, base: CrapBaseline) returns (failures: seq<Failure>)
    ensures forall f :: f in failures <==> IsAggregate(f) && Fails(f, current, base)
    ensures Distinct(failures)
  {
    failures := [];
    if current.newCodeThreshold > base.newCodeThreshold {
      failures := failures + [ThresholdIncreased];
    }
    if current.maxCrap > base.maxCrap {
      failures := failures + [MaximumIncreased];
    }
    if current.methodsAboveThreshold > |Above(base.methods, current.newCodeThreshold)| {
      failures := failures + [AboveIncreased];
    }
    if current.unmeasuredMethods > base.unmeasuredMethods {
      failures := failures + [UnmeasuredIncreased];
    }
  }

  predicate IsAggregate(f: Failure) {
    f.ThresholdIncreased? || f.MaximumIncreased? || f.AboveIncreased? || f.UnmeasuredIncreased?
  }

  predicate Concerns(f: Failure, keys: set<MethodKey>) {
    !IsAggregate(f) && f.key in keys
  }

  method CompareMethods(current: CrapBaseline, base: CrapBaseline) returns (found: seq<Failure>)
    requires GoodScores(current.methods) && GoodScores(base.methods)
    ensures forall f :: f in found <==> !IsAggregate(f) && Fails(f, current, base)
    ensures Distinct(found)
  {
    found := [];
    var left := current.methods.Keys;
    ghost var done := {};
    while left != {}
      invariant done + left == current.methods.Keys && done !! left
      invariant forall f :: f in found <==> Concerns(f, done) && Fails(f, current, base)
      invariant Distinct(found)
    {
      var m :| m in left;
      var more := CompareMethod(current, base, m);
      AppendDistinct(found, more, done, m);
      found := found + more;
      done, left := done + {m}, left - {m};
    }
    assert done == current.methods.Keys;
  }

  lemma AppendDistinct(found: seq<Failure>, more: seq<Failure>, done: set<MethodKey>, m: MethodKey)
    requires |more| <= 1 && m !in done
    requires forall f :: f in found ==> Concerns(f, done)
    requires forall f :: f in more ==> Concerns(f, {m})
    requires Distinct(found)
    ensures Distinct(found + more)
  {
    if more != [] {
      assert more[0] in more && more[0] !in found;
    }
  }

  method CompareMethod(current: CrapBaseline, base: CrapBaseline, m: MethodKey) returns (found: seq<Failure>)
    requires m in current.methods && GoodScores(current.methods) && GoodScores(base.methods)
    ensures |found| <= 1
    ensures forall f :: f in found <==> Concerns(f, {m}) && Fails(f, current, base)
  {
    var wasTracked := m in base.methods;
    var previous := if wasTracked then base.methods[m] else Malformed;
    var score := current.methods[m];
    if score.Unmeasured? {
      if previous.Measured? {
        return [LostCoverage(m)];
      } else if !wasTracked {
        return [NewUnmeasured(m)];
      }
      return [];
    }
    if previous.Measured? && score.value > previous.value {
      return [ScoreIncreased(m)];
    } else if !wasTracked && score.value > current.newCodeThreshold {
      return [NewTooComplex(m)];
    }
    return [];
  }

  // ---------------------------------------------------------- the ratchet laws

  /** A consistent baseline may always replace itself. */
  lemma Reflexive(b: CrapBaseline)
    requires ValidCrap(b)
    ensures Accepted(b, b)
  {}

  /** `m` was tracked, vanished, and came back. */
  ghost predicate Reappears(m: MethodKey, c: CrapBaseline, b: CrapBaseline, a: CrapBaseline) {
    m in a.methods && m !in b.methods && m in c.methods
  }

  ghost predicate NoneReappears(c: CrapBaseline, b: CrapBaseline, a: CrapBaseline) {
    forall m :: !Reappears(m, c, b, a)
  }

  /** What two accepted steps leave to check before they compose to one. */
  ghost predicate Composable(c: CrapBaseline, b: CrapBaseline, a: CrapBaseline) {
    c.methodsAboveThreshold <= |Above(a.methods, c.newCodeThreshold)| &&
    (forall m :: Reappears(m, c, b, a) && a.methods[m].Measured? && c.methods[m].Measured? ==>
      c.methods[m].value <= a.methods[m].value) &&
    (forall m :: m in c.methods && m in b.methods && m !in a.methods ==>
      !ExceedsAt(c.methods, m, c.newCodeThreshold))
  }

  /** Two accepted steps compose exactly when these three checks pass. */
  lemma ComposesIff(c: CrapBaseline, b: CrapBaseline, a: CrapBaseline)
    requires ValidCrap(c) && ValidCrap(b) && ValidCrap(a)
    requires Accepted(c, b) && Accepted(b, a)
    ensures Accepted(c, a) <==> Composable(c, b, a)
  {
    if Composable(c, b, a) {
      forall f
        ensures !Fails(f, c, a)
      {
        StepsExclude(f, c, b, a);
      }
    } else {
      assert Fails(AboveIncreased, c, a) || exists m :: Fails(ScoreIncreased(m), c, a) || Fails(NewTooComplex(m), c, a) by {
        if c.methodsAboveThreshold <= |Above(a.methods, c.newCodeThreshold)| {
          if m :| Reappears(m, c, b, a) && a.methods[m].Measured? && c.methods[m].Measured? &&
                  c.methods[m].value > a.methods[m].value {
            assert Fails(ScoreIncreased(m), c, a);
          } else {
            var m :| m in c.methods && m in b.methods && m !in a.methods && ExceedsAt(c.methods, m, c.newCodeThreshold);
            assert Fails(NewTooComplex(m), c, a);
          }
        }
      }
    }
  }

  lemma StepsExclude(f: Failure, c: CrapBaseline, b: CrapBaseline, a: CrapBaseline)
    requires ValidCrap(c) && ValidCrap(b) && ValidCrap(a)
    requires Accepted(c, b) && Accepted(b, a) && Composable(c, b, a)
    ensures !Fails(f, c, a)
  {
    assert !Fails(ThresholdIncreased, c, b) && !Fails(ThresholdIncreased, b, a);
    assert !Fails(MaximumIncreased, c, b) && !Fails(MaximumIncreased, b, a);
    assert !Fails(UnmeasuredIncreased, c, b) && !Fails(UnmeasuredIncreased, b, a);
    if !IsAggregate(f) {
      var m := f.key;
      assert !Fails(LostCoverage(m), c, b) && !Fails(LostCoverage(m), b, a);
      assert !Fails(NewUnmeasured(m), c, b) && !Fails(NewUnmeasured(m), b, a);
      assert !Fails(ScoreIncreased(m), c, b) && !Fails(ScoreIncreased(m), b, a);
      assert !Fails(NewTooComplex(m), c, b) && !Fails(NewTooComplex(m), b, a);
    }
  }

  /** With one threshold and no method that vanishes and returns, acceptance is transitive. */
  lemma Transitive(c: CrapBaseline, b: CrapBaseline, a: CrapBaseline)
    requires ValidCrap(c) && ValidCrap(b) && ValidCrap(a)
    requires Accepted(c, b) && Accepted(b, a)
    requires c.newCodeThreshold == b.newCodeThreshold == a.newCodeThreshold
    requires NoneReappears(c, b, a)
    ensures Accepted(c, a)
  {
    assert !Fails(AboveIncreased, c, b) && !Fails(AboveIncreased, b, a);
    forall m | m in c.methods && m in b.methods && m !in a.methods
      ensures !ExceedsAt(c.methods, m, c.newCodeThreshold)
    {
      assert !Fails(NewTooComplex(m), b, a) && !Fails(ScoreIncreased(m), c, b);
      assert !Fails(NewUnmeasured(m), b, a);
    }
    ComposesIff(c, b, a);
  }

  ghost predicate Chain(bs: seq<CrapBaseline>) {
    (forall i :: 0 <= i < |bs| ==> ValidCrap(bs[i]) && bs[i].newCodeThreshold == bs[0].newCodeThreshold) &&
    (forall i :: 0 <= i < |bs| - 1 ==> Accepted(bs[i + 1], bs[i])) &&
    (forall i, j, k :: 0 <= i < j < k < |bs| ==> NoneReappears(bs[k], bs[j], bs[i]))
  }

  /** However long the chain of accepted updates, its end may replace its beginning. */
  lemma {:induction false} ChainHolds(bs: seq<CrapBaseline>)
    requires bs != [] && Chain(bs)
    ensures Accepted(bs[|bs| - 1], bs[0])
  {
    if |bs| == 1 {
      Reflexive(bs[0]);
    } else {
      var init := bs[..|bs| - 1];
      assert Chain(init) by {
        forall i | 0 <= i < |init| - 1
          ensures Accepted(init[i + 1], init[i])
        {
          assert Accepted(bs[i + 1], bs[i]);
        }
        forall i, j, k | 0 <= i < j < k < |init|
          ensures NoneReappears(init[k], init[j], init[i])
        {
          assert NoneReappears(bs[k], bs[j], bs[i]);
        }
      }
      ChainHolds(init);
      if |bs| > 2 {
        assert Accepted(bs[|bs| - 2 + 1], bs[|bs| - 2]);
        Transitive(bs[|bs| - 1], bs[|bs| - 2], bs[0]);
      }
    }
  }

  // ------------------------------------------- what goes wrong without the conditions

  /** A method that vanishes and returns may come back with a worse score. */
  lemma ReappearanceBreaksTransitivity() returns (a: CrapBaseline, b: CrapBaseline, c: CrapBaseline)
    ensures ValidCrap(a) && ValidCrap(b) && ValidCrap(c) && Accepted(b, a) && Accepted(c, b) && !Accepted(c, a)
    ensures a.newCodeThreshold == b.newCodeThreshold == c.newCodeThreshold
  {
    var m, n := MethodKey("m"), MethodKey("n");
    var before := map[m := Measured(1.0), n := Measured(5.0)];
    var between := map[n := Measured(5.0)];
    var later := map[m := Measured(2.0), n := Measured(5.0)];
    a := CrapBaseline(1, 8.0, 5.0, 0, 0, before);
    b := CrapBaseline(1, 8.0, 5.0, 0, 0, between);
    c := CrapBaseline(1, 8.0, 5.0, 0, 0, later);
    assert before[n] == between[n] == later[n] == Measured(5.0);
    assert Fails(ScoreIncreased(m), c, a);
  }

  /** Lowering the threshold between two accepted steps can break their composition. */
  lemma LoweredThresholdBreaksTransitivity() returns (a: CrapBaseline, b: CrapBaseline, c: CrapBaseline)
    ensures ValidCrap(a) && ValidCrap(b) && ValidCrap(c) && Accepted(b, a) && Accepted(c, b) && !Accepted(c, a)
    ensures NoneReappears(c, b, a)
  {
    var m, n := MethodKey("m"), MethodKey("n");
    var before := map[n := Measured(7.0)];
    var both := map[m := Measured(7.0), n := Measured(7.0)];
    a := CrapBaseline(1, 8.0, 7.0, 0, 0, before);
    b := CrapBaseline(1, 8.0, 7.0, 0, 0, both);
    c := CrapBaseline(1, 6.0, 7.0, 2, 0, both);
    assert before[n] == both[n] == both[m] == Measured(7.0);
    assert Above(both, 6.0) == {m, n};
    assert Fails(NewTooComplex(m), c, a);
  }

  // ------------------------------------------------------------------- coverage

  datatype Coverage = Coverage(version: int, branches: real, functions: real, lines: real, statements: real)

  datatype Metric = Branches | Functions | Lines | Statements

  const METRICS: seq<Metric> := [Branches, Functions, Lines, Statements]

  function Floor(c: Coverage, m: Metric): real {
    match m
    case Branches => c.branches
    case Functions => c.functions
    case Lines => c.lines
    case Statements => c.statements
  }

  /** Version one, and every floor a percentage. */
  ghost predicate ValidCoverage(c: Coverage) {
    c.version == 1 && forall m: Metric :: 0.0 <= Floor(c, m) <= 100.0
  }

  datatype CoverageRejection = BadCoverageVersion | BadFloor(metric: Metric)

  lemma AllMetrics()
    ensures forall m: Metric :: m in METRICS
  {
    forall m: Metric
      ensures m in METRICS
    {
      match m
      case Branches => assert METRICS[0] == m;
      case Functions => assert METRICS[1] == m;
      case Lines => assert METRICS[2] == m;
      case Statements => assert METRICS[3] == m;
    }
  }

  /** Names the first metric, in the fixed order, that is no percentage. */
  method ValidateCoverageBaseline(c: Coverage) returns (error: Option<CoverageRejection>)
    ensures error.None? <==> ValidCoverage(c)
    ensures error == Some(BadCoverageVersion) <==> c.version != 1
    ensures error.Some? && error.value.BadFloor? ==> !(0.0 <= Floor(c, error.value.metric) <= 100.0)
  {
    AllMetrics();
    if c.version != 1 {
      return Some(BadCoverageVersion);
    }
    for i := 0 to |METRICS|
      invariant forall m :: m in METRICS[..i] ==> 0.0 <= Floor(c, m) <= 100.0
    {
      if !(0.0 <= Floor(c, METRICS[i]) <= 100.0) {
        return Some(BadFloor(METRICS[i]));
      }
    }
    assert METRICS[..|METRICS|] == METRICS;
    return None;
  }

  /** The metrics whose floor went down, in the fixed order. */
  method CompareCoverageBaselines(current: Coverage, base: Coverage)
    returns (error: Option<CoverageRejection>, failures: seq<Metric>)
    ensures error.None? <==> ValidCoverage(current) && ValidCoverage(base)
    ensures error.None? ==> forall m :: m in failures <==> Floor(current, m) < Floor(base, m)
    ensures forall a, b :: 0 <= a < b < |failures| ==> failures[a] != failures[b]
  {
    failures := [];
    error := ValidateCoverageBaseline(current);
    if error.Some? { return; }
    error := ValidateCoverageBaseline(base);
    if error.Some? { return; }
    AllMetrics();
    for i := 0 to |METRICS|
      invariant forall m :: m in failures <==> m in METRICS[..i] && Floor(current, m) < Floor(base, m)
      invariant forall a, b :: 0 <= a < b < |failures| ==> failures[a] != failures[b]
    {
      assert METRICS[i] !in METRICS[..i];
      if Floor(current, METRICS[i]) < Floor(base, METRICS[i]) {
        failures := failures + [METRICS[i]];
      }
    }
    assert METRICS[..|METRICS|] == METRICS;
  }
}
