/**
 * The `--phase` option of the validate command: "a-b" selects a range of
 * validation phases, anything else a comma-separated list; both are kept
 * to the six phases the validator knows (1 Structural ... 6 Verifiability).
 */
module Phases {
  import opened Numbers
  import opened Text

  const FirstPhase := 1
  const LastPhase := 6

  /** Default of `validate --phase`. */
  const DefaultPhaseOption := "1-6"

  /** The phases `check` always validates. */
  const CheckPhases: seq<int> := [1, 2, 3]

  predicate IsPhase(n: int)
  {
    FirstPhase <= n <= LastPhase
  }

  predicate StrictlyIncreasing(s: seq<int>)
  {
    forall i, j :: 0 <= i < j < |s| ==> s[i] < s[j]
  }

  function Max(a: int, b: int): int { if a < b then b else a }
  function Min(a: int, b: int): int { if a < b then a else b }

  /** The integers from `lo` to `hi`, ascending; empty when `lo > hi`. */
  function Interval(lo: int, hi: int): (r: seq<int>)
    ensures |r| == if lo <= hi then hi - lo + 1 else 0
    ensures forall k :: 0 <= k < |r| ==> r[k] == lo + k
    decreases hi - lo
  {
    if lo > hi then [] else [lo] + Interval(lo + 1, hi)
  }

  /** What the range branch yields for parsed bounds: the bounds clamped to the phases; nothing if either is NaN. */
  function ClampedRange(start: JsNumber, end: JsNumber): (r: seq<int>)
    ensures forall k :: 0 <= k < |r| ==> IsPhase(r[k])
    ensures StrictlyIncreasing(r)
  {
    if start.Num? && end.Num? then Interval(Max(start.value, FirstPhase), Min(end.value, LastPhase)) else []
  }

  /** The numbers of a list that are phases, in their order, duplicates kept (NaN is never kept). */
  function KeepPhases(ns: seq<JsNumber>): (r: seq<int>)
    ensures forall k :: 0 <= k < |r| ==> IsPhase(r[k])
    ensures forall x {:trigger multiset(r)[x]} :: IsPhase(x) ==> multiset(r)[x] == multiset(ns)[Num(x)]
    ensures |r| <= |ns|
    decreases |ns|
  {
    if |ns| == 0 then []
    else
      var rest := KeepPhases(ns[1..]);
      assert ns == [ns[0]] + ns[1..];
      if ns[0].Num? && IsPhase(ns[0].value) then [ns[0].value] + rest else rest
  }

  /** The filter keeps the order: filtering a concatenation filters each part in turn. */
  lemma {:induction false} KeepPhasesAppend(a: seq<JsNumber>, b: seq<JsNumber>)
    ensures KeepPhases(a + b) == KeepPhases(a) + KeepPhases(b)
    decreases |a|
  {
    if |a| == 0 {
      assert a + b == b;
    } else {
      var n, rest := a[0], a[1..];
      var head := if n.Num? && IsPhase(n.value) then [n.value] else [];
      assert a == [n] + rest;
      assert a + b == [n] + (rest + b);
      KeepPhasesCons(n, rest);
      KeepPhasesCons(n, rest + b);
      KeepPhasesAppend(rest, b);
      assert KeepPhases(a + b) == head + (KeepPhases(rest) + KeepPhases(b));
    }
  }

  /** The filter looks at the first number, then at the rest. */
  lemma KeepPhasesCons(n: JsNumber, ns: seq<JsNumber>)
    ensures KeepPhases([n] + ns) == (if n.Num? && IsPhase(n.value) then [n.value] else []) + KeepPhases(ns)
  {
    assert ([n] + ns)[0] == n;
    assert ([n] + ns)[1..] == ns;
  }

  /** `Number` applied to every token. */
  function ToNumbers(tokens: seq<string>): (ns: seq<JsNumber>)
    ensures |ns| == |tokens|
    ensures forall k :: 0 <= k < |ns| ==> ns[k] == ToNumber(tokens[k])
  {
    seq(|tokens|, k requires 0 <= k < |tokens| => ToNumber(tokens[k]))
  }

  /** The phases selected by an option string. */
  function PhasesOf(s: string): (r: seq<int>)
    ensures forall k :: 0 <= k < |r| ==> IsPhase(r[k])
    ensures '-' in s ==> StrictlyIncreasing(r)
  {
    if '-' in s then
      var parts := Split(s, '-');
      ClampedRange(ToNumber(parts[0]), ToNumber(parts[1]))
    else
      KeepPhases(ToNumbers(Split(s, ',')))
  }

  /** parsePhases: the range branch counts through the bounds, keeping those that are phases. */
  method ParsePhases(s: string) returns (phases: seq<int>)
    ensures phases == PhasesOf(s)
  {
    if '-' in s {
      var parts := Split(s, '-');
      var start, end := ToNumber(parts[0]), ToNumber(parts[1]);
      phases := [];
      var i := start;
      while LessEq(i, end)
        invariant i.Num? == start.Num?
        invariant i.Num? ==> start.value <= i.value
        invariant i.Num? && start.value < i.value ==> end.Num? && i.value <= end.value + 1
        invariant phases == if i.Num? then Interval(Max(start.value, FirstPhase), Min(i.value - 1, LastPhase)) else []
        decreases if i.Num? && end.Num? then end.value + 1 - i.value else 0
      {
        IntervalStep(Max(start.value, FirstPhase), i.value);
        if IsPhase(i.value) {
          phases := phases + [i.value];
        }
        i := Num(i.value + 1);
      }
    } else {
      phases := KeepPhases(ToNumbers(Split(s, ',')));
    }
  }

  /** The counter of the range loop after `steps` turns, incremented as a JavaScript number. */
  function CounterAfter(start: int, steps: nat): (i: int)
    requires 0 <= start <= SafeLimit
    ensures 0 <= i <= SafeLimit
  {
    if steps == 0 then start else DoubleIncrement(CounterAfter(start, steps - 1))
  }

  /**
   * As written, the range loop over "1-9007199254740992" never ends: the
   * bounds parse to 1 and 2^53, and after any number of turns the counter,
   * stuck at 2^53 once it gets there, still passes the test `i <= end`.
   */
  lemma AsWrittenRangeNeverEnds(end: nat, steps: nat)
    requires end == SafeLimit
    ensures var parts := Split(Decimal(1) + "-" + Decimal(end), '-');
      && |parts| >= 2
      && ToNumber(parts[0]) == Num(1)
      && ToNumber(parts[1]) == Num(end)
      && LessEq(Num(CounterAfter(1, steps)), ToNumber(parts[1]))
  {
    RangeBounds(1, end);
  }

  /** The two bounds of a rendered range parse back to the numbers rendered. */
  lemma RangeBounds(a: nat, b: nat)
    ensures var parts := Split(Decimal(a) + "-" + Decimal(b), '-');
      |parts| == 2 && ToNumber(parts[0]) == Num(a) && ToNumber(parts[1]) == Num(b)
  {
    var tokens := [Decimal(a), Decimal(b)];
    DecimalHasNo(Decimal(a), '-');
    DecimalHasNo(Decimal(b), '-');
    assert Join(tokens, '-') == Decimal(a) + "-" + Decimal(b);
    SplitJoin(tokens, '-');
    ToNumberOfDecimal(a);
    ToNumberOfDecimal(b);
  }

  /** One more turn of the counting loop extends the selection by the counter exactly when it is a phase. */
  lemma IntervalStep(lo: int, i: int)
    requires lo >= FirstPhase
    requires IsPhase(i) ==> lo <= i
    ensures Interval(lo, Min(i, LastPhase))
         == if IsPhase(i) then Interval(lo, Min(i - 1, LastPhase)) + [i] else Interval(lo, Min(i - 1, LastPhase))
  {
    if IsPhase(i) {
      var a, b := Interval(lo, i), Interval(lo, i - 1) + [i];
      assert |a| == |b|;
      forall k | 0 <= k < |a| ensures a[k] == b[k] {
      }
    }
  }

  /** "a-b" selects exactly the integers from max(a, 1) to min(b, 6), ascending. */
  lemma RangeSelectsClampedInterval(a: nat, b: nat)
    ensures PhasesOf(Decimal(a) + "-" + Decimal(b)) == Interval(Max(a, FirstPhase), Min(b, LastPhase))
  {
    var s := Decimal(a) + "-" + Decimal(b);
    RangeBounds(a, b);
    assert s[|Decimal(a)|] == '-';
  }

  /** A range whose start exceeds its end selects nothing. */
  lemma ReversedRangeIsEmpty(a: nat, b: nat)
    requires a > b
    ensures PhasesOf(Decimal(a) + "-" + Decimal(b)) == []
  {
    RangeSelectsClampedInterval(a, b);
  }

  /** A comma list selects the listed numbers that are phases, in the given order, duplicates kept. */
  lemma CommaListKeepsPhases(ns: seq<nat>)
    requires |ns| >= 1
    ensures PhasesOf(Join(Decimals(ns), ',')) == KeepPhases(AsNumbers(ns))
  {
    var tokens := Decimals(ns);
    var s := Join(tokens, ',');
    forall k | 0 <= k < |tokens| ensures '-' !in tokens[k] && ',' !in tokens[k] {
      DecimalHasNo(tokens[k], '-');
      DecimalHasNo(tokens[k], ',');
    }
    JoinChars(tokens, ',', '-');
    assert '-' !in s;
    SplitJoin(tokens, ',');
    assert Split(s, ',') == tokens;
    forall k | 0 <= k < |ns| ensures ToNumbers(tokens)[k] == AsNumbers(ns)[k] {
      ToNumberOfDecimal(ns[k]);
    }
    assert ToNumbers(tokens) == AsNumbers(ns);
  }

  /** Natural numbers as JavaScript numbers. */
  function AsNumbers(ns: seq<nat>): (r: seq<JsNumber>)
    ensures |r| == |ns|
    ensures forall k :: 0 <= k < |ns| ==> r[k] == Num(ns[k])
  {
    seq(|ns|, k requires 0 <= k < |ns| => Num(ns[k]))
  }

  /** The decimal renderings of a list of numbers. */
  function Decimals(ns: seq<nat>): (tokens: seq<string>)
    ensures |tokens| == |ns|
    ensures forall k :: 0 <= k < |ns| ==> tokens[k] == Decimal(ns[k])
  {
    seq(|ns|, k requires 0 <= k < |ns| => Decimal(ns[k]))
  }

  lemma DecimalHasNo(d: string, c: char)
    requires AllDigits(d) && !IsDigit(c)
    ensures c !in d
  {
  }

  /** The default option selects all six phases. */
  lemma DefaultSelectsAllPhases()
    ensures PhasesOf(DefaultPhaseOption) == [1, 2, 3, 4, 5, 6]
  {
    assert Decimal(1) == "1" && Decimal(6) == "6";
    assert DefaultPhaseOption == Decimal(1) + "-" + Decimal(6);
    RangeSelectsClampedInterval(1, 6);
  }

  /** `check` validates what `--phase 1-3` would select. */
  lemma CheckIsFirstThreePhases()
    ensures CheckPhases == PhasesOf("1-3")
  {
    assert Decimal(1) == "1" && Decimal(3) == "3";
    assert "1-3" == Decimal(1) + "-" + Decimal(3);
    RangeSelectsClampedInterval(1, 3);
  }
}
