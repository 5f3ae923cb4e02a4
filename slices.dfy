/**
 * Slice handling of the multi-slice keypoint dataset: the odd `num_slices`
 * check of its constructor, the instance number parsed from a slice file's
 * stem, the search for the annotated slice, the choice of base slice, and
 * `_select_n_elements`, which picks `n` neighbouring slices around it.
 */
module SliceSelect {
  import opened PyOps

  // ---------------------------------------------------------------------------
  // Configuration

  /** The configuration of the multi-slice dataset that slice handling uses. */
  datatype SliceConfig = SliceConfig(numSlices: int, useCenter: bool)

  datatype ConfigError = EvenSliceCount

  /**
   * The constructor's check: an even `num_slices` is rejected with an error
   * (Python's `%` and Dafny's agree for the divisor 2); an odd one, negative
   * included, is kept as given.
   */
  function NewSliceConfig(numSlices: int, useCenter: bool): (r: Result<SliceConfig, ConfigError>)
    ensures r.Err? <==> numSlices % 2 == 0
    ensures r.Ok? ==> r.value.numSlices == numSlices && r.value.useCenter == useCenter
    ensures r.Ok? ==> r.value.numSlices != 0 && (r.value.numSlices - 1) / 2 == r.value.numSlices / 2
  {
    if numSlices % 2 == 0 then Err(EvenSliceCount) else Ok(SliceConfig(numSlices, useCenter))
  }

  // ---------------------------------------------------------------------------
  // Instance numbers

  /** Position of the first `c` in `s`, if any. */
  function FirstIndexOf(s: string, c: char): (r: Option<nat>)
    ensures r.None? <==> c !in s
    ensures r.Some? ==> r.value < |s| && s[r.value] == c && c !in s[..r.value]
  {
    if |s| == 0 then None
    else if s[0] == c then Some(0)
    else match FirstIndexOf(s[1..], c)
      case None => None
      case Some(k) =>
        assert s[..k + 1] == [s[0]] + s[1..][..k];
        Some(k + 1)
  }

  /**
   * `stem.split('_')[1]`: the text between the first and the second `_`
   * (or up to the end), or None where Python raises IndexError because the
   * stem has no `_`.
   */
  function SecondField(stem: string): (r: Option<string>)
    ensures r.None? <==> '_' !in stem
    ensures r.Some? ==> '_' !in r.value
  {
    match FirstIndexOf(stem, '_')
    case None => None
    case Some(p) =>
      var rest := stem[p + 1..];
      match FirstIndexOf(rest, '_')
      case None => Some(rest)
      case Some(q) => Some(rest[..q])
  }

  /** A `c` with no `c` before it is the first one. */
  lemma FirstIndexAt(s: string, c: char, p: nat)
    requires p < |s| && s[p] == c && c !in s[..p]
    ensures FirstIndexOf(s, c) == Some(p)
  {
    assert s[..p + 1][p] == c;
  }

  /** Splitting a stem built by joining fields with `_` gives back its second field. */
  lemma SecondFieldOfJoined(first: string, second: string, tail: string)
    requires '_' !in first && '_' !in second
    ensures SecondField(first + "_" + second) == Some(second)
    ensures SecondField(first + "_" + second + "_" + tail) == Some(second)
  {
    SecondFieldOfPair(first, second);
    SecondFieldOfTriple(first, second, tail);
  }

  lemma SecondFieldOfPair(first: string, second: string)
    requires '_' !in first && '_' !in second
    ensures SecondField(first + "_" + second) == Some(second)
  {
    var p := |first|;
    var s1 := first + "_" + second;
    assert s1[..p] == first;
    FirstIndexAt(s1, '_', p);
    assert s1[p + 1..] == second;
  }

  lemma SecondFieldOfTriple(first: string, second: string, tail: string)
    requires '_' !in first && '_' !in second
    ensures SecondField(first + "_" + second + "_" + tail) == Some(second)
  {
    var p := |first|;
    var s2 := first + "_" + second + "_" + tail;
    assert s2[..p] == first;
    FirstIndexAt(s2, '_', p);
    var rest := second + "_" + tail;
    assert s2[p + 1..] == rest;
    assert rest[..|second|] == second;
    FirstIndexAt(rest, '_', |second|);
  }

  predicate IsDigit(ch: char) { '0' <= ch <= '9' }

  predicate AllDigits(s: string) { forall i :: 0 <= i < |s| ==> IsDigit(s[i]) }

  /** The value of a string of decimal digits, most significant first. */
  function DigitsValue(s: string): nat
    requires AllDigits(s)
  {
    if |s| == 0 then 0 else DigitsValue(s[..|s| - 1]) * 10 + (s[|s| - 1] - '0') as nat
  }

  /**
   * `int(text)` on a field of a stem: an optional sign followed by one or
   * more decimal digits, leading zeros allowed; anything else is the
   * ValueError Python raises (None).
   */
  function ParseInt(text: string): (r: Option<int>)
    ensures r.Some? <==> (|text| > 0 && AllDigits(text))
                         || (|text| > 1 && (text[0] == '-' || text[0] == '+') && AllDigits(text[1..]))
  {
    if |text| > 0 && AllDigits(text) then Some(DigitsValue(text))
    else if |text| > 1 && text[0] == '-' && AllDigits(text[1..]) then Some(-(DigitsValue(text[1..]) as int))
    else if |text| > 1 && text[0] == '+' && AllDigits(text[1..]) then Some(DigitsValue(text[1..]))
    else None
  }

  /** The decimal numeral of a natural number, without leading zeros. */
  function Decimal(n: nat): (s: string)
    ensures |s| > 0 && AllDigits(s)
  {
    if n < 10 then [('0' as int + n) as char]
    else Decimal(n / 10) + [('0' as int + n % 10) as char]
  }

  /** Parsing a numeral gives back the number it was written from. */
  lemma {:induction false} ParseDecimal(n: nat)
    ensures ParseInt(Decimal(n)) == Some(n)
    ensures ParseInt("-" + Decimal(n)) == Some(-(n as int))
  {
    DigitsOfDecimal(n);
    var s := Decimal(n);
    assert ("-" + s)[1..] == s;
    assert !IsDigit(("-" + s)[0]);
  }

  lemma {:induction false} DigitsOfDecimal(n: nat)
    ensures DigitsValue(Decimal(n)) == n
  {
    if n >= 10 {
      DigitsOfDecimal(n / 10);
      var s := Decimal(n);
      assert s[..|s| - 1] == Decimal(n / 10);
    }
  }

  /** A run of `k` zero digits. */
  function Zeros(k: nat): (s: string)
    ensures |s| == k && AllDigits(s)
  {
    seq(k, _ => '0')
  }

  lemma {:induction false} ZerosValue(k: nat)
    ensures DigitsValue(Zeros(k)) == 0
  {
    if k > 0 {
      assert Zeros(k)[..k - 1] == Zeros(k - 1);
      ZerosValue(k - 1);
    }
  }

  /** Leading zeros do not change the value of a digit string. */
  lemma {:induction false} LeadingZerosValue(k: nat, t: string)
    requires AllDigits(t)
    ensures AllDigits(Zeros(k) + t) && DigitsValue(Zeros(k) + t) == DigitsValue(t)
    decreases |t|
  {
    var s := Zeros(k) + t;
    if t == [] {
      assert s == Zeros(k);
      ZerosValue(k);
    } else {
      var u := t[..|t| - 1];
      assert s[..|s| - 1] == Zeros(k) + u;
      assert s[|s| - 1] == t[|t| - 1];
      LeadingZerosValue(k, u);
    }
  }

  /** A zero-padded field such as `0007` parses to the number it pads. */
  lemma ParseZeroPadded(k: nat, n: nat)
    ensures ParseInt(Zeros(k) + Decimal(n)) == Some(n)
  {
    LeadingZerosValue(k, Decimal(n));
    DigitsOfDecimal(n);
  }

  /** `int(stem.split('_')[1])`, or None where either step raises. */
  function InstanceNumber(stem: string): (r: Option<int>)
    ensures r.Some? ==> '_' in stem
  {
    match SecondField(stem)
    case None => None
    case Some(field) => ParseInt(field)
  }

  /** The instance number of a stem `<series>_<number>[_<rest>]`. */
  lemma InstanceNumberOfStem(series: string, n: nat, tail: string)
    requires '_' !in series
    ensures InstanceNumber(series + "_" + Decimal(n)) == Some(n)
    ensures InstanceNumber(series + "_" + Decimal(n) + "_" + tail) == Some(n)
  {
    var d := Decimal(n);
    assert '_' !in d;
    SecondFieldOfJoined(series, d, tail);
    ParseDecimal(n);
  }

  /** The same for a zero-padded number, as in `<series>_0007`. */
  lemma InstanceNumberOfPaddedStem(series: string, k: nat, n: nat, tail: string)
    requires '_' !in series
    ensures InstanceNumber(series + "_" + Zeros(k) + Decimal(n)) == Some(n)
    ensures InstanceNumber(series + "_" + Zeros(k) + Decimal(n) + "_" + tail) == Some(n)
  {
    var d := Zeros(k) + Decimal(n);
    assert '_' !in d by {
      assert forall i :: 0 <= i < |d| ==> '0' <= d[i] <= '9';
    }
    SecondFieldOfJoined(series, d, tail);
    assert series + "_" + Zeros(k) + Decimal(n) == series + "_" + d;
    assert series + "_" + Zeros(k) + Decimal(n) + "_" + tail == series + "_" + d + "_" + tail;
    ParseZeroPadded(k, n);
  }

  // ---------------------------------------------------------------------------
  // Base slice

  datatype SearchError =
    | MalformedStem(position: nat)  // the stem at this position raised while being parsed
    | NoMatch                       // the failed `assert base_index != -1`

  /**
   * Position `j` is the first stem whose instance number is `target`, and
   * every stem before it parses (the loop stops at the first match, so
   * stems after it are never parsed).
   */
  ghost predicate FirstMatch(stems: seq<string>, target: int, j: nat)
  {
    && j < |stems|
    && InstanceNumber(stems[j]) == Some(target)
    && forall i :: 0 <= i < j ==> InstanceNumber(stems[i]).Some? && InstanceNumber(stems[i]) != Some(target)
  }

  /** There is at most one first match. */
  lemma FirstMatchUnique(stems: seq<string>, target: int, j1: nat, j2: nat)
    requires FirstMatch(stems, target, j1) && FirstMatch(stems, target, j2)
    ensures j1 == j2
  {
  }

  /**
   * The loop of `__getitem__` that looks for the annotated slice among the
   * sorted stems: the first position whose instance number equals
   * `target`; a stem that cannot be parsed before that position fails the
   * whole item, and no match at all fails the assertion.
   */
  method FindBaseIndex(stems: seq<string>, target: int) returns (r: Result<nat, SearchError>)
    ensures r.Ok? ==> FirstMatch(stems, target, r.value)
    ensures r.Err? ==> forall j :: 0 <= j < |stems| ==> !FirstMatch(stems, target, j)
    ensures r == Err(NoMatch) ==>
      forall j :: 0 <= j < |stems| ==> InstanceNumber(stems[j]).Some? && InstanceNumber(stems[j]) != Some(target)
    ensures r.Err? && r.error.MalformedStem? ==>
      && r.error.position < |stems|
      && InstanceNumber(stems[r.error.position]).None?
      && forall j :: 0 <= j < r.error.position ==> InstanceNumber(stems[j]).Some? && InstanceNumber(stems[j]) != Some(target)
  {
    var i := 0;
    while i < |stems|
      invariant 0 <= i <= |stems|
      invariant forall j :: 0 <= j < i ==> InstanceNumber(stems[j]).Some? && InstanceNumber(stems[j]) != Some(target)
    {
      var number := InstanceNumber(stems[i]);
      if number.None? {
        return Err(MalformedStem(i));
      }
      if number.value == target {
        return Ok(i);
      }
      i := i + 1;
    }
    return Err(NoMatch);
  }

  /**
   * The base slice of an item: the annotated slice is searched for first,
   * and a failed search fails the item even under `use_center`; with
   * `use_center` the base is then the middle position `len // 2`, otherwise
   * the annotated position.
   */
  method ResolveBaseIndex(stems: seq<string>, target: int, useCenter: bool) returns (r: Result<nat, SearchError>)
    ensures r.Err? <==> forall j :: 0 <= j < |stems| ==> !FirstMatch(stems, target, j)
    ensures r.Ok? && useCenter ==> r.value == |stems| / 2
    ensures r.Ok? && !useCenter ==> FirstMatch(stems, target, r.value)
    ensures r.Ok? ==> r.value < |stems|
  {
    r := FindBaseIndex(stems, target);
    if r.Ok? && useCenter {
      r := Ok(|stems| / 2);
    }
  }

  // ---------------------------------------------------------------------------
  // Neighbouring slices

  /** `np.linspace(start, stop, num)` in exact arithmetic. */
  function Linspace(start: int, stop: int, num: nat): (s: seq<real>)
    ensures |s| == num
    ensures num > 0 ==> s[0] == start as real
  {
    if num == 1 then [start as real]
    else seq(num, i requires 0 <= i < num => start as real + (i as real) * ((stop - start) as real / ((num - 1) as real)))
  }

  /**
   * The positions `_select_n_elements` takes from a list of `length`
   * elements: `n` evenly spaced points from `base - n // 2` to
   * `base + n // 2`, truncated to integers and clipped into [0, length - 1].
   */
  function SelectIndices(n: nat, base: int, length: nat): (idx: seq<int>)
    requires length > 0
    ensures |idx| == n
    ensures forall i :: 0 <= i < n ==> 0 <= idx[i] < length
  {
    var offset := n / 2;
    var points := Linspace(base - offset, base + offset, n);
    seq(n, i requires 0 <= i < n => Clip(TruncToInt(points[i]), 0, length - 1))
  }

  /**
   * For odd `n` the spacing is exactly one: position `i` is
   * `clip(base - n // 2 + i, 0, length - 1)`.
   */
  lemma {:induction false} SelectIndicesOdd(n: nat, base: int, length: nat)
    requires length > 0 && n % 2 == 1
    ensures forall i :: 0 <= i < n ==> SelectIndices(n, base, length)[i] == Clip(base - n / 2 + i, 0, length - 1)
  {
    var offset := n / 2;
    assert (base + offset) - (base - offset) == n - 1;
    forall i | 0 <= i < n
      ensures SelectIndices(n, base, length)[i] == Clip(base - offset + i, 0, length - 1)
    {
      LinspaceUnitStep(base - offset, n, i);
      assert TruncToInt((base - offset + i) as real) == base - offset + i;
    }
  }

  /** With `num - 1` unit gaps between its ends, `linspace` steps by exactly one. */
  lemma LinspaceUnitStep(start: int, num: nat, i: nat)
    requires i < num
    ensures Linspace(start, start + (num - 1), num)[i] == (start + i) as real
  {
    if num > 1 {
      var d := (num - 1) as real;
      assert (start + (num - 1)) - start == num - 1;
      assert d > 0.0 && d / d == 1.0;
      assert Linspace(start, start + (num - 1), num)[i] == start as real + (i as real) * (d / d);
    }
  }

  /**
   * Consequences for odd `n`: the positions never decrease, the middle one
   * is the clipped base, and they are the `n` consecutive positions around
   * the base when those all lie inside the list.
   */
  lemma SelectIndicesOddShape(n: nat, base: int, length: nat)
    requires length > 0 && n % 2 == 1
    ensures var idx := SelectIndices(n, base, length);
      && (forall i, j :: 0 <= i <= j < n ==> idx[i] <= idx[j])
      && idx[n / 2] == Clip(base, 0, length - 1)
      && (0 <= base - n / 2 && base + n / 2 < length ==> forall i :: 0 <= i < n ==> idx[i] == base - n / 2 + i)
  {
    SelectIndicesOdd(n, base, length);
  }

  /** Three slices around the first of five: the first slice is repeated, `[0, 0, 1]`. */
  lemma SelectThreeAtStart()
    ensures SelectIndices(3, 0, 5) == [0, 0, 1]
  {
    SelectIndicesOdd(3, 0, 5);
  }

  datatype SelectError =
    | NegativeCount     // `np.linspace` refuses a negative number of samples
    | EmptyList         // clipping into [0, -1] gives -1, and indexing an empty array raises

  /**
   * `_select_n_elements(lst, n, base_index)`: the `n` elements of `lst` at
   * the positions `SelectIndices` gives, in that order.
   */
  function SelectNElements<T>(lst: seq<T>, n: int, base: int): (r: Result<seq<T>, SelectError>)
    ensures r.Ok? <==> 0 <= n && (n == 0 || |lst| > 0)
    ensures r.Ok? ==> |r.value| == n
    ensures r.Ok? && n > 0 ==>
      forall i :: 0 <= i < n ==> r.value[i] == lst[SelectIndices(n, base, |lst|)[i]]
    ensures r.Ok? ==> forall i :: 0 <= i < n ==> r.value[i] in lst
  {
    if n < 0 then Err(NegativeCount)
    else if n == 0 then Ok([])
    else if |lst| == 0 then Err(EmptyList)
    else
      var idx := SelectIndices(n, base, |lst|);
      Ok(seq(n, i requires 0 <= i < n => lst[idx[i]]))
  }
}
