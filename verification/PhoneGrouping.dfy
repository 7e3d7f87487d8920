/** The export scripts: numbers grouped by the longest country code that begins them, and labelled. */
module PhoneGrouping {
  import opened Common

  predicate StartsWith(s: string, p: string) {
    |p| <= |s| && s[..|p|] == p
  }

  // ---------------------------------------------------------------------------------------------
  // Longest prefix
  // ---------------------------------------------------------------------------------------------

  /** Insertion that keeps the order of equally long codes. */
  function Insert(c: string, s: seq<string>): seq<string> {
    if s == [] || |s[0]| <= |c| then [c] + s else [s[0]] + Insert(c, s[1..])
  }

  /** `sorted(codes, key=len, reverse=True)`. */
  function ByLength(codes: seq<string>): seq<string> {
    if codes == [] then [] else Insert(codes[0], ByLength(codes[1..]))
  }

  ghost predicate Descending(s: seq<string>) {
    forall i, j :: 0 <= i < j < |s| ==> |s[i]| >= |s[j]|
  }

  lemma {:induction false} InsertKeeps(c: string, s: seq<string>)
    requires Descending(s)
    ensures Descending(Insert(c, s)) && multiset(Insert(c, s)) == multiset([c] + s)
    decreases |s|
  {
    if s != [] && |s[0]| > |c| {
      var r := s[1..];
      InsertKeeps(c, r);
      var t := Insert(c, r);
      assert s == [s[0]] + r;
      forall k | 0 <= k < |t| ensures |s[0]| >= |t[k]| {
        assert t[k] in multiset([c] + r);
      }
      PrependKeeps(s[0], t);
      SwapFirst(s[0], c, t, r);
    }
  }

  lemma SwapFirst(x: string, c: string, t: seq<string>, r: seq<string>)
    requires multiset(t) == multiset([c] + r)
    ensures multiset([x] + t) == multiset([c] + ([x] + r))
  {
    assert multiset([x] + t) == multiset{x} + multiset(t);
    assert multiset([c] + ([x] + r)) == multiset{c} + (multiset{x} + multiset(r));
  }

  lemma PrependKeeps(x: string, t: seq<string>)
    requires Descending(t) && forall k :: 0 <= k < |t| ==> |x| >= |t[k]|
    ensures Descending([x] + t)
  {
  }

  lemma {:induction false} ByLengthSorts(codes: seq<string>)
    ensures Descending(ByLength(codes)) && multiset(ByLength(codes)) == multiset(codes)
    decreases |codes|
  {
    if codes != [] {
      ByLengthSorts(codes[1..]);
      InsertKeeps(codes[0], ByLength(codes[1..]));
      assert codes == [codes[0]] + codes[1..];
    }
  }

  /** c is a code that begins the digits, and every other such code is shorter. */
  ghost predicate IsLongestPrefix(codes: seq<string>, digits: string, c: string) {
    && c in codes && StartsWith(digits, c)
    && forall d :: d in codes && StartsWith(digits, d) && d != c ==> |d| < |c|
  }

  function FirstPrefix(sorted: seq<string>, digits: string): Option<string> {
    if sorted == [] then None
    else if StartsWith(digits, sorted[0]) then Some(sorted[0])
    else FirstPrefix(sorted[1..], digits)
  }

  lemma {:induction false} FirstPrefixIsFirst(sorted: seq<string>, digits: string)
    ensures match FirstPrefix(sorted, digits)
            case None => forall d :: d in sorted ==> !StartsWith(digits, d)
            case Some(c) => exists i :: 0 <= i < |sorted| && sorted[i] == c && StartsWith(digits, c)
                                        && forall j :: 0 <= j < i ==> !StartsWith(digits, sorted[j])
    decreases |sorted|
  {
    if sorted != [] && !StartsWith(digits, sorted[0]) {
      FirstPrefixIsFirst(sorted[1..], digits);
      var r := FirstPrefix(sorted[1..], digits);
      if r.Some? {
        var i :| 0 <= i < |sorted[1..]| && sorted[1..][i] == r.value
                 && forall j :: 0 <= j < i ==> !StartsWith(digits, sorted[1..][j]);
        assert sorted[i + 1] == r.value;
        forall j | 0 <= j < i + 1 ensures !StartsWith(digits, sorted[j]) {
          if j > 0 { assert sorted[j] == sorted[1..][j - 1]; }
        }
      }
    }
  }

  lemma FirstIsLongest(s: seq<string>, digits: string, i: nat, d: string)
    requires Descending(s) && i < |s| && StartsWith(digits, s[i]) && forall j :: 0 <= j < i ==>
      !StartsWith(digits, s[j])
    requires d in s && StartsWith(digits, d) && d != s[i]
    ensures |d| < |s[i]|
  {
    var k :| 0 <= k < |s| && s[k] == d;
    assert d == digits[..|d|] && s[i] == digits[..|s[i]|];
  }

  /** In the list sorted by length, the first code that begins the digits is the one longest such code. */
  lemma LongestPrefixFound(codes: seq<string>, digits: string)
    ensures match FirstPrefix(ByLength(codes), digits)
            case None => forall d :: d in codes ==> !StartsWith(digits, d)
            case Some(c) => IsLongestPrefix(codes, digits, c)
  {
    var s := ByLength(codes);
    ByLengthSorts(codes);
    SameElements(s, codes);
    FirstPrefixIsFirst(s, digits);
    var r := FirstPrefix(s, digits);
    if r.Some? {
      var c := r.value;
      var i :| 0 <= i < |s| && s[i] == c && StartsWith(digits, c) && forall j :: 0 <= j < i ==>
        !StartsWith(digits, s[j]);
      forall d | d in codes && StartsWith(digits, d) && d != c ensures |d| < |c| {
        FirstIsLongest(s, digits, i, d);
      }
    }
  }

  lemma SameElements(s: seq<string>, t: seq<string>)
    requires multiset(s) == multiset(t)
    ensures forall x :: x in s <==> x in t
  {
    forall x ensures x in s <==> x in t {
      assert x in s <==> x in multiset(s);
      assert x in t <==> x in multiset(t);
    }
  }

  // ---------------------------------------------------------------------------------------------
  // Grouping
  // ---------------------------------------------------------------------------------------------

  const UNKNOWN := "UNKNOWN"

  predicate IsNumber(num: string) {
    StartsWith(num, "+") && |num| >= 2
  }

  function KeyOf(sorted: seq<string>, num: string): string
    requires IsNumber(num)
  {
    var code := FirstPrefix(sorted, num[1..]);
    if code.Some? && code.value != "" then code.value else UNKNOWN
  }

  /** The valid numbers of one group, in their order. */
  function GroupOf(sorted: seq<string>, numbers: seq<string>, key: string): seq<string> {
    if numbers == [] then []
    else
      var n := numbers[|numbers| - 1];
      GroupOf(sorted, numbers[..|numbers| - 1], key)
      + (if IsNumber(n) && KeyOf(sorted, n) == key then [n] else [])
  }

  /** The groups in the order in which they were opened. */
  datatype Groups = Groups(keys: seq<string>, of: map<string, seq<string>>)

  /** g holds the non-empty ones of the groups f. */
  ghost predicate Holds(g: Groups, f: string -> seq<string>) {
    && (forall i, j :: 0 <= i < j < |g.keys| ==> g.keys[i] != g.keys[j])
    && (forall k :: k in g.keys <==> k in g.of)
    && (forall k :: k in g.of ==> g.of[k] == f(k) && g.of[k] != [])
    && (forall k :: k !in g.of ==> f(k) == [])
  }

  ghost predicate Grouped(sorted: seq<string>, numbers: seq<string>, g: Groups) {
    Holds(g, k => GroupOf(sorted, numbers, k))
  }

  /** The inner search loop, which stops at the first code that fits. */
  method FindCode(sorted: seq<string>, digits: string) returns (code: Option<string>)
    ensures code == FirstPrefix(sorted, digits)
  {
    for i := 0 to |sorted|
      invariant FirstPrefix(sorted, digits) == FirstPrefix(sorted[i..], digits)
    {
      assert sorted[i..][0] == sorted[i] && sorted[i..][1..] == sorted[i + 1..];
      if StartsWith(digits, sorted[i]) {
        return Some(sorted[i]);
      }
    }
    return None;
  }

  /** `country_groups[key].append(num)` on a dictionary that opens missing groups. */
  function Append(g: Groups, key: string, num: string): Groups {
    if key in g.of then g.(of := g.of[key := g.of[key] + [num]])
    else Groups(g.keys + [key], g.of[key := [num]])
  }

  lemma AppendHolds(g: Groups, f: string -> seq<string>, f': string -> seq<string>, key: string, num: string)
    requires Holds(g, f) && f'(key) == f(key) + [num] && forall k :: k != key ==> f'(k) == f(k)
    ensures Holds(Append(g, key, num), f')
  {
  }

  lemma GroupOneMore(sorted: seq<string>, numbers: seq<string>, n: string, k: string)
    ensures GroupOf(sorted, numbers + [n], k)
            == GroupOf(sorted, numbers, k) + (if IsNumber(n) && KeyOf(sorted, n) == k then [n] else [])
  {
    assert (numbers + [n])[..|numbers|] == numbers;
  }

  lemma AppendKeeps(sorted: seq<string>, numbers: seq<string>, n: string, g: Groups)
    requires Grouped(sorted, numbers, g)
    ensures Grouped(sorted, numbers + [n], if IsNumber(n) then Append(g, KeyOf(sorted, n), n) else g)
  {
    var f, f' := k => GroupOf(sorted, numbers, k), k => GroupOf(sorted, numbers + [n], k);
    forall k ensures f'(k) == f(k) + (if IsNumber(n) && KeyOf(sorted, n) == k then [n] else []) {
      GroupOneMore(sorted, numbers, n, k);
    }
    if IsNumber(n) { AppendHolds(g, f, f', KeyOf(sorted, n), n); }
  }

  /** A valid number is a plus sign followed by something. */
  lemma NumberMeaning(num: string)
    ensures IsNumber(num) <==> |num| >= 2 && num[0] == '+'
  {
  }

  /** The key of a number is the one longest code that begins what follows its plus sign, if any does. */
  lemma KeyMeaning(codes: seq<string>, num: string)
    requires |num| >= 2 && num[0] == '+' && "" !in codes
    ensures IsNumber(num)
    ensures var k := KeyOf(ByLength(codes), num);
      if exists c :: c in codes && StartsWith(num[1..], c)
      then k in codes && (exists rest :: num == "+" + k + rest)
           && forall d :: d in codes && d != k && StartsWith(num[1..], d) ==> |d| < |k|
      else k == "UNKNOWN"
  {
    LongestPrefixFound(codes, num[1..]);
    var k := KeyOf(ByLength(codes), num);
    if k in codes && StartsWith(num[1..], k) { AfterPlus(num, k); }
  }

  lemma AfterPlus(num: string, k: string)
    requires num != "" && num[0] == '+' && StartsWith(num[1..], k)
    ensures exists rest :: num == "+" + k + rest
  {
    assert num == "+" + k + num[1 + |k|..];
  }

  /** A number is in the group of its key if it is valid, and in no other; nothing else is in a group. */
  lemma {:induction false} GroupMeaning(sorted: seq<string>, numbers: seq<string>, key: string, num: string)
    ensures num in GroupOf(sorted, numbers, key) <==>
      num in numbers && IsNumber(num) && KeyOf(sorted, num) == key
    decreases |numbers|
  {
    if numbers != [] {
      var r, n := numbers[..|numbers| - 1], numbers[|numbers| - 1];
      GroupMeaning(sorted, r, key, num);
      assert numbers == r + [n];
    }
  }

  /** The code under which a number is grouped. */
  method CountryOf(sorted: seq<string>, num: string) returns (key: string)
    requires IsNumber(num)
    ensures key == KeyOf(sorted, num)
  {
    var code := FindCode(sorted, num[1..]);
    key := if code.Some? && code.value != "" then code.value else UNKNOWN;
  }

  /** One number: it is skipped, or appended to the group of its code. */
  method GroupNumber(sorted: seq<string>, ghost done: seq<string>, num: string, g0: Groups) returns (g: Groups)
    requires Grouped(sorted, done, g0)
    ensures Grouped(sorted, done + [num], g)
  {
    AppendKeeps(sorted, done, num, g0);
    NumberMeaning(num);
    g := g0;
    if |num| >= 2 && num[0] == '+' {
      var key := CountryOf(sorted, num);
      g := Append(g, key, num);
    }
  }

  /** The outer loop over the numbers. */
  method GroupNumbers(codes: seq<string>, numbers: seq<string>) returns (g: Groups)
    ensures Grouped(ByLength(codes), numbers, g)
  {
    var sorted := ByLength(codes);
    g := Groups([], map[]);
    for i := 0 to |numbers|
      invariant Grouped(sorted, numbers[..i], g)
    {
      g := GroupNumber(sorted, numbers[..i], numbers[i], g);
      assert numbers[..i] + [numbers[i]] == numbers[..i + 1];
    }
    assert numbers[..|numbers|] == numbers;
  }

  // ---------------------------------------------------------------------------------------------
  // Labels
  // ---------------------------------------------------------------------------------------------

  const DIGITS := "0123456789"

  function Decimal(n: nat): string {
    if n < 10 then [DIGITS[n]] else Decimal(n / 10) + [DIGITS[n % 10]]
  }

  /** The format `02d`. */
  function TwoDigits(n: nat): string {
    if n < 10 then "0" + Decimal(n) else Decimal(n)
  }

  function DigitValue(c: char): nat {
    if '0' <= c <= '9' then (c - '0') as nat else 0
  }

  function Value(s: string): nat {
    if s == [] then 0 else 10 * Value(s[..|s| - 1]) + DigitValue(s[|s| - 1])
  }

  lemma {:induction false} DecimalValue(n: nat)
    ensures Value(Decimal(n)) == n
    decreases n
  {
    if n >= 10 {
      DecimalValue(n / 10);
      var d := Decimal(n);
      assert d[..|d| - 1] == Decimal(n / 10);
    } else {
      assert [DIGITS[n]][..0] == [];
    }
  }

  lemma TwoDigitsValue(n: nat)
    ensures Value(TwoDigits(n)) == n
  {
    DecimalValue(n);
    if n < 10 {
      var s := TwoDigits(n);
      assert s[..1] == "0" && "0"[..0] == [];
    }
  }

  predicate AllDigits(s: string) {
    forall i :: 0 <= i < |s| ==> '0' <= s[i] <= '9'
  }

  lemma {:induction false} DecimalShape(n: nat)
    ensures Decimal(n) != [] && AllDigits(Decimal(n)) && (n >= 10 ==> |Decimal(n)| >= 2 && Decimal(n)[0] != '0')
    ensures 0 < n < 10 ==> Decimal(n)[0] != '0'
    decreases n
  {
    if n >= 10 { DecimalShape(n / 10); }
  }

  /** At least two digits, and a leading zero only below ten. */
  lemma TwoDigitsShape(n: nat)
    ensures var s := TwoDigits(n); |s| >= 2 && AllDigits(s) && (s[0] == '0' <==> n < 10) && (n < 10 ==> |s| == 2)
  {
    DecimalShape(n);
  }

  /** Two numbers of one group never get the same label, however large the group. */
  lemma LabelsDistinct(name: string, i: nat, j: nat)
    requires i != j
    ensures name + TwoDigits(i) != name + TwoDigits(j)
  {
    TwoDigitsValue(i);
    TwoDigitsValue(j);
    assert (name + TwoDigits(i))[|name|..] == TwoDigits(i);
    assert (name + TwoDigits(j))[|name|..] == TwoDigits(j);
  }

  datatype Row = Row(title: string, num: string)

  /** The rows of one group, labelled from 1. */
  function Labelled(name: string, nums: seq<string>): (rows: seq<Row>)
    ensures |rows| == |nums| && forall i :: 0 <= i < |nums| ==> rows[i] == Row(name + TwoDigits(i + 1), nums[i])
  {
    seq(|nums|, i requires 0 <= i < |nums| => Row(name + TwoDigits(i + 1), nums[i]))
  }

  function RowsOf(g: Groups, name: string -> string, n: nat): seq<Row>
    requires n <= |g.keys| && forall k :: k in g.keys ==> k in g.of
  {
    if n == 0 then [] else RowsOf(g, name, n - 1) + Labelled(name(g.keys[n - 1]), g.of[g.keys[n - 1]])
  }

  /** The output loops of the table and of the cards; name is the country's name without spaces. */
  method WriteRows(g: Groups, name: string -> string) returns (rows: seq<Row>)
    requires forall k :: k in g.keys ==> k in g.of
    ensures rows == RowsOf(g, name, |g.keys|)
  {
    rows := [];
    for a := 0 to |g.keys|
      invariant rows == RowsOf(g, name, a)
    {
      rows := WriteGroup(rows, name(g.keys[a]), g.of[g.keys[a]]);
    }
  }

  /** The inner loop: one group, numbered from 1. */
  method WriteGroup(rows0: seq<Row>, countryName: string, nums: seq<string>) returns (rows: seq<Row>)
    ensures rows == rows0 + Labelled(countryName, nums)
  {
    rows := rows0;
    for i := 0 to |nums|
      invariant rows == rows0 + Labelled(countryName, nums)[..i]
    {
      rows := rows + [Row(countryName + TwoDigits(i + 1), nums[i])];
    }
  }

  /** Number i of group a has its row, with the group's name and its own place, and every row is such a one. */
  lemma {:induction false} RowMeaning(g: Groups, name: string -> string, n: nat, row: Row)
    requires n <= |g.keys| && forall k :: k in g.keys ==> k in g.of
    ensures row in RowsOf(g, name, n) <==>
      exists a :: 0 <= a < n && IsLabelled(name(g.keys[a]), g.of[g.keys[a]], row)
    decreases n
  {
    if n > 0 {
      RowMeaning(g, name, n - 1, row);
      var k := g.keys[n - 1];
      LabelledMeaning(name(k), g.of[k], row);
      assert row in RowsOf(g, name, n) <==> row in RowsOf(g, name, n - 1) || row in Labelled(name(k), g.of[k]);
    }
  }

  /** The row of one of the numbers, with its place, counted from 1, after the title. */
  ghost predicate IsLabelled(title: string, nums: seq<string>, row: Row) {
    exists i :: 0 <= i < |nums| && row.num == nums[i] && row.title == title + TwoDigits(i + 1)
  }

  lemma LabelledMeaning(title: string, nums: seq<string>, row: Row)
    ensures row in Labelled(title, nums) <==> IsLabelled(title, nums, row)
  {
    var rows := Labelled(title, nums);
    if i :| 0 <= i < |nums| && row.num == nums[i] && row.title == title + TwoDigits(i + 1) {
      assert rows[i] == row;
    }
  }

  // ---------------------------------------------------------------------------------------------
  // The grouped numbers are those of the text exporter
  // ---------------------------------------------------------------------------------------------

  /** The list comprehension of the text exporter. */
  function Cleaned(numbers: seq<string>): seq<string> {
    if numbers == [] then []
    else
      var n := numbers[|numbers| - 1];
      Cleaned(numbers[..|numbers| - 1]) + (if |n| > 1 && n[0] == '+' then [n[1..]] else [])
  }

  function Nums(rows: seq<Row>): seq<string> {
    if rows == [] then [] else Nums(rows[..|rows| - 1]) + [rows[|rows| - 1].num]
  }

  function Plused(s: seq<string>): (r: seq<string>)
    ensures |r| == |s|
  {
    if s == [] then [] else Plused(s[..|s| - 1]) + ["+" + s[|s| - 1]]
  }

  lemma {:induction false} NumsConcat(a: seq<Row>, b: seq<Row>)
    ensures Nums(a + b) == Nums(a) + Nums(b)
    decreases |b|
  {
    if b == [] {
      assert a + b == a;
    } else {
      NumsConcat(a, b[..|b| - 1]);
      assert (a + b)[..|a + b| - 1] == a + b[..|b| - 1];
    }
  }

  lemma {:induction false} NumsLabelled(name: string, nums: seq<string>)
    ensures Nums(Labelled(name, nums)) == nums
    decreases |nums|
  {
    if nums != [] {
      var r := nums[..|nums| - 1];
      NumsLabelled(name, r);
      assert Labelled(name, nums)[..|nums| - 1] == Labelled(name, r);
    }
  }

  /** The valid numbers whose key is among the given ones, in their order. */
  function Among(sorted: seq<string>, numbers: seq<string>, keys: seq<string>): seq<string> {
    if numbers == [] then []
    else
      var n := numbers[|numbers| - 1];
      Among(sorted, numbers[..|numbers| - 1], keys)
      + (if IsNumber(n) && KeyOf(sorted, n) in keys then [n] else [])
  }

  lemma {:induction false} AmongSplits(sorted: seq<string>, numbers: seq<string>, keys: seq<string>, k: string)
    requires k !in keys
    ensures multiset(Among(sorted, numbers, keys + [k]))
            == multiset(Among(sorted, numbers, keys)) + multiset(GroupOf(sorted, numbers, k))
    decreases |numbers|
  {
    if numbers != [] { AmongSplits(sorted, numbers[..|numbers| - 1], keys, k); }
  }

  lemma RowsOneMore(g: Groups, name: string -> string, n: nat)
    requires n < |g.keys| && forall k :: k in g.keys ==> k in g.of
    ensures Nums(RowsOf(g, name, n + 1)) == Nums(RowsOf(g, name, n)) + g.of[g.keys[n]]
  {
    var k := g.keys[n];
    NumsConcat(RowsOf(g, name, n), Labelled(name(k), g.of[k]));
    NumsLabelled(name(k), g.of[k]);
  }

  lemma KeysStep(keys: seq<string>, n: nat)
    requires n < |keys| && forall i, j :: 0 <= i < j < |keys| ==> keys[i] != keys[j]
    ensures keys[..n + 1] == keys[..n] + [keys[n]] && keys[n] !in keys[..n]
  {
  }

  lemma RowsHoldStep(sorted: seq<string>, numbers: seq<string>, g: Groups, name: string -> string, n: nat)
    requires Grouped(sorted, numbers, g) && n < |g.keys|
    requires multiset(Nums(RowsOf(g, name, n))) == multiset(Among(sorted, numbers, g.keys[..n]))
    ensures multiset(Nums(RowsOf(g, name, n + 1))) == multiset(Among(sorted, numbers, g.keys[..n + 1]))
  {
    var k, a := g.keys[n], Nums(RowsOf(g, name, n));
    KeysStep(g.keys, n);
    AmongSplits(sorted, numbers, g.keys[..n], k);
    RowsOneMore(g, name, n);
    var group := g.of[k];
    assert group == GroupOf(sorted, numbers, k);
    assert multiset(a + group) == multiset(a) + multiset(group);
  }

  lemma {:induction false} RowsHold(sorted: seq<string>, numbers: seq<string>, g: Groups, name: string -> string,
                                    n: nat)
    requires Grouped(sorted, numbers, g) && n <= |g.keys|
    ensures multiset(Nums(RowsOf(g, name, n))) == multiset(Among(sorted, numbers, g.keys[..n]))
    decreases n
  {
    if n == 0 {
      AmongNone(sorted, numbers);
    } else {
      RowsHold(sorted, numbers, g, name, n - 1);
      RowsHoldStep(sorted, numbers, g, name, n - 1);
    }
  }

  lemma {:induction false} AmongNone(sorted: seq<string>, numbers: seq<string>)
    ensures Among(sorted, numbers, []) == []
    decreases |numbers|
  {
    if numbers != [] { AmongNone(sorted, numbers[..|numbers| - 1]); }
  }

  lemma {:induction false} InGroup(sorted: seq<string>, numbers: seq<string>, i: nat)
    requires i < |numbers| && IsNumber(numbers[i])
    ensures numbers[i] in GroupOf(sorted, numbers, KeyOf(sorted, numbers[i]))
    decreases |numbers|
  {
    if i < |numbers| - 1 { InGroup(sorted, numbers[..|numbers| - 1], i); }
  }

  lemma {:induction false} AmongAll(sorted: seq<string>, numbers: seq<string>, keys: seq<string>)
    requires forall i :: 0 <= i < |numbers| && IsNumber(numbers[i]) ==> KeyOf(sorted, numbers[i]) in keys
    ensures Among(sorted, numbers, keys) == Plused(Cleaned(numbers))
    decreases |numbers|
  {
    if numbers != [] {
      var r, n := numbers[..|numbers| - 1], numbers[|numbers| - 1];
      AmongAll(sorted, r, keys);
      if IsNumber(n) {
        assert n == "+" + n[1..];
        assert Cleaned(numbers)[..|Cleaned(r)|] == Cleaned(r);
      } else {
        assert Cleaned(numbers) == Cleaned(r);
      }
    }
  }

  /** The rows hold exactly the numbers that the text exporter keeps, each as often. */
  lemma ExportersAgree(codes: seq<string>, numbers: seq<string>, g: Groups, name: string -> string)
    requires Grouped(ByLength(codes), numbers, g)
    ensures multiset(Nums(RowsOf(g, name, |g.keys|))) == multiset(Plused(Cleaned(numbers)))
  {
    var sorted := ByLength(codes);
    RowsHold(sorted, numbers, g, name, |g.keys|);
    assert g.keys[..|g.keys|] == g.keys;
    forall i | 0 <= i < |numbers| && IsNumber(numbers[i]) ensures KeyOf(sorted, numbers[i]) in g.keys {
      InGroup(sorted, numbers, i);
    }
    AmongAll(sorted, numbers, g.keys);
  }
}
