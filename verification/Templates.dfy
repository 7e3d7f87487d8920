/**
 Placeholders of message templates: the matches of the global pattern {{([^}]+)}}, the variable names
 they carry, and the substitution of values for them.
 */
module Templates {
  import opened Common

  // ---------------------------------------------------------------------------------------------
  // The pattern
  // ---------------------------------------------------------------------------------------------

  /** What the pattern accepts: s[i..e] is a placeholder. */
  ghost predicate IsMatch(s: string, i: nat, e: nat) {
    && i + 5 <= e <= |s|
    && s[i] == '{' && s[i + 1] == '{'
    && (forall k :: i + 2 <= k < e - 2 ==> s[k] != '}')
    && s[e - 2] == '}' && s[e - 1] == '}'
  }

  /** The first closing brace at or after i, or |s|. */
  function FirstClose(s: string, i: nat): (j: nat)
    requires i <= |s|
    ensures i <= j <= |s|
    ensures forall k :: i <= k < j ==> s[k] != '}'
    ensures j < |s| ==> s[j] == '}'
    decreases |s| - i
  {
    if i == |s| || s[i] == '}' then i else FirstClose(s, i + 1)
  }

  /** The end of the placeholder that starts at the head of s, or 0. */
  function MatchEnd(s: string): (e: nat)
    ensures e <= |s|
  {
    if |s| < 2 || s[0] != '{' || s[1] != '{' then 0
    else
      var j := FirstClose(s, 2);
      if j > 2 && j + 1 < |s| && s[j + 1] == '}' then j + 2 else 0
  }

  /** The search has no choice: at a given place the pattern accepts exactly what MatchEnd finds. */
  lemma MatchIsForced(s: string, e: nat)
    ensures IsMatch(s, 0, e) <==> MatchEnd(s) == e && e != 0
  {
    if IsMatch(s, 0, e) {
      var j := FirstClose(s, 2);
      assert s[e - 2] == '}';
    }
  }

  // ---------------------------------------------------------------------------------------------
  // Scanning and rendering
  // ---------------------------------------------------------------------------------------------

  /** A character outside every placeholder, or a placeholder with the text between its braces. */
  datatype Token = Lit(c: char) | Hole(raw: string)

  /** The global search from the left: the tokens of s. */
  function Scan(s: string): seq<Token>
    decreases |s|
  {
    if s == [] then []
    else
      var e := MatchEnd(s);
      if e == 0 then [Lit(s[0])] + Scan(s[1..])
      else [Hole(s[2..e - 2])] + Scan(s[e..])
  }

  function Text(t: Token): string {
    if t.Lit? then [t.c] else "{{" + t.raw + "}}"
  }

  function Texts(ts: seq<Token>): string {
    if ts == [] then [] else Text(ts[0]) + Texts(ts[1..])
  }

  predicate IsSpace(c: char) {
    || c in {' ', '\t', '\n', '\r', '\U{000B}', '\U{000C}', '\U{00A0}', '\U{1680}', '\U{2028}', '\U{2029}',
             '\U{202F}', '\U{205F}', '\U{3000}', '\U{FEFF}'}
    || '\U{2000}' <= c <= '\U{200A}'
  }

  function TrimLeft(s: string): string {
    if s != [] && IsSpace(s[0]) then TrimLeft(s[1..]) else s
  }

  function TrimRight(s: string): string {
    if s != [] && IsSpace(s[|s| - 1]) then TrimRight(s[..|s| - 1]) else s
  }

  function Trim(s: string): string {
    TrimRight(TrimLeft(s))
  }

  predicate Blank(s: string) {
    forall i :: 0 <= i < |s| ==> IsSpace(s[i])
  }

  lemma {:induction false} TrimLeftMeaning(s: string) returns (n: nat)
    ensures n <= |s| && TrimLeft(s) == s[n..] && (forall i :: 0 <= i < n ==> IsSpace(s[i]))
    ensures n < |s| ==> !IsSpace(s[n])
    decreases |s|
  {
    if s != [] && IsSpace(s[0]) {
      var m := TrimLeftMeaning(s[1..]);
      n := m + 1;
      assert s[1..][m..] == s[n..];
      forall i | 0 <= i < n ensures IsSpace(s[i]) {
        if i > 0 { assert s[i] == s[1..][i - 1]; }
      }
    } else {
      n := 0;
    }
  }

  lemma {:induction false} TrimRightMeaning(s: string) returns (n: nat)
    ensures n <= |s| && TrimRight(s) == s[..n] && (forall i :: n <= i < |s| ==> IsSpace(s[i]))
    ensures n > 0 ==> !IsSpace(s[n - 1])
    decreases |s|
  {
    if s != [] && IsSpace(s[|s| - 1]) {
      n := TrimRightMeaning(s[..|s| - 1]);
      assert s[..|s| - 1][..n] == s[..n];
    } else {
      n := |s|;
    }
  }

  /** s without the spaces at its ends, and all of them. */
  lemma TrimMeaning(s: string)
    ensures exists a, b :: s == a + Trim(s) + b && Blank(a) && Blank(b)
    ensures Trim(s) != [] ==> !IsSpace(Trim(s)[0]) && !IsSpace(Trim(s)[|Trim(s)| - 1])
  {
    var n := TrimLeftMeaning(s);
    var t := s[n..];
    var m := TrimRightMeaning(t);
    Rejoin(s, n, m);
  }

  lemma Rejoin(s: string, n: nat, m: nat)
    requires n <= |s| && m <= |s[n..]| && Blank(s[..n]) && Blank(s[n..][m..]) && Trim(s) == s[n..][..m]
    ensures exists a, b :: s == a + Trim(s) + b && Blank(a) && Blank(b)
  {
    assert s == s[..n] + s[n..][..m] + s[n..][m..];
  }

  /** The names of the placeholders, in order, each as often as it occurs. */
  function Names(ts: seq<Token>): seq<string> {
    if ts == [] then []
    else if ts[0].Hole? then [Trim(ts[0].raw)] + Names(ts[1..])
    else Names(ts[1..])
  }

  /** The first occurrences of the elements of s, in order: what a JavaScript Set holds. */
  function Distinct(s: seq<string>): seq<string> {
    if s == [] then []
    else
      var d := Distinct(s[..|s| - 1]);
      if s[|s| - 1] in d then d else d + [s[|s| - 1]]
  }

  function Variables(s: string): seq<string> {
    Distinct(Names(Scan(s)))
  }

  /** The replacement callback of `renderTemplate`. */
  function Replace(t: Token, vars: map<string, string>): string {
    if t.Hole? && Trim(t.raw) in vars then vars[Trim(t.raw)] else Text(t)
  }

  /** The substitution of `renderTemplate`. */
  function Render(s: string, vars: map<string, string>): string
    decreases |s|
  {
    if s == [] then []
    else
      var e := MatchEnd(s);
      if e == 0 then [s[0]] + Render(s[1..], vars)
      else Replace(Hole(s[2..e - 2]), vars) + Render(s[e..], vars)
  }

  lemma NamesStep(s: string)
    requires s != []
    ensures var e := MatchEnd(s);
      Names(Scan(s)) == if e == 0 then Names(Scan(s[1..])) else [Trim(s[2..e - 2])] + Names(Scan(s[e..]))
  {
    var e := MatchEnd(s);
    assert Scan(s)[1..] == if e == 0 then Scan(s[1..]) else Scan(s[e..]);
  }

  lemma DistinctSnoc(s: seq<string>, x: string)
    ensures Distinct(s + [x]) == if x in Distinct(s) then Distinct(s) else Distinct(s) + [x]
  {
    assert (s + [x])[..|s|] == s;
  }

  /** seen are the names of the placeholders in the first i characters, which the search has passed. */
  ghost predicate Searched(content: string, i: nat, seen: seq<string>) {
    i <= |content| && Names(Scan(content)) == seen + Names(Scan(content[i..]))
  }

  lemma SearchSkips(content: string, i: nat, seen: seq<string>)
    requires Searched(content, i, seen) && i < |content| && MatchEnd(content[i..]) == 0
    ensures Searched(content, i + 1, seen)
  {
    NamesStep(content[i..]);
    assert content[i..][1..] == content[i + 1..];
  }

  lemma SearchFinds(content: string, i: nat, seen: seq<string>, e: nat, name: string)
    requires Searched(content, i, seen) && i < |content| && MatchEnd(content[i..]) == e && e != 0
    requires name == Trim(content[i..][2..e - 2])
    ensures Searched(content, i + e, seen + [name])
  {
    NamesStep(content[i..]);
    assert content[i..][e..] == content[i + e..];
    Associate(seen, name, Names(Scan(content[i + e..])));
  }

  lemma SearchEnds(content: string, seen: seq<string>)
    requires Searched(content, |content|, seen)
    ensures Variables(content) == Distinct(seen)
  {
    assert content[|content|..] == [] && seen + [] == seen;
  }

  lemma Associate(a: seq<string>, x: string, b: seq<string>)
    ensures a + ([x] + b) == (a + [x]) + b
  {
  }

  /** `extractVariables`: the loop over the matches, filling a set that keeps insertion order. */
  method ExtractVariables(content: string) returns (variables: seq<string>)
    ensures variables == Variables(content)
  {
    variables := [];
    var lastIndex := 0;
    ghost var seen: seq<string> := [];
    assert content[0..] == content;
    while lastIndex < |content|
      invariant Searched(content, lastIndex, seen)
      invariant variables == Distinct(seen)
      decreases |content| - lastIndex
    {
      var e := MatchEnd(content[lastIndex..]);
      if e == 0 {
        SearchSkips(content, lastIndex, seen);
        lastIndex := lastIndex + 1;
      } else {
        var name := Trim(content[lastIndex..][2..e - 2]);
        SearchFinds(content, lastIndex, seen, e, name);
        variables := Add(variables, name, seen);
        seen := seen + [name];
        lastIndex := lastIndex + e;
      }
    }
    SearchEnds(content, seen);
  }

  /** A set takes a further element. */
  method Add(variables: seq<string>, name: string, ghost seen: seq<string>) returns (more: seq<string>)
    requires variables == Distinct(seen)
    ensures more == Distinct(seen + [name])
  {
    DistinctSnoc(seen, name);
    more := if name in variables then variables else variables + [name];
  }

  /** The variable handling of `update`: values of names that still occur are kept, new names are empty. */
  method MergeVariables(content: string, existing: map<string, string>) returns (updated: map<string, string>)
    ensures updated.Keys == set n | n in Names(Scan(content))
    ensures forall n :: n in updated ==> updated[n] == if n in existing then existing[n] else ""
  {
    var names := ExtractVariables(content);
    DistinctElements(Names(Scan(content)));
    updated := map[];
    for i := 0 to |names|
      invariant updated.Keys == set n | n in names[..i]
      invariant forall n :: n in updated ==> updated[n] == if n in existing then existing[n] else ""
    {
      updated := updated[names[i] := if names[i] in existing then existing[names[i]] else ""];
    }
    assert names[..|names|] == names;
  }

  lemma {:induction false} DistinctElements(s: seq<string>)
    ensures forall x :: x in Distinct(s) <==> x in s
    ensures forall i, j :: 0 <= i < j < |Distinct(s)| ==> Distinct(s)[i] != Distinct(s)[j]
    decreases |s|
  {
    if s != [] {
      var r := s[..|s| - 1];
      DistinctElements(r);
      assert s == r + [s[|s| - 1]];
    }
  }

  /** Of two distinct elements, the one that comes first occurs first. */
  lemma {:induction false} DistinctInOrder(s: seq<string>, i: nat, j: nat, q: nat)
    requires i < j < |Distinct(s)| && q < |s| && s[q] == Distinct(s)[j]
    ensures exists p :: 0 <= p < q && s[p] == Distinct(s)[i]
    decreases |s|
  {
    var r, d := s[..|s| - 1], Distinct(s[..|s| - 1]);
    DistinctElements(r);
    if j < |d| {
      var q' :| 0 <= q' < |r| && r[q'] == d[j];
      if q < |r| {
        DistinctInOrder(r, i, j, q);
        var p :| 0 <= p < q && r[p] == d[i];
        assert s[p] == Distinct(s)[i];
      } else {
        DistinctInOrder(r, i, j, q');
        var p :| 0 <= p < q' && r[p] == d[i];
        assert s[p] == Distinct(s)[i];
      }
    } else {
      assert s[|s| - 1] !in r && d[i] in d;
      var p :| 0 <= p < |r| && r[p] == d[i];
      assert q == |s| - 1 && s[p] == Distinct(s)[i];
    }
  }

  // ---------------------------------------------------------------------------------------------
  // What scanning and rendering mean
  // ---------------------------------------------------------------------------------------------

  lemma MatchSpells(s: string)
    requires MatchEnd(s) != 0
    ensures var e := MatchEnd(s); e >= 5 && "{{" + s[2..e - 2] + "}}" == s[..e]
  {
    MatchIsForced(s, MatchEnd(s));
  }

  /** The tokens spell the content. */
  lemma {:induction false} ScanDecomposes(s: string)
    ensures Texts(Scan(s)) == s
    decreases |s|
  {
    if s != [] {
      var e := MatchEnd(s);
      if e == 0 {
        ScanDecomposes(s[1..]);
        assert Scan(s)[1..] == Scan(s[1..]);
      } else {
        ScanDecomposes(s[e..]);
        assert Scan(s)[1..] == Scan(s[e..]);
        MatchSpells(s);
      }
    }
  }

  function Replaced(ts: seq<Token>, vars: map<string, string>): string {
    if ts == [] then [] else Replace(ts[0], vars) + Replaced(ts[1..], vars)
  }

  /** Rendering is one pass over the tokens: a value, once put in, is not looked at again. */
  lemma {:induction false} RenderIsOnePass(s: string, vars: map<string, string>)
    ensures Render(s, vars) == Replaced(Scan(s), vars)
    decreases |s|
  {
    if s != [] {
      var e := MatchEnd(s);
      RenderIsOnePass(if e == 0 then s[1..] else s[e..], vars);
      assert Scan(s)[1..] == if e == 0 then Scan(s[1..]) else Scan(s[e..]);
    }
  }

  lemma {:induction false} ReplacedDepends(ts: seq<Token>, v: map<string, string>, w: map<string, string>)
    requires forall n :: n in Names(ts) ==> Find(v, n) == Find(w, n)
    ensures Replaced(ts, v) == Replaced(ts, w)
    decreases |ts|
  {
    if ts != [] {
      assert ts[0].Hole? ==> Names(ts)[0] == Trim(ts[0].raw) && Names(ts)[0] in Names(ts);
      assert forall n :: n in Names(ts[1..]) ==> n in Names(ts);
      ReplacedDepends(ts[1..], v, w);
    }
  }

  /** The result depends only on the values of the extracted variables. */
  lemma RenderDependsOnVariables(s: string, v: map<string, string>, w: map<string, string>)
    requires forall n :: n in Variables(s) ==> Find(v, n) == Find(w, n)
    ensures Render(s, v) == Render(s, w)
  {
    DistinctElements(Names(Scan(s)));
    RenderIsOnePass(s, v);
    RenderIsOnePass(s, w);
    ReplacedDepends(Scan(s), v, w);
  }

  lemma {:induction false} ReplacedNothing(ts: seq<Token>)
    ensures Replaced(ts, map[]) == Texts(ts)
    decreases |ts|
  {
    if ts != [] { ReplacedNothing(ts[1..]); }
  }

  lemma RenderNothing(s: string)
    ensures Render(s, map[]) == s
  {
    RenderIsOnePass(s, map[]);
    ReplacedNothing(Scan(s));
    ScanDecomposes(s);
  }

  // ---------------------------------------------------------------------------------------------
  // Rendering creates no placeholder
  // ---------------------------------------------------------------------------------------------

  /**
   The opening pair at i of v opens no placeholder, whatever follows v: the first closing brace after it
   comes at once, or is followed in v by another character.
   */
  predicate ClosesBadly(v: string, i: nat)
    requires i + 2 <= |v|
  {
    var j := FirstClose(v, i + 2);
    j < |v| && (j == i + 2 || (j + 1 < |v| && v[j + 1] != '}'))
  }

  predicate PairAt(v: string, i: nat) {
    i + 2 <= |v| && v[i] == '{' && v[i + 1] == '{'
  }

  /** No placeholder starts in v, whatever follows it. */
  predicate OpensNothing(v: string) {
    && (v != [] ==> v[|v| - 1] != '{')
    && forall i: nat :: i < |v| && PairAt(v, i) ==> ClosesBadly(v, i)
  }

  /** A value that creates no placeholder, wherever it is put. */
  predicate Harmless(v: string) {
    v != [] && v[0] != '}' && OpensNothing(v)
  }

  /** A value without braces is one, if it is not empty. */
  lemma PlainIsHarmless(v: string)
    requires v != [] && '{' !in v && '}' !in v
    ensures Harmless(v)
  {
  }

  /** The values given to placeholders are harmless. */
  ghost predicate HarmlessFor(names: seq<string>, vars: map<string, string>) {
    forall n :: n in names && n in vars ==> Harmless(vars[n])
  }

  function Lits(v: string): (ts: seq<Token>)
    ensures |ts| == |v| && forall i :: 0 <= i < |v| ==> ts[i] == Lit(v[i])
  {
    seq(|v|, i requires 0 <= i < |v| => Lit(v[i]))
  }

  /** The tokens once the placeholders that have a value are gone. */
  function Subst(ts: seq<Token>, vars: map<string, string>): seq<Token> {
    if ts == [] then []
    else
      (if ts[0].Hole? && Trim(ts[0].raw) in vars then Lits(vars[Trim(ts[0].raw)]) else [ts[0]])
      + Subst(ts[1..], vars)
  }

  lemma CloseOfTail(v: string, i: nat)
    requires 1 <= i <= |v|
    ensures FirstClose(v, i) == FirstClose(v[1..], i - 1) + 1
  {
    var w := v[1..];
    var j := FirstClose(w, i - 1);
    forall k | i <= k < j + 1 ensures v[k] != '}' { assert v[k] == w[k - 1]; }
    if j < |w| {
      assert v[j + 1] == w[j];
      CloseIsFirst(v, i, j + 1);
    }
  }

  lemma OpensNothingTail(v: string)
    requires v != [] && OpensNothing(v)
    ensures OpensNothing(v[1..])
  {
    var w := v[1..];
    forall i: nat | i < |w| && PairAt(w, i) ensures ClosesBadly(w, i) {
      assert PairAt(v, i + 1);
      CloseOfTail(v, i + 3);
    }
  }

  lemma NoMatchInside(v: string, x: string)
    requires v != [] && OpensNothing(v)
    ensures MatchEnd(v + x) == 0
  {
    if v[0] == '{' && v[1] == '{' {
      assert PairAt(v, 0);
      CloseIsFirst(v + x, 2, FirstClose(v, 2));
    }
  }

  /** Such a value is scanned as plain characters, whatever follows it. */
  lemma {:induction false} ScanHarmless(v: string, x: string)
    requires OpensNothing(v)
    ensures Scan(v + x) == Lits(v) + Scan(x)
    decreases |v|
  {
    if v == [] {
      assert v + x == x;
    } else {
      var w := v[1..];
      NoMatchInside(v, x);
      OpensNothingTail(v);
      ScanHarmless(w, x);
      ScanLit(v + x, w + x);
      LitsFirstRest(v, Scan(x));
    }
  }

  lemma ScanLit(s: string, t: string)
    requires s != [] && s[1..] == t && MatchEnd(s) == 0
    ensures Scan(s) == [Lit(s[0])] + Scan(t)
  {
  }

  lemma LitsFirstRest(v: string, ts: seq<Token>)
    requires v != []
    ensures Lits(v) + ts == [Lit(v[0])] + (Lits(v[1..]) + ts)
  {
    assert Lits(v) == [Lit(v[0])] + Lits(v[1..]);
  }

  lemma CloseIsFirst(s: string, i: nat, j: nat)
    requires i <= j < |s| && s[j] == '}' && forall k :: i <= k < j ==> s[k] != '}'
    ensures FirstClose(s, i) == j
  {
  }

  /** A placeholder stays one whatever follows it. */
  lemma MatchKept(s: string, x: string)
    requires MatchEnd(s) != 0
    ensures MatchEnd(s[..MatchEnd(s)] + x) == MatchEnd(s)
  {
    var e := MatchEnd(s);
    MatchIsForced(s, e);
    MatchIsForced(s[..e] + x, e);
  }

  /** Rendering brings no brace to the front. */
  lemma RenderHead(s: string, vars: map<string, string>)
    requires s != [] && HarmlessFor(Names(Scan(s)), vars)
    ensures var r := Render(s, vars); r != [] && (r[0] == '{' || r[0] == '}' ==> r[0] == s[0])
  {
    var e := MatchEnd(s);
    NamesStep(s);
    if e != 0 {
      var name := Trim(s[2..e - 2]);
      assert name in Names(Scan(s));
      assert name in vars ==> Harmless(vars[name]);
    }
  }

  lemma HarmlessTail(s: string, vars: map<string, string>)
    requires s != [] && HarmlessFor(Names(Scan(s)), vars)
    ensures MatchEnd(s) == 0 ==> HarmlessFor(Names(Scan(s[1..])), vars)
    ensures MatchEnd(s) != 0 ==> HarmlessFor(Names(Scan(s[MatchEnd(s)..])), vars)
  {
    NamesStep(s);
  }

  ghost predicate NoMatchBefore(s: string, j: nat)
    requires j <= |s|
  {
    forall i :: 0 <= i < j ==> MatchEnd(s[i..]) == 0
  }

  /** Up to its first closing brace, text that opens no placeholder there is rendered as it is. */
  lemma {:induction false} CloseKept(s: string, vars: map<string, string>)
    requires NoMatchBefore(s, FirstClose(s, 0))
    ensures var j, r := FirstClose(s, 0), Render(s, vars);
      FirstClose(r, 0) == j && (if j < |s| then j < |r| && r[j + 1..] == Render(s[j + 1..], vars) else |r| == |s|)
    decreases |s|
  {
    var j, r := FirstClose(s, 0), Render(s, vars);
    if s != [] && s[0] == '}' {
      assert r == ['}'] + Render(s[1..], vars);
    } else if s != [] {
      var t := s[1..];
      var q := Render(t, vars);
      assert s[0..] == s && s == [s[0]] + t;
      assert MatchEnd(s) == 0;
      CloseShift(s[0], t);
      NoMatchTail(s, j);
      CloseKept(t, vars);
      CloseShift(s[0], q);
      assert r == [s[0]] + q;
      if j < |s| {
        assert r[j + 1..] == q[j..] && t[j..] == s[j + 1..];
      }
    }
  }

  lemma NoMatchTail(s: string, j: nat)
    requires 0 < j <= |s| && NoMatchBefore(s, j)
    ensures NoMatchBefore(s[1..], j - 1)
  {
    forall i | 0 <= i < j - 1 ensures MatchEnd(s[1..][i..]) == 0 {
      assert s[1..][i..] == s[i + 1..];
    }
  }

  lemma CloseShift(c: char, t: string)
    requires c != '}'
    ensures FirstClose([c] + t, 0) == FirstClose(t, 0) + 1
  {
    var j, s := FirstClose(t, 0), [c] + t;
    forall k | 0 <= k < j + 1 ensures s[k] != '}' {
      if k > 0 { assert s[k] == t[k - 1]; }
    }
    if j < |t| { CloseIsFirst(s, 0, j + 1); }
  }

  /** If a placeholder starts after an opening pair of braces, one starts at that pair. */
  lemma EarlierMatch(s: string, i: nat)
    requires 2 <= |s| && s[0] == '{' && s[1] == '{'
    requires 1 <= i <= |s| && MatchEnd(s[i..]) != 0 && forall k :: 2 <= k < i ==> s[k] != '}'
    ensures MatchEnd(s) != 0
  {
    var e := MatchEnd(s[i..]);
    MatchIsForced(s[i..], e);
    var j := i + e - 2;
    assert s[j] == s[i..][e - 2] && s[j + 1] == s[i..][e - 1];
    forall k | 2 <= k < j ensures s[k] != '}' {
      if k >= i { assert s[k] == s[i..][k - i]; }
    }
    CloseIsFirst(s, 2, j);
  }

  /** Where the content has no placeholder, the rendered text has none. */
  lemma NoNewMatch(s: string, vars: map<string, string>)
    requires s != [] && MatchEnd(s) == 0 && HarmlessFor(Names(Scan(s)), vars)
    ensures MatchEnd(Render(s, vars)) == 0
  {
    var r := Render(s, vars);
    HarmlessTail(s, vars);
    if s[0] == '{' && |s| > 1 {
      RenderHead(s[1..], vars);
      if s[1] == '{' {
        assert s[1..] == s[1..][0..];
        if MatchEnd(s[1..]) != 0 { EarlierMatch(s, 1); }
        HarmlessTail(s[1..], vars);
        NoNewMatchAfterPair(s, vars);
      }
    }
  }

  /** After an opening pair, it all depends on the first closing brace. */
  predicate ClosesWell(q: string) {
    var j := FirstClose(q, 0);
    0 < j && j + 1 < |q| && q[j + 1] == '}'
  }

  lemma PairMatches(s: string, q: string)
    requires 2 <= |s| && s[0] == '{' && s[1] == '{' && q == s[2..] && ClosesWell(q)
    ensures MatchEnd(s) != 0
  {
    var j := FirstClose(q, 0);
    forall k | 2 <= k < j + 2 ensures s[k] != '}' { assert s[k] == q[k - 2]; }
    MatchIsForced(s, j + 4);
  }

  lemma MatchHasPair(s: string, q: string)
    requires MatchEnd(s) != 0 && q == s[2..]
    ensures ClosesWell(q)
  {
    var e := MatchEnd(s);
    MatchIsForced(s, e);
    forall k | 0 <= k < e - 4 ensures q[k] != '}' { assert q[k] == s[k + 2]; }
    CloseIsFirst(q, 0, e - 4);
  }

  lemma RenderClosesWell(w: string, vars: map<string, string>)
    requires NoMatchBefore(w, FirstClose(w, 0)) && HarmlessFor(Names(Scan(w)), vars) && ClosesWell(Render(w, vars))
    ensures ClosesWell(w)
  {
    var j, q := FirstClose(w, 0), Render(w, vars);
    CloseKept(w, vars);
    HarmlessFrom(w, j, vars);
    assert q[j + 1..][0] == q[j + 1];
    RenderHead(w[j + 1..], vars);
  }

  lemma NoMatchAfterPair(s: string, w: string)
    requires 2 <= |s| && s[0] == '{' && s[1] == '{' && MatchEnd(s) == 0 && w == s[2..]
    ensures NoMatchBefore(w, FirstClose(w, 0))
  {
    var j := FirstClose(w, 0);
    forall i | 0 <= i < j ensures MatchEnd(w[i..]) == 0 {
      assert w[i..] == s[i + 2..];
      assert forall k :: 2 <= k < i + 2 ==> s[k] == w[k - 2];
      if MatchEnd(w[i..]) != 0 { EarlierMatch(s, i + 2); }
    }
  }

  lemma NoNewMatchAfterPair(s: string, vars: map<string, string>)
    requires 2 <= |s| && s[0] == '{' && s[1] == '{' && MatchEnd(s) == 0 && MatchEnd(s[1..]) == 0
    requires HarmlessFor(Names(Scan(s[2..])), vars)
    ensures MatchEnd(Render(s, vars)) == 0
  {
    var w, t := s[2..], s[1..];
    var r, q := Render(s, vars), Render(w, vars);
    NoMatchAfterPair(s, w);
    assert t[1..] == w;
    assert Render(t, vars) == ['{'] + q;
    assert r[2..] == q;
    if MatchEnd(r) != 0 {
      MatchHasPair(r, q);
      RenderClosesWell(w, vars);
      PairMatches(s, w);
    }
  }

  lemma {:induction false} HarmlessFrom(s: string, j: nat, vars: map<string, string>)
    requires j < |s| && FirstClose(s, 0) == j && NoMatchBefore(s, j) && HarmlessFor(Names(Scan(s)), vars)
    ensures HarmlessFor(Names(Scan(s[j + 1..])), vars)
    decreases |s|
  {
    assert s[0..] == s;
    HarmlessTail(s, vars);
    if j > 0 {
      var t := s[1..];
      CloseShift(s[0], t);
      assert s == [s[0]] + t;
      NoMatchTail(s, j);
      HarmlessFrom(t, j - 1, vars);
      assert t[j..] == s[j + 1..];
    }
  }

  /** A placeholder at the head of s is scanned as one whatever follows it. */
  lemma ScanKept(s: string, x: string)
    requires MatchEnd(s) != 0
    ensures var raw := s[2..MatchEnd(s) - 2]; Scan("{{" + raw + "}}" + x) == [Hole(raw)] + Scan(x)
  {
    var e := MatchEnd(s);
    var r := s[..e] + x;
    MatchSpells(s);
    MatchKept(s, x);
    assert r[2..e - 2] == s[2..e - 2] && r[e..] == x;
  }

  /**
   Whatever stray braces the content holds, the tokens of the rendered text are those of the content
   with the placeholders that got a value replaced by that value's characters.
   */
  lemma {:induction false} ScanOfRender(s: string, vars: map<string, string>)
    requires HarmlessFor(Names(Scan(s)), vars)
    ensures Scan(Render(s, vars)) == Subst(Scan(s), vars)
    decreases |s|
  {
    if s != [] {
      var e := MatchEnd(s);
      HarmlessTail(s, vars);
      NamesStep(s);
      var rest := if e == 0 then s[1..] else s[e..];
      ScanOfRender(rest, vars);
      assert Scan(s)[1..] == Scan(rest);
      if e == 0 {
        NoNewMatch(s, vars);
        assert Render(s, vars)[1..] == Render(rest, vars);
      } else {
        var name := Trim(s[2..e - 2]);
        if name in vars {
          assert name in Names(Scan(s));
          ScanHarmless(vars[name], Render(rest, vars));
        } else {
          assert Render(s, vars) == "{{" + s[2..e - 2] + "}}" + Render(rest, vars);
          ScanKept(s, Render(rest, vars));
        }
      }
    }
  }

  lemma {:induction false} SubstNames(ts: seq<Token>, vars: map<string, string>)
    ensures forall n :: n in Names(Subst(ts, vars)) <==> n in Names(ts) && n !in vars
    decreases |ts|
  {
    if ts != [] {
      SubstNames(ts[1..], vars);
      var h := if ts[0].Hole? && Trim(ts[0].raw) in vars then Lits(vars[Trim(ts[0].raw)]) else [ts[0]];
      NamesConcat(h, Subst(ts[1..], vars));
      if ts[0].Hole? && Trim(ts[0].raw) in vars { NamesOfLits(vars[Trim(ts[0].raw)]); }
    }
  }

  lemma {:induction false} NamesConcat(a: seq<Token>, b: seq<Token>)
    ensures Names(a + b) == Names(a) + Names(b)
    decreases |a|
  {
    if a == [] {
      assert a + b == b;
    } else {
      NamesConcat(a[1..], b);
      assert (a + b)[1..] == a[1..] + b;
    }
  }

  lemma {:induction false} NamesOfLits(v: string)
    ensures Names(Lits(v)) == []
    decreases |v|
  {
    if v != [] {
      NamesOfLits(v[1..]);
      assert Lits(v)[1..] == Lits(v[1..]);
    }
  }

  /** The placeholders left after rendering are exactly those without a value. */
  lemma LeftOver(s: string, vars: map<string, string>)
    requires HarmlessFor(Variables(s), vars)
    ensures forall n :: n in Variables(Render(s, vars)) <==> n in Variables(s) && n !in vars
  {
    DistinctElements(Names(Scan(s)));
    ScanOfRender(s, vars);
    SubstNames(Scan(s), vars);
    DistinctElements(Names(Scan(Render(s, vars))));
  }

  /** With a harmless value for every extracted variable, no placeholder is left. */
  lemma NothingLeftOver(s: string, vars: map<string, string>)
    requires forall n :: n in Variables(s) ==> n in vars && Harmless(vars[n])
    ensures Variables(Render(s, vars)) == []
  {
    var left := Variables(Render(s, vars));
    assert left != [] ==> left[0] in left;
    LeftOver(s, vars);
  }

  /** One character outside every placeholder. */
  lemma LitStep(s: string, t: string, vars: map<string, string>)
    requires s != [] && s[1..] == t && MatchEnd(s) == 0
    ensures Names(Scan(s)) == Names(Scan(t)) && Render(s, vars) == [s[0]] + Render(t, vars)
  {
    NamesStep(s);
  }

  /** A placeholder at the head of the content: its name is extracted, and its value, if it has one, is put in. */
  lemma HoleFirst(raw: string, rest: string, vars: map<string, string>)
    requires raw != [] && '}' !in raw
    ensures var s := "{{" + raw + "}}" + rest;
      && Names(Scan(s)) == [Trim(raw)] + Names(Scan(rest))
      && Render(s, vars) == (if Trim(raw) in vars then vars[Trim(raw)] else "{{" + raw + "}}") + Render(rest, vars)
  {
    var s := "{{" + raw + "}}" + rest;
    var e := |raw| + 4;
    forall k | 2 <= k < e - 2 ensures s[k] != '}' { assert s[k] == raw[k - 2]; }
    MatchIsForced(s, e);
    assert s[2..e - 2] == raw && s[e..] == rest;
    NamesStep(s);
  }

  /** The first n characters, when none of them opens a placeholder. */
  lemma {:induction false} LitsFirst(s: string, n: nat, vars: map<string, string>)
    requires n <= |s| && NoMatchBefore(s, n)
    ensures Names(Scan(s)) == Names(Scan(s[n..])) && Render(s, vars) == s[..n] + Render(s[n..], vars)
    decreases n
  {
    if n == 0 {
      assert s[0..] == s;
    } else {
      LitsFirst(s, n - 1, vars);
      var t, u := s[n - 1..], s[n..];
      assert t[1..] == u;
      LitStep(t, u, vars);
      Regroup(s, n, Render(u, vars));
    }
  }

  lemma Regroup(s: string, n: nat, r: string)
    requires 0 < n <= |s|
    ensures s[..n - 1] + ([s[n - 1]] + r) == s[..n] + r
  {
  }

  /** A stray pair of braces before a placeholder. */
  lemma StrayPair(h: string, vars: map<string, string>)
    requires h != [] && h[0] == '{'
    ensures Names(Scan("{{x}" + h)) == Names(Scan(h)) && Render("{{x}" + h, vars) == "{{x}" + Render(h, vars)
  {
    var s := "{{x}" + h;
    assert s[4..] == h;
    forall i | 0 <= i < 4 ensures MatchEnd(s[i..]) == 0 {
      if i == 0 { CloseIsFirst(s[i..], 2, 3); }
    }
    LitsFirst(s, 4, vars);
  }

  lemma LitsOnly(p: string, vars: map<string, string>)
    requires p in {"", "}", "x}}", "{x}}"}
    ensures Names(Scan(p)) == [] && Render(p, vars) == p
  {
    LitsFirst(p, |p|, vars);
    assert p[|p|..] == [];
  }

  lemma {:induction false} SomeMatch(r: string, i: nat)
    requires i <= |r| && MatchEnd(r[i..]) != 0
    ensures Names(Scan(r)) != []
    decreases i
  {
    assert r[0..] == r && r != [];
    NamesStep(r);
    if MatchEnd(r) == 0 {
      assert r[1..][i - 1..] == r[i..];
      SomeMatch(r[1..], i - 1);
    }
  }

  /** An opening pair, then something, then the first closing brace and another. */
  lemma MatchAt(r: string, i: nat, j: nat)
    requires PairAt(r, i) && i + 2 < j && j + 1 < |r| && r[j] == '}' && r[j + 1] == '}'
    requires forall k :: i + 2 <= k < j ==> r[k] != '}'
    ensures Names(Scan(r)) != []
  {
    MatchIsForced(r[i..], j + 2 - i);
    SomeMatch(r, i);
  }

  ghost predicate AllGiven(allowed: string -> bool, s: string, vars: map<string, string>) {
    forall n :: n in Variables(s) ==> n in vars && allowed(vars[n])
  }

  /** No template, with an allowed value for every variable, is rendered with a placeholder left. */
  ghost predicate LeavesNothing(allowed: string -> bool) {
    forall s, vars :: AllGiven(allowed, s, vars) ==> Variables(Render(s, vars)) == []
  }

  /** The template pre{{a}}post. */
  lemma OneHole(s: string, pre: string, post: string, vars: map<string, string>)
    requires pre in {"", "{{x}"} && post in {"", "}", "x}}", "{x}}"} && s == pre + ("{{a}}" + post) && "a" in vars
    ensures Names(Scan(s)) == ["a"] && Render(s, vars) == pre + (vars["a"] + post)
  {
    var h := "{{a}}" + post;
    assert Trim("a") == "a" && "{{" + "a" + "}}" + post == h;
    HoleFirst("a", post, vars);
    LitsOnly(post, vars);
    if pre == "" {
      assert s == h && "" + (vars["a"] + post) == vars["a"] + post;
    } else {
      StrayPair(h, vars);
    }
  }

  lemma VariablesOfOne(s: string)
    requires Names(Scan(s)) == ["a"]
    ensures Variables(s) == ["a"]
  {
    assert ["a"][..0] == [];
  }

  lemma SomeVariable(s: string)
    requires Names(Scan(s)) != []
    ensures Variables(s) != []
  {
    DistinctElements(Names(Scan(s)));
    assert Names(Scan(s))[0] in Names(Scan(s));
  }

  /** The template puts v between pre and post, and together they make a placeholder. */
  lemma LeavesOne(allowed: string -> bool, v: string, pre: string, post: string)
    requires allowed(v) && pre in {"", "{{x}"} && post in {"", "}", "x}}", "{x}}"}
    requires Names(Scan(pre + (v + post))) != []
    ensures !LeavesNothing(allowed)
  {
    var vars, s := map["a" := v], pre + ("{{a}}" + post);
    OneHole(s, pre, post, vars);
    VariablesOfOne(s);
    SomeVariable(pre + (v + post));
    assert AllGiven(allowed, s, vars);
  }

  /** {{x}{{a}}} with an empty value, and {{x}{{a}} with one that begins with a closing brace. */
  lemma BadHead(allowed: string -> bool, v: string)
    requires allowed(v) && (v == [] || v[0] == '}')
    ensures !LeavesNothing(allowed)
  {
    var post := if v == [] then "}" else "";
    MatchAt("{{x}" + (v + post), 0, 3);
    LeavesOne(allowed, v, "{{x}", post);
  }

  /** {{a}}{x}} with a value that ends with an opening brace. */
  lemma BadEnd(allowed: string -> bool, v: string)
    requires allowed(v) && v != [] && v[|v| - 1] == '{'
    ensures !LeavesNothing(allowed)
  {
    var r := v + "{x}}";
    MatchAt(r, |v| - 1, |v| + 2);
    assert "" + r == r;
    LeavesOne(allowed, v, "", "{x}}");
  }

  /** {{a}}x}} or {{a}}} with a value that holds a pair of opening braces and leaves it open. */
  lemma BadPair(allowed: string -> bool, v: string, i: nat)
    requires allowed(v) && PairAt(v, i) && !ClosesBadly(v, i)
    ensures !LeavesNothing(allowed)
  {
    var j := FirstClose(v, i + 2);
    var post := if j == |v| then "x}}" else "}";
    var r := v + post;
    MatchAt(r, i, if j == |v| then |v| + 1 else j);
    assert "" + r == r;
    LeavesOne(allowed, v, "", post);
  }

  /**
   Rendering leaves no placeholder, for every template and all allowed values, exactly when every allowed
   value is harmless: not empty, not beginning with a closing nor ending with an opening brace, and with
   every pair of opening braces in it closed badly in it.
   */
  lemma NothingLeftOverIff(allowed: string -> bool)
    ensures LeavesNothing(allowed) <==> forall v :: allowed(v) ==> Harmless(v)
  {
    if v :| allowed(v) && !Harmless(v) {
      if v == [] || v[0] == '}' {
        BadHead(allowed, v);
      } else if v[|v| - 1] == '{' {
        BadEnd(allowed, v);
      } else {
        var i: nat :| i < |v| && PairAt(v, i) && !ClosesBadly(v, i);
        BadPair(allowed, v, i);
      }
    } else {
      forall s, vars | AllGiven(allowed, s, vars) ensures Variables(Render(s, vars)) == [] {
        NothingLeftOver(s, vars);
      }
    }
  }
}
