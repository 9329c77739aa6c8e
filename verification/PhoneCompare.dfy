/** Loose comparison of phone numbers, from right to left and across separators. */
module PhoneCompare {
  import opened Wrappers

  predicate IsDigit(c: char) { '0' <= c <= '9' }

  predicate IsNonSeparator(c: char) { IsDigit(c) || c == '*' || c == '#' || c == '+' }

  // ----- The meaning -----

  /** A number without its separators. */
  function Strip(s: string): string {
    if s == "" then ""
    else
      var r, c := Strip(s[..|s| - 1]), s[|s| - 1];
      if IsNonSeparator(c) then r + [c] else r
  }

  /** The number of separators in front of the first other character. */
  function Leading(s: string): nat {
    if s == "" || IsNonSeparator(s[0]) then 0 else 1 + Leading(s[1..])
  }

  /** The length of the longest common suffix. */
  function Common(x: string, y: string): nat {
    if x == "" || y == "" || x[|x| - 1] != y[|y| - 1] then 0
    else 1 + Common(x[..|x| - 1], y[..|y| - 1])
  }

  predicate IsSuffix(x: string, y: string) {
    |x| <= |y| && y[|y| - |x|..] == x
  }

  predicate Digits(x: string) { forall i | 0 <= i < |x| :: IsDigit(x[i]) }

  predicate IsIntlPrefix(x: string) { x == "+" || x == "00" || x == "011" }

  predicate IsTrunkPrefix(x: string) { x == "0" }

  /** An international prefix and a country code of one to three digits. */
  predicate IsIntlPrefixAndCC(x: string) {
    exists k | 0 <= k <= |x| :: IsIntlPrefix(x[..k]) && 1 <= |x| - k <= 3 && Digits(x[k..])
  }

  predicate PrefixesPair(p: string, q: string) {
    || (IsIntlPrefix(p) && IsIntlPrefix(q))
    || (IsTrunkPrefix(p) && IsIntlPrefixAndCC(q))
    || (IsTrunkPrefix(q) && IsIntlPrefixAndCC(p))
  }

  /** When two numbers are loosely equal: at or above the minimum match, a matter of
      their separator-free forms; below it, equal forms with as many leading separators. */
  predicate Loose(a: Option<string>, b: Option<string>, minMatch: nat) {
    && a.Some? && b.Some? && a.value != "" && b.value != ""
    && var x, y := Strip(a.value), Strip(b.value);
       var m := Common(x, y);
       CommonBound(x, y);
       if m < minMatch then x == y && Leading(a.value) == Leading(b.value)
       else IsSuffix(x, y) || IsSuffix(y, x) || PrefixesPair(x[..|x| - m], y[..|y| - m])
  }

  // ----- Facts about the meaning -----

  lemma {:induction false} CommonBound(x: string, y: string)
    ensures Common(x, y) <= |x| && Common(x, y) <= |y|
  {
    if x != "" && y != "" && x[|x| - 1] == y[|y| - 1] { CommonBound(x[..|x| - 1], y[..|y| - 1]); }
  }

  /** `Common` is the length of a common suffix, and of no longer one. */
  lemma {:induction false} CommonIsLongest(x: string, y: string, k: nat)
    requires k <= |x| && k <= |y|
    ensures x[|x| - k..] == y[|y| - k..] <==> k <= Common(x, y)
    decreases k
  {
    if k > 0 {
      var x', y' := x[..|x| - 1], y[..|y| - 1];
      CommonIsLongest(x', y', k - 1);
      assert x[|x| - k..] == x'[|x'| - (k - 1)..] + [x[|x| - 1]];
      assert y[|y| - k..] == y'[|y'| - (k - 1)..] + [y[|y| - 1]];
      if x[|x| - 1] != y[|y| - 1] {
        assert x[|x| - k..][k - 1] != y[|y| - k..][k - 1];
      } else if x[|x| - k..] == y[|y| - k..] {
        assert x[|x| - k..][..k - 1] == y[|y| - k..][..k - 1];
      }
    }
  }

  lemma {:induction false} SuffixCommon(x: string, y: string)
    ensures IsSuffix(x, y) <==> Common(x, y) == |x|
  {
    CommonBound(x, y);
    if |x| <= |y| {
      CommonIsLongest(x, y, |x|);
      assert x[0..] == x;
    }
  }

  lemma {:induction false} CommonSymmetric(x: string, y: string)
    ensures Common(x, y) == Common(y, x)
  {
    if x != "" && y != "" && x[|x| - 1] == y[|y| - 1] { CommonSymmetric(x[..|x| - 1], y[..|y| - 1]); }
  }

  lemma LooseSymmetric(a: Option<string>, b: Option<string>, minMatch: nat)
    ensures Loose(a, b, minMatch) == Loose(b, a, minMatch)
  {
    if a.Some? && b.Some? { CommonSymmetric(Strip(a.value), Strip(b.value)); }
  }

  lemma LooseReflexive(a: string, minMatch: nat)
    requires a != ""
    ensures Loose(Some(a), Some(a), minMatch)
  {
    var x := Strip(a);
    assert x[|x| - |x|..] == x;
  }

  /** At or above the minimum the separators do not matter. */
  lemma {:induction false} SeparatorsIgnored(a: string, b: string, c: string, d: string, minMatch: nat)
    requires Strip(a) == Strip(c) && Strip(b) == Strip(d)
    requires 1 <= minMatch <= Common(Strip(a), Strip(b))
    ensures Loose(Some(a), Some(b), minMatch) == Loose(Some(c), Some(d), minMatch)
  {
    hide Strip, Common, IsSuffix, PrefixesPair, Leading;
    CommonBound(Strip(a), Strip(b));
    EmptyForm();
  }

  lemma EmptyForm()
    ensures Strip("") == ""
  {
  }

  /** Below it they do: equal forms are refused when a number of leading separators differs. */
  lemma {:induction false} ShortFormsExact(a: string, b: string, minMatch: nat)
    requires a != "" && b != "" && Strip(a) == Strip(b) && |Strip(a)| < minMatch
    ensures Loose(Some(a), Some(b), minMatch) <==> Leading(a) == Leading(b)
  {
    CommonBound(Strip(a), Strip(b));
  }

  lemma ShortFormsDiffer()
    ensures Strip("-1") == Strip("1") && !Loose(Some("-1"), Some("1"), 7)
  {
    assert "-1"[..1] == "-" && "-1"[1..] == "1";
    assert "1"[..0] == "" && "-"[..0] == "";
  }

  /** The relation is not transitive: a trunk prefix pairs with "+4" and is part
      of "00", but "+4" and "00" do not pair. */
  lemma NotTransitive()
    ensures Loose(Some("01"), Some("+41"), 1) && Loose(Some("01"), Some("001"), 1)
    ensures !Loose(Some("+41"), Some("001"), 1)
  {
    hide Loose;
    TrunkWithCountry();
    TrunkInside();
    CountryAlone();
  }

  lemma TrunkWithCountry()
    ensures Loose(Some("01"), Some("+41"), 1)
  {
    hide Strip;
    StripAll("01");
    StripAll("+41");
    assert "01"[..1] == "0" && "+41"[..2] == "+4";
    assert Common("01", "+41") == 1 by { assert Common("0", "+4") == 0; }
    assert IsIntlPrefixAndCC("+4") by { assert IsIntlPrefix("+4"[..1]) && Digits("+4"[1..]); }
  }

  lemma TrunkInside()
    ensures Loose(Some("01"), Some("001"), 1)
  {
    hide Strip;
    StripAll("01");
    StripAll("001");
    assert "01"[..1] == "0" && "001"[..2] == "00" && "0"[..0] == "" && "00"[..1] == "0";
    assert Common("01", "001") == 2 by { assert Common("0", "00") == 1; }
    assert IsSuffix("01", "001") by { assert "001"[1..] == "01"; }
  }

  lemma CountryAlone()
    ensures !Loose(Some("+41"), Some("001"), 1)
  {
    hide Strip, IsSuffix;
    StripAll("+41");
    StripAll("001");
    assert "+41"[..2] == "+4" && "001"[..2] == "00";
    assert Common("+41", "001") == 1 by { assert Common("+4", "00") == 0; }
    SuffixCommon("+41", "001");
    SuffixCommon("001", "+41");
    CommonSymmetric("+41", "001");
    assert !IsTrunkPrefix("+4") && !IsTrunkPrefix("00") && !IsIntlPrefix("+4");
  }

  lemma {:induction false} StripAll(s: string)
    requires forall i | 0 <= i < |s| :: IsNonSeparator(s[i])
    ensures Strip(s) == s
  {
    if s != "" { StripAll(s[..|s| - 1]); }
  }

  // ----- The automata -----

  lemma {:induction false} StripPrefix(s: string, k: nat)
    requires k <= |s|
    ensures Strip(s[..k]) <= Strip(s)
    decreases |s|
  {
    if k < |s| {
      StripPrefix(s[..|s| - 1], k);
      assert s[..|s| - 1][..k] == s[..k];
    } else {
      assert s[..k] == s;
    }
  }

  /** One more character of the input. */
  lemma StripStep(a: string, i: nat)
    requires i < |a|
    ensures Strip(a[..i + 1]) == Strip(a[..i]) + if IsNonSeparator(a[i]) then [a[i]] else []
  {
    assert a[..i + 1][..i] == a[..i];
  }

  /** What the input up to a character says about the whole input. */
  lemma StripBegins(a: string, i: nat, len: nat)
    requires i <= len <= |a|
    ensures Strip(a[..i]) <= Strip(a[..len])
  {
    StripPrefix(a[..len], i);
    assert a[..len][..i] == a[..i];
  }

  lemma SameStart(x: string, whole: string)
    requires x <= whole
    ensures |x| <= |whole|
    ensures |x| > 0 ==> whole[0] == x[0]
    ensures |x| > 1 ==> whole[1] == x[1]
    ensures |x| > 2 ==> whole[2] == x[2]
  {
  }

  /** The text that leads to a state of the prefix automata. */
  predicate AtState(state: nat, x: string) {
    match state
    case 0 => x == ""
    case 1 => x == "+"
    case 2 => x == "0"
    case 3 => x == "00"
    case 4 => x == "01"
    case 5 => x == "011"
    case _ => false
  }

  /** `matchIntlPrefix` */
  method MatchIntlPrefix(a: string, len: nat) returns (r: bool)
    requires len <= |a|
    ensures r == IsIntlPrefix(Strip(a[..len]))
  {
    var state := 0;
    for i := 0 to len
      invariant state <= 5 && AtState(state, Strip(a[..i]))
    {
      var c := a[i];
      StripStep(a, i);
      StripBegins(a, i + 1, len);
      SameStart(Strip(a[..i + 1]), Strip(a[..len]));
      match state {
        case 0 =>
          if c == '+' { state := 1; } else if c == '0' { state := 2; } else if IsNonSeparator(c) { return false; }
        case 2 =>
          if c == '0' { state := 3; } else if c == '1' { state := 4; } else if IsNonSeparator(c) { return false; }
        case 4 =>
          if c == '1' { state := 5; } else if IsNonSeparator(c) { return false; }
        case _ =>
          if IsNonSeparator(c) { return false; }
      }
    }
    r := state == 1 || state == 3 || state == 5;
  }

  /** `matchTrunkPrefix` */
  method MatchTrunkPrefix(a: string, len: nat) returns (r: bool)
    requires len <= |a|
    ensures r == IsTrunkPrefix(Strip(a[..len]))
  {
    r := false;
    for i := 0 to len
      invariant Strip(a[..i]) == if r then "0" else ""
    {
      StripStep(a, i);
      StripBegins(a, i + 1, len);
      SameStart(Strip(a[..i + 1]), Strip(a[..len]));
      if a[i] == '0' && !r {
        r := true;
      } else if IsNonSeparator(a[i]) {
        return false;
      }
    }
  }

  /** An international prefix of `k` characters and `n` digits. */
  predicate CodeAt(x: string, k: nat, n: nat) {
    k <= |x| && IsIntlPrefix(x[..k]) && |x| - k == n && Digits(x[k..])
  }

  ghost predicate IsCode(x: string, n: nat) { exists k: nat :: CodeAt(x, k, n) }

  /** The text that leads to a state of the automaton with country codes. */
  ghost predicate AtCodeState(state: nat, x: string) {
    if state <= 5 then AtState(state, x) else IsCode(x, state - 5)
  }

  lemma CodeIs(x: string, state: nat)
    requires 6 <= state <= 8 && AtCodeState(state, x)
    ensures IsIntlPrefixAndCC(x)
  {
    var k: nat :| CodeAt(x, k, state - 5);
    assert IsIntlPrefix(x[..k]);
  }

  /** A text starts with at most one international prefix. */
  lemma PrefixUnique(w: string, j: nat, k: nat)
    requires j <= |w| && k <= |w| && IsIntlPrefix(w[..j]) && IsIntlPrefix(w[..k])
    ensures j == k
  {
    assert w[..j][0] == w[0] == w[..k][0];
    if j > 1 && k > 1 { assert w[..j][1] == w[1] == w[..k][1]; }
  }

  /** After a prefix, a character that is no digit or a fourth digit ends all hope. */
  lemma CodeRejected(x: string, whole: string, k: nat)
    requires x <= whole && k <= |x| && IsIntlPrefix(x[..k]) && (!Digits(x[k..]) || |x| - k > 3)
    ensures !IsIntlPrefixAndCC(whole)
  {
    assert whole[..k] == x[..k];
    forall j | 0 <= j <= |whole| && IsIntlPrefix(whole[..j]) ensures j == k { PrefixUnique(whole, j, k); }
    if !Digits(x[k..]) {
      var i :| 0 <= i < |x| - k && !IsDigit(x[k..][i]);
      assert whole[k..][i] == x[k..][i];
    }
  }

  /** A text that is no start of a prefix. */
  lemma StartRejected(x: string, whole: string)
    requires x <= whole
    requires |x| >= 1 && (x[0] == '0' ==> |x| >= 2) && x[0] != '+'
    requires x[0] == '0' && x[1] == '1' ==> |x| >= 3 && x[2] != '1'
    requires x[0] == '0' ==> x[1] != '0'
    ensures !IsIntlPrefixAndCC(whole)
  {
  }

  lemma CodeStart(x: string, c: char)
    requires IsIntlPrefix(x) && IsDigit(c)
    ensures AtCodeState(6, x + [c])
  {
    assert (x + [c])[..|x|] == x;
    assert CodeAt(x + [c], |x|, 1);
  }

  lemma CodeMore(x: string, state: nat, c: char)
    requires 6 <= state && AtCodeState(state, x) && IsDigit(c)
    ensures AtCodeState(state + 1, x + [c])
  {
    var k: nat :| CodeAt(x, k, state - 5);
    assert (x + [c])[..k] == x[..k];
    assert (x + [c])[k..] == x[k..] + [c];
    assert CodeAt(x + [c], k, state - 4);
  }

  lemma CodeNoMore(x: string, state: nat, c: char, whole: string)
    requires 6 <= state <= 8 && AtCodeState(state, x) && (state == 8 || !IsDigit(c)) && x + [c] <= whole
    ensures !IsIntlPrefixAndCC(whole)
  {
    var k: nat :| CodeAt(x, k, state - 5);
    assert (x + [c])[..k] == x[..k];
    assert (x + [c])[k..][|x| - k] == c;
    CodeRejected(x + [c], whole, k);
  }

  lemma PrefixOnly(x: string, c: char, whole: string)
    requires IsIntlPrefix(x) && !IsDigit(c) && x + [c] <= whole
    ensures !IsIntlPrefixAndCC(whole)
  {
    assert (x + [c])[..|x|] == x;
    assert (x + [c])[|x|..][0] == c;
    CodeRejected(x + [c], whole, |x|);
  }

  lemma CodeNotYet(x: string, state: nat)
    requires state <= 5 && AtState(state, x)
    ensures !IsIntlPrefixAndCC(x)
  {
    forall j | 0 <= j < |x| ensures !IsIntlPrefix(x[..j]) {
      assert j > 0 ==> x[..j][0] == x[0];
      assert j > 1 ==> x[..j][1] == x[1];
    }
  }

  /** `matchIntlPrefixAndCC` */
  method MatchIntlPrefixAndCC(a: string, len: nat) returns (r: bool)
    requires len <= |a|
    ensures r == IsIntlPrefixAndCC(Strip(a[..len]))
  {
    hide IsIntlPrefixAndCC, Strip;
    var state := 0;
    EmptyStrip(a);
    assert AtCodeState(0, "");
    for i := 0 to len
      invariant state <= 8 && AtCodeState(state, Strip(a[..i]))
    {
      var c := a[i];
      StripStep(a, i);
      StripBegins(a, i + 1, len);
      var next := NextState(state, c);
      assert Strip(a[..i]) + "" == Strip(a[..i]);
      NextStateIs(state, c, Strip(a[..i]), Strip(a[..len]));
      if next < 0 { return false; }
      state := next;
    }
    r := state == 6 || state == 7 || state == 8;
    if r { CodeIs(Strip(a[..len]), state); } else { CodeNotYet(Strip(a[..len]), state); }
  }

  lemma EmptyStrip(a: string)
    ensures Strip(a[..0]) == ""
  {
  }

  /** One round of the switch; negative is the early rejection. */
  function NextState(state: nat, c: char): int {
    match state
    case 0 => if c == '+' then 1 else if c == '0' then 2 else if IsNonSeparator(c) then -1 else 0
    case 2 => if c == '0' then 3 else if c == '1' then 4 else if IsNonSeparator(c) then -1 else 2
    case 4 => if c == '1' then 5 else if IsNonSeparator(c) then -1 else 4
    case 1 => if IsDigit(c) then 6 else if IsNonSeparator(c) then -1 else 1
    case 3 => if IsDigit(c) then 6 else if IsNonSeparator(c) then -1 else 3
    case 5 => if IsDigit(c) then 6 else if IsNonSeparator(c) then -1 else 5
    case 6 => if IsDigit(c) then 7 else if IsNonSeparator(c) then -1 else 6
    case 7 => if IsDigit(c) then 8 else if IsNonSeparator(c) then -1 else 7
    case _ => if IsNonSeparator(c) then -1 else state
  }

  lemma NextStateIs(state: nat, c: char, x: string, whole: string)
    requires state <= 8 && AtCodeState(state, x)
    requires var y := if IsNonSeparator(c) then x + [c] else x; y <= whole
    ensures var n := NextState(state, c);
      if n < 0 then !IsIntlPrefixAndCC(whole)
      else n <= 8 && AtCodeState(n, if IsNonSeparator(c) then x + [c] else x)
  {
    hide IsIntlPrefixAndCC, CodeAt;
    if IsNonSeparator(c) {
      if state == 1 || state == 3 || state == 5 {
        if IsDigit(c) { CodeStart(x, c); } else { PrefixOnly(x, c, whole); }
      } else if state == 6 || state == 7 {
        if IsDigit(c) { CodeMore(x, state, c); } else { CodeNoMore(x, state, c, whole); }
      } else if state == 8 {
        CodeNoMore(x, state, c, whole);
      } else if NextState(state, c) < 0 {
        StartRejected(x + [c], whole);
      }
    }
  }

  // ----- The comparison -----

  /** What is left of both numbers, and how they relate to the whole. */
  ghost predicate Scanned(a: string, b: string, p: nat, q: nat, matched: nat) {
    && p <= |a| && q <= |b|
    && matched <= |Strip(a)| && matched <= |Strip(b)|
    && Strip(a[..p]) == Strip(a)[..|Strip(a)| - matched]
    && Strip(b[..q]) == Strip(b)[..|Strip(b)| - matched]
    && Common(Strip(a), Strip(b)) == matched + Common(Strip(a[..p]), Strip(b[..q]))
    && (Strip(a[..p]) == "" && Strip(b[..q]) == "" ==> p - q == Leading(a) - Leading(b))
    && Strip(a)[|Strip(a)| - matched..] == Strip(b)[|Strip(b)| - matched..]
  }

  lemma {:induction false} LeadingIs(s: string, k: nat)
    requires k < |s| && Strip(s[..k]) == "" && IsNonSeparator(s[k])
    ensures Leading(s) == k
    decreases k
  {
    if k > 0 {
      StripBegins(s, 1, k);
      StripStep(s, 0);
      EmptyStrip(s);
      assert s[1..][..k - 1] == s[1..k];
      StripTail(s[..k]);
      assert s[..k][1..] == s[1..][..k - 1];
      LeadingIs(s[1..], k - 1);
    }
  }

  lemma {:induction false} StripTail(s: string)
    requires s != "" && Strip(s) == ""
    ensures Strip(s[1..]) == ""
  {
    if |s| > 1 {
      assert s[..|s| - 1][1..] == s[1..][..|s| - 2];
      StripTail(s[..|s| - 1]);
    }
  }

  lemma {:induction false} LeadingAll(s: string)
    requires Strip(s) == ""
    ensures Leading(s) == |s|
  {
    if s != "" {
      StripBegins(s, 1, |s|);
      StripStep(s, 0);
      EmptyStrip(s);
      assert s[..|s|] == s;
      StripTail(s);
      LeadingAll(s[1..]);
    }
  }

  lemma ScanBegins(a: string, b: string)
    ensures Scanned(a, b, |a|, |b|, 0)
  {
    assert a[..|a|] == a && b[..|b|] == b;
    if Strip(a) == "" { LeadingAll(a); }
    if Strip(b) == "" { LeadingAll(b); }
  }

  /** Separators at the ends are skipped, on both sides at once. */
  lemma {:induction false} ScanSkips(a: string, b: string, p: nat, q: nat, m: nat, p': nat, q': nat)
    requires Scanned(a, b, p, q, m) && 0 < p <= |a| && 0 < q <= |b|
    requires p' == if IsNonSeparator(a[p - 1]) then p else p - 1
    requires q' == if IsNonSeparator(b[q - 1]) then q else q - 1
    requires p' < p || q' < q
    ensures Scanned(a, b, p', q', m)
  {
    hide Strip, Leading, Common, IsNonSeparator;
    StripSkip(a, p);
    StripSkip(b, q);
  }

  lemma StripSkip(a: string, p: nat)
    requires 0 < p <= |a|
    ensures if IsNonSeparator(a[p - 1]) then Strip(a[..p]) != "" else Strip(a[..p]) == Strip(a[..p - 1])
  {
    StripStep(a, p - 1);
    assert Strip(a[..p - 1]) + "" == Strip(a[..p - 1]);
  }

  /** Two equal characters are one more of the common suffix. */
  lemma ScanMatches(a: string, b: string, p: nat, q: nat, m: nat)
    requires Scanned(a, b, p, q, m) && p > 0 && q > 0
    requires IsNonSeparator(a[p - 1]) && a[p - 1] == b[q - 1]
    ensures Scanned(a, b, p - 1, q - 1, m + 1)
  {
    var x, y, c := Strip(a), Strip(b), a[p - 1];
    StripStep(a, p - 1);
    StripStep(b, q - 1);
    assert Strip(a[..p]) == Strip(a[..p - 1]) + [c] && Strip(b[..q]) == Strip(b[..q - 1]) + [c];
    assert x[..|x| - m][..|x| - m - 1] == x[..|x| - (m + 1)];
    assert y[..|y| - m][..|y| - m - 1] == y[..|y| - (m + 1)];
    assert x[|x| - (m + 1)..] == [x[..|x| - m][|x| - m - 1]] + x[|x| - m..];
    assert y[|y| - (m + 1)..] == [y[..|y| - m][|y| - m - 1]] + y[|y| - m..];
    if Strip(a[..p - 1]) == "" { LeadingIs(a, p - 1); }
    if Strip(b[..q - 1]) == "" { LeadingIs(b, q - 1); }
  }

  /** What the end of the scan tells. */
  lemma {:induction false} ScanEnds(a: string, b: string, p: nat, q: nat, m: nat)
    requires Scanned(a, b, p, q, m)
    requires p > 0 && q > 0 ==> IsNonSeparator(a[p - 1]) && IsNonSeparator(b[q - 1]) && a[p - 1] != b[q - 1]
    ensures var x, y := Strip(a), Strip(b);
      && m == Common(x, y)
      && (p == 0 || q == 0 <==> IsSuffix(x, y) || IsSuffix(y, x))
      && (p == 0 && q == 0 <==> x == y && Leading(a) == Leading(b))
      && Strip(a[..p]) == x[..|x| - m] && Strip(b[..q]) == y[..|y| - m]
  {
    hide Common, IsSuffix, Leading, Strip, IsNonSeparator;
    ScanStops(a, b, p, q);
    SuffixEnds(Strip(a), Strip(b), m, Strip(a[..p]), Strip(b[..q]));
    ScanEqual(a, b, p, q, m);
  }

  /** Where the scan stops, the unmatched parts have no common suffix. */
  lemma ScanStops(a: string, b: string, p: nat, q: nat)
    requires p <= |a| && q <= |b|
    requires p > 0 && q > 0 ==> IsNonSeparator(a[p - 1]) && IsNonSeparator(b[q - 1]) && a[p - 1] != b[q - 1]
    ensures var u, v := Strip(a[..p]), Strip(b[..q]);
      && Common(u, v) == 0 && (u == "" || v == "" <==> p == 0 || q == 0)
      && (p > 0 && q > 0 ==> u != v)
  {
    hide Common, Strip, IsNonSeparator;
    EmptyStrip(a);
    EmptyStrip(b);
    var u, v := Strip(a[..p]), Strip(b[..q]);
    CommonBound(u, v);
    if p > 0 && q > 0 {
      StripStep(a, p - 1);
      StripStep(b, q - 1);
      assert u[|u| - 1] == a[p - 1] && v[|v| - 1] == b[q - 1];
      NoCommon(u, v);
    }
  }

  lemma {:induction false} SuffixEnds(x: string, y: string, m: nat, u: string, v: string)
    requires m == Common(x, y) && |u| + m == |x| && |v| + m == |y|
    ensures u == "" || v == "" <==> IsSuffix(x, y) || IsSuffix(y, x)
  {
    hide Common, IsSuffix;
    SuffixCommon(x, y);
    SuffixCommon(y, x);
    CommonSymmetric(x, y);
  }

  lemma {:induction false} NoCommon(u: string, v: string)
    requires u != "" && v != "" && u[|u| - 1] != v[|v| - 1]
    ensures Common(u, v) == 0
  {
  }

  lemma {:induction false} ScanEqual(a: string, b: string, p: nat, q: nat, m: nat)
    requires Scanned(a, b, p, q, m)
    requires p > 0 && q > 0 ==> Strip(a[..p]) != "" && Strip(b[..q]) != "" && Strip(a[..p]) != Strip(b[..q])
    ensures p == 0 && q == 0 <==> Strip(a) == Strip(b) && Leading(a) == Leading(b)
  {
    EmptyStrip(a);
    EmptyStrip(b);
    var x, y := Strip(a), Strip(b);
    assert x == x[..|x| - m] + x[|x| - m..] && y == y[..|y| - m] + y[|y| - m..];
    if x == y { assert Strip(a[..p]) == Strip(b[..q]); }
  }

  /** The scan of `phone_number_compare_loose`, from right to left over both numbers. */
  method Scan(a: string, b: string) returns (ia: int, ib: int, matched: nat, separatorsA: nat, separatorsB: nat)
    requires |a| > 0 && |b| > 0
    ensures -1 <= ia < |a| && -1 <= ib < |b|
    ensures matched + separatorsA + ia + 1 == |a| && matched + separatorsB + ib + 1 == |b|
    ensures Scanned(a, b, ia + 1, ib + 1, matched)
    ensures ia >= 0 && ib >= 0 ==> IsNonSeparator(a[ia]) && IsNonSeparator(b[ib]) && a[ia] != b[ib]
  {
    hide Scanned, IsNonSeparator;
    ia, ib := |a| - 1, |b| - 1;
    matched, separatorsA, separatorsB := 0, 0, 0;
    ScanBegins(a, b);
    var mismatch := false;
    while ia >= 0 && ib >= 0 && !mismatch
      invariant -1 <= ia < |a| && -1 <= ib < |b|
      invariant matched + separatorsA + ia + 1 == |a| && matched + separatorsB + ib + 1 == |b|
      invariant Scanned(a, b, ia + 1, ib + 1, matched)
      invariant mismatch ==> ia >= 0 && ib >= 0 && IsNonSeparator(a[ia]) && IsNonSeparator(b[ib]) && a[ia] != b[ib]
      decreases ia + ib, !mismatch
    {
      var ca, cb, skipCmp := a[ia], b[ib], false;
      ghost var p, q := ia + 1, ib + 1;
      if !IsNonSeparator(ca) {
        ia := ia - 1;
        skipCmp := true;
        separatorsA := separatorsA + 1;
      }
      if !IsNonSeparator(cb) {
        ib := ib - 1;
        skipCmp := true;
        separatorsB := separatorsB + 1;
      }
      if !skipCmp {
        if cb != ca {
          mismatch := true;
        } else {
          ScanMatches(a, b, p, q, matched);
          ia, ib, matched := ia - 1, ib - 1, matched + 1;
        }
      } else {
        ScanSkips(a, b, p, q, matched, ia + 1, ib + 1);
      }
    }
  }

  /** `phone_number_compare_loose`; the minimum match is `getMinMatch()`. */
  method PhoneNumberCompareLoose(na: Option<string>, nb: Option<string>, minMatch: nat) returns (r: bool)
    requires minMatch >= 1
    ensures r == Loose(na, nb, minMatch)
  {
    hide Strip, Leading, Common, IsIntlPrefixAndCC, IsIntlPrefix, IsTrunkPrefix, IsSuffix, Scanned, IsNonSeparator;
    if na.None? || nb.None? { return false; }
    var a, b := na.value, nb.value;
    if |a| == 0 || |b| == 0 { return false; }
    var ia, ib, matched, separatorsA, separatorsB := Scan(a, b);
    ScanEnds(a, b, ia + 1, ib + 1, matched);
    CommonBound(Strip(a), Strip(b));
    if matched < minMatch {
      var effectiveA, effectiveB := |a| - separatorsA, |b| - separatorsB;
      return effectiveA == effectiveB && effectiveA == matched;
    }
    if ia < 0 || ib < 0 { return true; }
    var t1 := MatchIntlPrefix(a, ia + 1);
    var t2 := MatchIntlPrefix(b, ib + 1);
    if t1 && t2 { return true; }
    t1 := MatchTrunkPrefix(a, ia + 1);
    t2 := MatchIntlPrefixAndCC(b, ib + 1);
    if t1 && t2 { return true; }
    t1 := MatchTrunkPrefix(b, ib + 1);
    t2 := MatchIntlPrefixAndCC(a, ia + 1);
    if t1 && t2 { return true; }
    r := false;
  }
}
