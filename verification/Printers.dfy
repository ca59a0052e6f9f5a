/** Thousands separators, money with two decimals, and SQL literal lists. */
module Printers {
  import opened Options
  import opened Decimals

  // ----- thousands separators -----

  /** A comma before every third character from the end. */
  function Separated(s: string): string {
    if |s| <= 3 then s else Separated(s[..|s| - 3]) + "," + s[|s| - 3..]
  }

  /** What the loop has appended for the first i characters. */
  function Appended(s: string, i: nat): string
    requires i <= |s|
  {
    if i == 0 then ""
    else Appended(s, i - 1) + (if i - 1 > 0 && (|s| - (i - 1)) % 3 == 0 then "," else "") + [s[i - 1]]
  }

  lemma {:induction false} AppendedPrefix(s: string, i: nat)
    requires 3 <= |s| && i <= |s| - 3
    ensures Appended(s, i) == Appended(s[..|s| - 3], i)
  {
    if i > 0 {
      AppendedPrefix(s, i - 1);
    }
  }

  lemma AppendedTail(s: string, n: nat)
    requires |s| == n + 3 && n > 0
    ensures Appended(s, |s|) == Appended(s, n) + "," + s[n..]
  {
    AppendedNext(s, n);
    AppendedNext(s, n + 1);
    AppendedNext(s, n + 2);
    assert s[n..] == [s[n]] + [s[n + 1]] + [s[n + 2]];
  }

  lemma AppendedNext(s: string, i: nat)
    requires i < |s|
    ensures Appended(s, i + 1) == if i > 0 && (|s| - i) % 3 == 0 then Appended(s, i) + "," + [s[i]] else Appended(s, i) + [s[i]]
  {
    assert Appended(s, i) + "" + [s[i]] == Appended(s, i) + [s[i]];
  }

  lemma {:induction false} AppendedIsSeparated(s: string)
    ensures Appended(s, |s|) == Separated(s)
  {
    if |s| <= 3 {
      AppendedShort(s, |s|);
    } else {
      var n := |s| - 3;
      AppendedPrefix(s, n);
      AppendedIsSeparated(s[..n]);
      AppendedTail(s, n);
    }
  }

  lemma {:induction false} AppendedShort(s: string, i: nat)
    requires |s| <= 3 && i <= |s|
    ensures Appended(s, i) == s[..i]
  {
    if i > 0 {
      AppendedShort(s, i - 1);
    }
  }

  function ThousandSep(n: int): string
    requires IsInt64(n)
  {
    var s := Separated(Signed(if n < 0 then Negate64(n) else n));
    if n < 0 then "-" + s else s
  }

  method WithThousandSep(n: int) returns (r: string)
    requires IsInt64(n)
    ensures r == ThousandSep(n)
  {
    var negative, m := n < 0, n;
    if negative {
      m := Negate64(m);
    }
    var s := Signed(m);
    var out := "";
    for i := 0 to |s|
      invariant out == Appended(s, i)
    {
      if i > 0 && (|s| - i) % 3 == 0 {
        out := out + ",";
      }
      out := out + [s[i]];
    }
    AppendedIsSeparated(s);
    r := if negative then "-" + out else out;
  }

  function StripCommas(s: string): string {
    if s == "" then ""
    else StripCommas(s[..|s| - 1]) + (if s[|s| - 1] == ',' then "" else [s[|s| - 1]])
  }

  lemma {:induction false} StripConcat(a: string, b: string)
    ensures StripCommas(a + b) == StripCommas(a) + StripCommas(b)
    decreases |b|
  {
    if b == "" {
      assert a + b == a;
    } else {
      assert (a + b)[..|a + b| - 1] == a + b[..|b| - 1];
      StripConcat(a, b[..|b| - 1]);
    }
  }

  lemma {:induction false} StripNothing(s: string)
    requires ',' !in s
    ensures StripCommas(s) == s
  {
    if s != "" {
      StripNothing(s[..|s| - 1]);
      assert s == s[..|s| - 1] + [s[|s| - 1]];
    }
  }

  lemma StripComma(a: string)
    ensures StripCommas(a + ",") == StripCommas(a)
  {
    assert (a + ",")[..|a|] == a;
  }

  lemma StripGroup(a: string, b: string)
    requires ',' !in b
    ensures StripCommas(a + "," + b) == StripCommas(a) + b
  {
    StripNothing(b);
    StripComma(a);
    StripConcat(a + ",", b);
  }

  lemma {:induction false} StripSeparated(s: string)
    requires ',' !in s
    ensures StripCommas(Separated(s)) == s
  {
    if |s| <= 3 {
      StripNothing(s);
    } else {
      var a, b := s[..|s| - 3], s[|s| - 3..];
      StripSeparated(a);
      StripGroup(Separated(a), b);
      assert s == a + b;
    }
  }

  /** One to three digits, then groups of exactly three after commas. */
  predicate GroupsOfThree(s: string) {
    || (1 <= |s| <= 3 && AllDigits(s))
    || (|s| > 4 && s[|s| - 4] == ',' && AllDigits(s[|s| - 3..]) && GroupsOfThree(s[..|s| - 4]))
  }

  lemma {:induction false} SeparatedGroups(s: string)
    requires s != "" && AllDigits(s)
    ensures GroupsOfThree(Separated(s))
  {
    if |s| > 3 {
      var a, b := s[..|s| - 3], s[|s| - 3..];
      SeparatedGroups(a);
      var t := Separated(s);
      assert t == Separated(a) + "," + b;
      assert t[|t| - 3..] == b && t[..|t| - 4] == Separated(a);
    }
  }

  lemma NoComma(n: int)
    ensures ',' !in Signed(n)
  {
    var d := Decimal(if n < 0 then -n else n);
    assert forall c :: c in d ==> IsDigit(c);
  }

  /** The printed number: groups of three, behind a sign when it is negative; one value escapes this. */
  lemma SepGroups(n: int)
    requires IsInt64(n) && n != MIN64
    ensures n >= 0 ==> GroupsOfThree(ThousandSep(n))
    ensures n < 0 ==> ThousandSep(n)[0] == '-' && GroupsOfThree(ThousandSep(n)[1..])
  {
    SeparatedGroups(Decimal(if n < 0 then -n else n));
    if n < 0 {
      assert ThousandSep(n)[1..] == Separated(Decimal(-n));
    }
  }

  lemma {:induction false} LeadingSign(s: string)
    requires s != "" && s[0] == '-'
    ensures ReadNat(s) == None
  {
    if |s| > 1 {
      LeadingSign(s[..|s| - 1]);
    }
  }

  lemma SignFails(m: int)
    requires m < 0
    ensures ReadNat(Signed(m)) == None
  {
    LeadingSign(Signed(m));
  }

  lemma StripSign(m: int)
    ensures StripCommas("-" + Separated(Signed(m))) == "-" + Signed(m)
    ensures StripCommas(Separated(Signed(m))) == Signed(m)
  {
    NoComma(m);
    StripSeparated(Signed(m));
    StripConcat("-", Separated(Signed(m)));
    StripNothing("-");
  }

  /** Without its commas, the printed number reads back as n exactly when n is not the smallest value. */
  lemma SepRoundTripIff(n: int)
    requires IsInt64(n)
    ensures ReadInt(StripCommas(ThousandSep(n))) == Some(n) <==> n != MIN64
  {
    var m := if n < 0 then Negate64(n) else n;
    StripSign(m);
    if n == MIN64 {
      ReadAfterSign(Signed(m));
      SignFails(m);
    } else {
      ReadSigned(n);
    }
  }

  // ----- money -----

  /** The whole part and the hundredths of a non-negative amount, after the carry. */
  function Rounded(f: real): (nat, nat)
    requires f >= 0.0
  {
    var whole := f.Floor;
    var frac := ((f - whole as real) * 100.0 + 0.5).Floor;
    if frac >= 100 then (whole + 1, frac - 100) else (whole, frac)
  }

  lemma RoundedWithin(f: real)
    requires f >= 0.0
    ensures var (whole, frac) := Rounded(f);
            frac < 100 && whole <= f.Floor + 1 && -0.005 <= whole as real + frac as real / 100.0 - f <= 0.005
  {
  }

  function TwoDigits(n: nat): string
    requires n < 100
  {
    [Digit(n / 10), Digit(n % 10)]
  }

  function Money(f: real): string
    requires -(MAX64 as real) < f < MAX64 as real
  {
    var (whole, frac) := Rounded(if f < 0.0 then -f else f);
    var s := ThousandSep(whole) + "." + TwoDigits(frac);
    if f < 0.0 then "-" + s else s
  }

  method Round(f: real) returns (whole: nat, frac: nat)
    requires f >= 0.0
    ensures (whole, frac) == Rounded(f)
  {
    whole := f.Floor;
    frac := ((f - whole as real) * 100.0 + 0.5).Floor;
    if frac >= 100 {
      whole := whole + 1;
      frac := frac - 100;
    }
  }

  /** Amounts whose whole part, also after a carry, is an int64. */
  method WithThousandSepFloat(f: real) returns (r: string)
    requires -(MAX64 as real) < f < MAX64 as real
    ensures r == Money(f)
  {
    var negative, g := f < 0.0, f;
    if negative {
      g := -g;
    }
    var whole, frac := Round(g);
    RoundedWithin(g);
    var grouped := WithThousandSep(whole);
    var result := grouped + "." + TwoDigits(frac);
    r := if negative then "-" + result else result;
  }

  function ReadCents(s: string): Option<real> {
    if |s| < 4 || s[|s| - 3] != '.' then None
    else
      var whole, frac := ReadNat(StripCommas(s[..|s| - 3])), ReadNat(s[|s| - 2..]);
      if whole.None? || frac.None? then None else Some(whole.value as real + frac.value as real / 100.0)
  }

  function ReadMoney(s: string): Option<real> {
    if s != "" && s[0] == '-' then
      var m := ReadCents(s[1..]);
      if m.None? then None else Some(-m.value)
    else ReadCents(s)
  }

  lemma ReadTwoDigits(n: nat)
    requires n < 100
    ensures ReadNat(TwoDigits(n)) == Some(n)
  {
    assert TwoDigits(n)[..1] == [Digit(n / 10)];
    assert ReadNat([Digit(n / 10)]) == Some(n / 10);
  }

  lemma WholeBack(whole: nat)
    requires whole <= MAX64
    ensures ReadNat(StripCommas(ThousandSep(whole))) == Some(whole)
    ensures ThousandSep(whole) != "" && IsDigit(ThousandSep(whole)[0])
  {
    NoComma(whole);
    StripSeparated(Decimal(whole));
    ReadDecimal(whole);
    SeparatedGroups(Decimal(whole));
    FirstDigit(Separated(Decimal(whole)));
  }

  lemma CentsParts(t: string, d: string, s: string)
    requires t != "" && |d| == 2 && s == t + "." + d
    ensures |s| >= 4 && s[|s| - 3] == '.' && s[..|s| - 3] == t && s[|s| - 2..] == d && s[0] == t[0]
  {
  }

  lemma ReadCentsBack(whole: nat, frac: nat)
    requires whole <= MAX64 && frac < 100
    ensures var s := ThousandSep(whole) + "." + TwoDigits(frac);
            ReadCents(s) == Some(whole as real + frac as real / 100.0) && s[0] != '-'
  {
    CentsBack(whole, frac, ThousandSep(whole), TwoDigits(frac), ThousandSep(whole) + "." + TwoDigits(frac));
  }

  lemma CentsBack(whole: nat, frac: nat, t: string, d: string, s: string)
    requires whole <= MAX64 && frac < 100 && t == ThousandSep(whole) && d == TwoDigits(frac) && s == t + "." + d
    ensures ReadCents(s) == Some(whole as real + frac as real / 100.0) && s[0] != '-'
  {
    ReadTwoDigits(frac);
    WholeBack(whole);
    CentsParts(t, d, s);
  }

  lemma {:induction false} FirstDigit(s: string)
    requires GroupsOfThree(s)
    ensures s != "" && IsDigit(s[0])
  {
    if 1 <= |s| <= 3 && AllDigits(s) {
      assert s[0] in s;
    } else {
      FirstDigit(s[..|s| - 4]);
    }
  }

  /** The printed amount reads back within half a cent of the amount. */
  lemma MoneyWithinHalfCent(f: real)
    requires -(MAX64 as real) < f < MAX64 as real
    ensures ReadMoney(Money(f)).Some? && -0.005 <= ReadMoney(Money(f)).value - f <= 0.005
  {
    var g := if f < 0.0 then -f else f;
    var (whole, frac) := Rounded(g);
    RoundedWithin(g);
    ReadCentsBack(whole, frac);
    if f < 0.0 {
      assert Money(f)[1..] == ThousandSep(whole) + "." + TwoDigits(frac);
    }
  }

  // ----- SQL literal lists -----

  /** Doubles every quote. */
  function Escaped(v: string): string {
    if v == "" then "" else (if v[0] == '\'' then "''" else [v[0]]) + Escaped(v[1..])
  }

  function Quoted(v: string): string {
    "'" + Escaped(v) + "'"
  }

  function Joined(parts: seq<string>): string {
    if parts == [] then "" else if |parts| == 1 then parts[0] else parts[0] + "," + Joined(parts[1..])
  }

  function QuotedAll(vals: seq<string>): seq<string> {
    if vals == [] then [] else QuotedAll(vals[..|vals| - 1]) + [Quoted(vals[|vals| - 1])]
  }

  function Clause(vals: seq<string>): string {
    if vals == [] then "''" else Joined(QuotedAll(vals))
  }

  method InClause(vals: seq<string>) returns (s: string)
    ensures s == Clause(vals)
  {
    if |vals| == 0 {
      return "''";
    }
    var quoted := [];
    for i := 0 to |vals|
      invariant quoted == QuotedAll(vals[..i])
    {
      var v := Escaped(vals[i]);
      assert vals[..i + 1][..i] == vals[..i];
      quoted := quoted + ["'" + v + "'"];
    }
    assert vals[..|vals|] == vals;
    s := Joined(quoted);
  }

  /** The rest of a character string literal after its opening quote: the value, and what follows the literal. */
  function ReadBody(s: string): Option<(string, string)> {
    if s == "" then None
    else if s[0] == '\'' then
      if |s| > 1 && s[1] == '\'' then
        var r := ReadBody(s[2..]);
        if r.None? then None else Some(("'" + r.value.0, r.value.1))
      else Some(("", s[1..]))
    else
      var r := ReadBody(s[1..]);
      if r.None? then None else Some(([s[0]] + r.value.0, r.value.1))
  }

  lemma {:induction false} BodyShrinks(s: string)
    ensures ReadBody(s).Some? ==> |ReadBody(s).value.1| < |s|
  {
    if s != "" {
      if s[0] == '\'' && |s| > 1 && s[1] == '\'' {
        BodyShrinks(s[2..]);
      } else if s[0] != '\'' {
        BodyShrinks(s[1..]);
      }
    }
  }

  /** Reads a comma-separated list of character string literals. */
  function ReadList(s: string): Option<seq<string>>
    decreases |s|
  {
    if s == "" || s[0] != '\'' then None
    else
      var first := ReadBody(s[1..]);
      if first.None? then None
      else
        var (v, rest) := first.value;
        if rest == "" then Some([v])
        else if rest[0] != ',' then None
        else
          BodyShrinks(s[1..]);
          var more := ReadList(rest[1..]);
          if more.None? then None else Some([v] + more.value)
  }

  lemma {:induction false} ReadEscaped(v: string, rest: string)
    requires rest == "" || rest[0] != '\''
    ensures ReadBody(Escaped(v) + "'" + rest) == Some((v, rest))
  {
    var s := Escaped(v) + "'" + rest;
    if v == "" {
      assert s == "'" + rest;
    } else {
      var tail := Escaped(v[1..]) + "'" + rest;
      ReadEscaped(v[1..], rest);
      assert v == [v[0]] + v[1..];
      if v[0] == '\'' {
        assert s == "''" + tail;
        assert s[2..] == tail;
      } else {
        assert s == [v[0]] + tail;
        assert s[1..] == tail;
      }
    }
  }

  lemma {:induction false} QuotedAllHead(vals: seq<string>)
    requires vals != []
    ensures QuotedAll(vals) == [Quoted(vals[0])] + QuotedAll(vals[1..])
  {
    if |vals| > 1 {
      QuotedAllHead(vals[..|vals| - 1]);
      assert vals[..|vals| - 1][1..] == vals[1..][..|vals| - 2];
    }
  }

  lemma {:induction false} QuotedAllLength(vals: seq<string>)
    ensures |QuotedAll(vals)| == |vals|
  {
    if vals != [] {
      QuotedAllLength(vals[..|vals| - 1]);
    }
  }

  lemma {:induction false} ReadJoined(vals: seq<string>)
    requires vals != []
    ensures ReadList(Joined(QuotedAll(vals))) == Some(vals)
  {
    var parts, s := QuotedAll(vals), Joined(QuotedAll(vals));
    QuotedAllHead(vals);
    QuotedAllLength(vals);
    if |vals| == 1 {
      ReadEscaped(vals[0], "");
      assert s == Quoted(vals[0]);
      assert s[1..] == Escaped(vals[0]) + "'" + "";
      assert vals == [vals[0]];
    } else {
      var tail := Joined(QuotedAll(vals[1..]));
      assert parts[1..] == QuotedAll(vals[1..]);
      assert s == Quoted(vals[0]) + "," + tail;
      ReadEscaped(vals[0], "," + tail);
      assert s[1..] == Escaped(vals[0]) + "'" + ("," + tail);
      assert ("," + tail)[1..] == tail;
      ReadJoined(vals[1..]);
      assert vals == [vals[0]] + vals[1..];
    }
  }

  /** The clause reads back as the values exactly when there are any; without values it reads as one empty string. */
  lemma ClauseRoundTripIff(vals: seq<string>)
    ensures ReadList(Clause(vals)) == Some(vals) <==> vals != []
  {
    if vals == [] {
      assert Clause(vals)[1..] == Escaped("") + "'" + "";
      ReadEscaped("", "");
    } else {
      ReadJoined(vals);
    }
  }
}
