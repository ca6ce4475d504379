/**
 * The parts of Ruby's core library that the data store's path and uid logic
 * relies on, written out over `string`: prefix tests, `String#split("/")`,
 * `Array#join("/")`, `File.join`, zero-padded decimal formatting
 * (`sprintf("%0Nd")`, `strftime`) and string ordering (`String#<`).
 */
module RubyText {

  // ---------------------------------------------------------------------------
  // Prefixes, suffixes, characters

  /** `s.start_with?(prefix)` */
  predicate StartsWith(s: string, prefix: string) {
    |prefix| <= |s| && s[..|prefix|] == prefix
  }

  /** `s.end_with?(suffix)` */
  predicate EndsWith(s: string, suffix: string) {
    |suffix| <= |s| && s[|s| - |suffix|..] == suffix
  }

  lemma ConcatEnds(a: string, b: string)
    ensures StartsWith(a + b, a) && EndsWith(a + b, b)
  {
    assert (a + b)[..|a|] == a;
    assert (a + b)[|a|..] == b;
  }

  lemma ConcatAssociative<T>(a: seq<T>, b: seq<T>, c: seq<T>)
    ensures a + (b + c) == a + b + c
  {
  }

  lemma PrependKeepsPrefix(a: string, s: string, p: string)
    requires StartsWith(s, p)
    ensures StartsWith(a + s, a + p)
  {
    assert (a + s)[..|a + p|] == a + s[..|p|];
  }

  /** `s.include?(t)` */
  predicate Includes(s: string, t: string) {
    exists i :: 0 <= i <= |s| && StartsWith(s[i..], t)
  }

  predicate NoSlash(s: string) {
    forall i :: 0 <= i < |s| ==> s[i] != '/'
  }

  predicate NoSlashParts(parts: seq<string>) {
    forall i :: 0 <= i < |parts| ==> NoSlash(parts[i])
  }

  /**
   * `x` names a directory on the way to `t`: it is a prefix of `t` that
   * ends where `t` ends or right before one of its '/' separators.
   */
  predicate DirPrefix(t: string, x: string) {
    StartsWith(t, x) && (|x| == |t| || t[|x|] == '/')
  }

  lemma DirPrefixTransitive(a: string, b: string, x: string)
    requires DirPrefix(a, b) && DirPrefix(b, x)
    ensures DirPrefix(a, x)
  {
    assert a[..|x|] == a[..|b|][..|x|];
    if |x| < |b| {
      assert a[|x|] == a[..|b|][|x|];
    }
  }

  // ---------------------------------------------------------------------------
  // File.join

  /**
   * `s` with every trailing '/' removed: the cut that Ruby's File.join makes
   * before appending a component that itself starts with '/'.
   */
  function ChompSlashes(s: string): (r: string)
    ensures StartsWith(s, r)
    ensures r == [] || r[|r| - 1] != '/'
    ensures forall i :: |r| <= i < |s| ==> s[i] == '/'
  {
    if |s| > 0 && s[|s| - 1] == '/' then ChompSlashes(s[..|s| - 1]) else s
  }

  /**
   * Cutting trailing separators never reaches into a prefix `p` that does not
   * itself end in a separator.
   */
  lemma {:induction false} ChompKeepsPrefix(s: string, p: string)
    requires StartsWith(s, p)
    requires p == [] || p[|p| - 1] != '/'
    ensures StartsWith(ChompSlashes(s), p)
  {
    if |s| > 0 && s[|s| - 1] == '/' {
      assert |p| < |s|;
      assert s[..|s| - 1][..|p|] == s[..|p|];
      ChompKeepsPrefix(s[..|s| - 1], p);
    }
  }

  /**
   * One step of `File.join(a, b)`: when `b` starts with '/', the trailing
   * separators of `a` are cut; otherwise a '/' is inserted unless `a`
   * already ends with one.
   */
  function JoinPath(a: string, b: string): (r: string)
    ensures EndsWith(r, b)
    ensures StartsWith(r, ChompSlashes(a) + "/")
    ensures (b == [] || b[0] != '/') && (a == [] || a[|a| - 1] != '/') ==> r == a + "/" + b
  {
    if |b| > 0 && b[0] == '/' then
      ChompSlashes(a) + b
    else if |a| > 0 && a[|a| - 1] == '/' then
      assert a[..|ChompSlashes(a)|] + "/" == a[..|ChompSlashes(a)| + 1];
      a + b
    else
      a + "/" + b
  }

  /** `File.join(*parts)` */
  function FileJoin(parts: seq<string>): (r: string)
    ensures |parts| == 0 ==> r == ""
    ensures |parts| == 1 ==> r == parts[0]
    ensures |parts| >= 1 ==> EndsWith(r, parts[|parts| - 1])
  {
    if |parts| == 0 then ""
    else if |parts| == 1 then parts[0]
    else JoinPath(FileJoin(parts[..|parts| - 1]), parts[|parts| - 1])
  }

  /** `File.join(a, b)` and `File.join(a, b, c)` fold `JoinPath` from the left. */
  lemma FileJoinTwo(a: string, b: string)
    ensures FileJoin([a, b]) == JoinPath(a, b)
  {
    assert [a, b][..1] == [a];
  }

  lemma FileJoinThree(a: string, b: string, c: string)
    ensures FileJoin([a, b, c]) == JoinPath(JoinPath(a, b), c)
  {
    var parts := [a, b, c];
    assert parts[..|parts| - 1] == [a, b];
    assert FileJoin(parts) == JoinPath(FileJoin([a, b]), c);
    FileJoinTwo(a, b);
  }

  /** Joining one more component keeps a directory prefix of the left part. */
  lemma JoinPathKeepsPrefix(a: string, b: string, p: string)
    requires StartsWith(a, p + "/")
    requires p == [] || p[|p| - 1] != '/'
    ensures StartsWith(JoinPath(a, b), p + "/")
  {
    assert StartsWith(a, p) by { assert a[..|p|] == (p + "/")[..|p|]; }
    ChompKeepsPrefix(a, p);
    var ca, r := ChompSlashes(a), JoinPath(a, b);
    if |ca| == |p| {
      assert ca == p;
    } else {
      assert r[..|p| + 1] == ca[..|p| + 1];
      assert ca[..|p| + 1] == a[..|p| + 1];
    }
  }

  /**
   * Whatever the components are, the joined path begins with the first
   * component (less its trailing separators) followed by a separator.
   */
  lemma {:induction false} FileJoinStartsWithFirst(parts: seq<string>)
    requires |parts| >= 2
    ensures StartsWith(FileJoin(parts), ChompSlashes(parts[0]) + "/")
  {
    var init := parts[..|parts| - 1];
    assert init[0] == parts[0];
    if |init| >= 2 {
      FileJoinStartsWithFirst(init);
      JoinPathKeepsPrefix(FileJoin(init), parts[|parts| - 1], ChompSlashes(parts[0]));
    }
  }

  /**
   * Components that carry no separators at their joints are joined with
   * exactly one '/' each, as by `parts.join("/")`.
   */
  predicate CleanComponents(parts: seq<string>) {
    && (forall i :: 0 <= i < |parts| - 1 ==> parts[i] != [] && parts[i][|parts[i]| - 1] != '/')
    && (forall i :: 1 <= i < |parts| ==> parts[i] == [] || parts[i][0] != '/')
  }

  lemma {:induction false} FileJoinClean(parts: seq<string>)
    requires CleanComponents(parts)
    ensures FileJoin(parts) == Join(parts)
  {
    if |parts| >= 2 {
      var init := parts[..|parts| - 1];
      assert CleanComponents(init);
      FileJoinClean(init);
      var last := init[|init| - 1];
      assert EndsWith(Join(init), last) by { JoinEndsWithLast(init); }
      assert Join(init)[|Join(init)| - 1] == last[|last| - 1];
    }
  }

  // ---------------------------------------------------------------------------
  // Array#join("/") and String#split("/")

  /** `parts.join("/")` */
  function Join(parts: seq<string>): string {
    if |parts| == 0 then ""
    else if |parts| == 1 then parts[0]
    else Join(parts[..|parts| - 1]) + "/" + parts[|parts| - 1]
  }

  lemma {:induction false} JoinEndsWithLast(parts: seq<string>)
    requires |parts| >= 1
    ensures EndsWith(Join(parts), parts[|parts| - 1])
  {
  }

  /**
   * The fields of `s` between its '/' separators, empty fields included:
   * a string with n separators has n + 1 fields.
   */
  function RawSplit(s: string): (r: seq<string>)
    ensures |r| >= 1
    ensures NoSlashParts(r)
    ensures Join(r) == s
  {
    if s == [] then [""]
    else
      var init := RawSplit(s[..|s| - 1]);
      var c := s[|s| - 1];
      if c == '/' then
        assert s == s[..|s| - 1] + [c];
        init + [""]
      else
        var r := init[..|init| - 1] + [init[|init| - 1] + [c]];
        assert r[..|r| - 1] == init[..|init| - 1];
        assert s == s[..|s| - 1] + [c];
        r
  }

  /** `parts` without its trailing empty strings. */
  function DropTrailingEmpty(parts: seq<string>): (r: seq<string>)
    ensures |r| <= |parts| && r == parts[..|r|]
    ensures r == [] || r[|r| - 1] != ""
    ensures forall i :: |r| <= i < |parts| ==> parts[i] == ""
  {
    if |parts| > 0 && parts[|parts| - 1] == "" then DropTrailingEmpty(parts[..|parts| - 1]) else parts
  }

  /**
   * Dropping trailing empty fields before joining is the same as cutting
   * the trailing separators after joining.
   */
  lemma {:induction false} JoinDropTrailingEmpty(parts: seq<string>)
    requires NoSlashParts(parts)
    ensures Join(DropTrailingEmpty(parts)) == ChompSlashes(Join(parts))
  {
    if |parts| > 0 {
      var n := |parts|;
      var last := parts[n - 1];
      if last == "" {
        if n >= 2 {
          var init := parts[..n - 1];
          assert NoSlashParts(init);
          JoinDropTrailingEmpty(init);
          assert Join(parts) == Join(init) + "/";
          assert Join(parts)[..|Join(parts)| - 1] == Join(init);
        }
      } else {
        JoinEndsWithLast(parts);
        assert Join(parts)[|Join(parts)| - 1] == last[|last| - 1];
      }
    }
  }

  /**
   * `s.split("/")`: the fields between separators, with trailing empty
   * fields suppressed ("" and "/" both split to []).
   */
  function Split(s: string): seq<string> {
    DropTrailingEmpty(RawSplit(s))
  }

  /**
   * `split("/")` gives slash-free components with no trailing empty one,
   * and joining them back gives `s` less its trailing separators.
   */
  lemma SplitMeaning(s: string)
    ensures NoSlashParts(Split(s))
    ensures Split(s) == [] || Split(s)[|Split(s)| - 1] != ""
    ensures Join(Split(s)) == ChompSlashes(s)
  {
    var raw := RawSplit(s);
    assert Split(s) == DropTrailingEmpty(raw);
    JoinDropTrailingEmpty(raw);
    var r := DropTrailingEmpty(raw);
    forall i | 0 <= i < |r|
      ensures NoSlash(r[i])
    {
      assert r[i] == raw[i];
    }
  }

  /** `parts[0..-2]`: every element but the last (none for an empty array). */
  function DropLast<T>(parts: seq<T>): seq<T> {
    if |parts| == 0 then [] else parts[..|parts| - 1]
  }

  /**
   * Every leading run of fields, joined, names a directory on the way to the
   * whole join; the shorter run gives the strictly shorter name.
   */
  lemma {:induction false} JoinPrefixIsDirPrefix(c: seq<string>, n: nat)
    requires 1 <= n <= |c|
    ensures DirPrefix(Join(c), Join(c[..n]))
    ensures n < |c| ==> |Join(c[..n])| < |Join(c)|
  {
    if n < |c| {
      var init := c[..|c| - 1];
      assert init[..n] == c[..n];
      JoinPrefixIsDirPrefix(init, n);
      assert Join(c) == Join(init) + "/" + c[|c| - 1];
      assert DirPrefix(Join(c), Join(init)) by {
        assert Join(c)[..|Join(init)|] == Join(init);
      }
      DirPrefixTransitive(Join(c), Join(init), Join(c[..n]));
    } else {
      assert c[..n] == c;
    }
  }

  /**
   * Conversely, when no field contains a separator, every directory on the
   * way to the join is the join of a leading run of fields.
   */
  lemma {:induction false} DirPrefixIsJoinPrefix(c: seq<string>, x: string) returns (n: nat)
    requires |c| >= 1 && NoSlashParts(c)
    requires DirPrefix(Join(c), x)
    ensures 1 <= n <= |c| && Join(c[..n]) == x
  {
    var t := Join(c);
    if |x| == |t| {
      n := |c|;
      assert c[..n] == c;
      assert x == t[..|x|];
    } else if |c| == 1 {
      assert false;
    } else {
      var init := c[..|c| - 1];
      var last := c[|c| - 1];
      assert t == Join(init) + "/" + last;
      if |x| > |Join(init)| {
        assert false;
      } else if |x| == |Join(init)| {
        n := |c| - 1;
        assert x == t[..|x|] == Join(init);
      } else {
        assert Join(init)[..|x|] == t[..|x|];
        assert Join(init)[|x|] == t[|x|];
        assert NoSlashParts(init);
        n := DirPrefixIsJoinPrefix(init, x);
        assert init[..n] == c[..n];
      }
    }
  }

  // ---------------------------------------------------------------------------
  // Decimal formatting

  function Pow10(n: nat): (r: nat)
    ensures r >= 1
  {
    if n == 0 then 1 else 10 * Pow10(n - 1)
  }

  predicate IsDigit(c: char) {
    '0' <= c <= '9'
  }

  function DigitChar(d: nat): (c: char)
    requires d < 10
    ensures IsDigit(c)
  {
    (48 + d) as char
  }

  /** The number that a string of decimal digits denotes. */
  function DecimalValue(s: string): nat
    requires forall i :: 0 <= i < |s| ==> IsDigit(s[i])
  {
    if s == [] then 0
    else
      var d := s[|s| - 1];
      assert IsDigit(d);
      10 * DecimalValue(s[..|s| - 1]) + (d as int - '0' as int)
  }

  /**
   * `sprintf("%0*d", width, n)`: the decimal digits of `n`, padded on the
   * left with '0' to at least `width` characters (`strftime` uses this for
   * %Y with width 4 and for %m, %d, %H, %M, %S with width 2).
   */
  function ZeroPad(n: nat, width: nat): (r: string)
    ensures |r| >= 1 && |r| >= width
    ensures forall i :: 0 <= i < |r| ==> IsDigit(r[i])
    decreases n, width
  {
    if n < 10 && width <= 1 then
      [DigitChar(n)]
    else
      ZeroPad(n / 10, if width == 0 then 0 else width - 1) + [DigitChar(n % 10)]
  }

  lemma DivTen(n: nat, width: nat)
    ensures n == 10 * (n / 10) + n % 10
    ensures width >= 1 && n < Pow10(width) ==> n / 10 < Pow10(width - 1)
  {
    if width >= 1 {
      assert Pow10(width) == 10 * Pow10(width - 1);
    }
  }

  /** The padded digits denote the number itself. */
  lemma {:induction false} ZeroPadValue(n: nat, width: nat)
    ensures DecimalValue(ZeroPad(n, width)) == n
    decreases n, width
  {
    var r := ZeroPad(n, width);
    if n < 10 && width <= 1 {
      assert r[..0] == [];
    } else {
      var p := ZeroPad(n / 10, if width == 0 then 0 else width - 1);
      assert r[..|r| - 1] == p;
      ZeroPadValue(n / 10, if width == 0 then 0 else width - 1);
      DivTen(n, width);
    }
  }

  /** A number with at most `width` digits is padded to exactly `width` characters. */
  lemma {:induction false} ZeroPadWidth(n: nat, width: nat)
    requires width >= 1 && n < Pow10(width)
    ensures |ZeroPad(n, width)| == width
  {
    if !(n < 10 && width <= 1) {
      DivTen(n, width);
      ZeroPadWidth(n / 10, width - 1);
    }
  }

  /** `n.to_s` for a natural number. */
  function Decimal(n: nat): (r: string)
    ensures |r| >= 1
    ensures forall i :: 0 <= i < |r| ==> IsDigit(r[i])
  {
    if n < 10 then [DigitChar(n)] else Decimal(n / 10) + [DigitChar(n % 10)]
  }

  /** `to_s` denotes the number and writes no leading zero. */
  lemma {:induction false} DecimalMeaning(n: nat)
    ensures DecimalValue(Decimal(n)) == n
    ensures |Decimal(n)| > 1 ==> Decimal(n)[0] != '0'
    ensures n >= 1 ==> Decimal(n)[0] != '0'
  {
    var r := Decimal(n);
    if n < 10 {
      assert r[..0] == [];
    } else {
      var p := Decimal(n / 10);
      assert r[..|r| - 1] == p;
      assert r[0] == p[0];
      DecimalMeaning(n / 10);
      DivTen(n, 0);
    }
  }

  // ---------------------------------------------------------------------------
  // String ordering

  /** `a < b` on Ruby strings: byte-wise lexicographic order. */
  predicate LexLess(a: string, b: string) {
    || (|a| < |b| && b[..|a|] == a)
    || (exists k :: 0 <= k < |a| && k < |b| && a[..k] == b[..k] && a[k] < b[k])
  }

  /**
   * Two strings that agree up to position `k` and differ there are ordered
   * by that one character, whatever follows.
   */
  lemma LexLessAt(a: string, b: string, k: nat)
    requires k < |a| && k < |b| && a[..k] == b[..k] && a[k] < b[k]
    ensures LexLess(a, b)
  {
  }

  /** Ordering between equal-length strings survives appending anything. */
  lemma LexLessExtend(a: string, b: string, c: string, d: string)
    requires |a| == |b| && LexLess(a, b)
    ensures LexLess(a + c, b + d)
  {
    var k :| 0 <= k < |a| && k < |b| && a[..k] == b[..k] && a[k] < b[k];
    assert (a + c)[..k] == a[..k] && (b + d)[..k] == b[..k];
    LexLessAt(a + c, b + d, k);
  }

  /** Ordering between equal-length strings survives a common prefix. */
  lemma LexLessUnderPrefix(p: string, a: string, b: string)
    requires |a| == |b| && LexLess(a, b)
    ensures LexLess(p + a, p + b)
  {
    var k :| 0 <= k < |a| && k < |b| && a[..k] == b[..k] && a[k] < b[k];
    assert (p + a)[..|p| + k] == p + a[..k];
    assert (p + b)[..|p| + k] == p + b[..k];
    LexLessAt(p + a, p + b, |p| + k);
  }

  lemma DigitsOfSmaller(a: nat, b: nat, width: nat)
    requires width >= 2 && a < b < Pow10(width)
    ensures a / 10 < Pow10(width - 1) && b / 10 < Pow10(width - 1)
    ensures a / 10 <= b / 10
    ensures a / 10 == b / 10 ==> a % 10 < b % 10
  {
    assert Pow10(width) == 10 * Pow10(width - 1);
  }

  /** Zero-padded renderings of the same width sort as the numbers do. */
  lemma {:induction false} ZeroPadOrdered(a: nat, b: nat, width: nat)
    requires width >= 1 && a < b < Pow10(width)
    ensures |ZeroPad(a, width)| == width == |ZeroPad(b, width)|
    ensures LexLess(ZeroPad(a, width), ZeroPad(b, width))
  {
    ZeroPadWidth(a, width);
    ZeroPadWidth(b, width);
    var za, zb := ZeroPad(a, width), ZeroPad(b, width);
    if width == 1 {
      LexLessAt(za, zb, 0);
    } else {
      DigitsOfSmaller(a, b, width);
      var pa, pb := ZeroPad(a / 10, width - 1), ZeroPad(b / 10, width - 1);
      var da, db := [DigitChar(a % 10)], [DigitChar(b % 10)];
      assert za == pa + da && zb == pb + db;
      if a / 10 < b / 10 {
        ZeroPadOrdered(a / 10, b / 10, width - 1);
        LexLessExtend(pa, pb, da, db);
      } else {
        LexLessAt(da, db, 0);
        LexLessUnderPrefix(pa, da, db);
      }
    }
  }
}
