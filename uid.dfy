/**
 * Uid generation (`generate_uid`): a timestamp, a random number below 1000
 * and the sanitised file name, separated by '_'. The clock reading and the
 * random draw are parameters.
 */
module Uid {
  import opened RubyText

  /** A local clock reading, as `Time.now` gives it. */
  datatype Time = Time(year: nat, month: nat, day: nat, hour: nat, minute: nat, second: nat)

  /** The ranges `Time` keeps its fields in (a leap second included). */
  predicate ValidTime(t: Time) {
    && t.year < 10000
    && 1 <= t.month <= 12 && 1 <= t.day <= 31
    && t.hour < 24 && t.minute < 60 && t.second <= 60
  }

  /** `t1` is strictly earlier than `t2`. */
  predicate Before(t1: Time, t2: Time) {
    || t1.year < t2.year
    || (t1.year == t2.year && t1.month < t2.month)
    || (t1.year == t2.year && t1.month == t2.month && t1.day < t2.day)
    || (t1.year == t2.year && t1.month == t2.month && t1.day == t2.day && t1.hour < t2.hour)
    || (t1.year == t2.year && t1.month == t2.month && t1.day == t2.day && t1.hour == t2.hour
        && t1.minute < t2.minute)
    || (t1.year == t2.year && t1.month == t2.month && t1.day == t2.day && t1.hour == t2.hour
        && t1.minute == t2.minute && t1.second < t2.second)
  }

  /** `t.strftime('%Y_%m_%d_%H_%M_%S')` */
  function Stamp(t: Time): string {
    ZeroPad(t.year, 4) + "_" + ZeroPad(t.month, 2) + "_" + ZeroPad(t.day, 2) + "_"
      + ZeroPad(t.hour, 2) + "_" + ZeroPad(t.minute, 2) + "_" + ZeroPad(t.second, 2)
  }

  // ---------------------------------------------------------------------------
  // Sanitising the name: `name.gsub(/[^\w.]+/, '_')`

  /** The characters the regex keeps: ASCII letters, digits, '_' (that is, `\w`) and '.'. */
  predicate Kept(c: char) {
    ('A' <= c <= 'Z') || ('a' <= c <= 'z') || ('0' <= c <= '9') || c == '_' || c == '.'
  }

  predicate AllKept(s: string) {
    forall i :: 0 <= i < |s| ==> Kept(s[i])
  }

  /** `s` without its leading run of characters the regex replaces. */
  function SkipRun(s: string): (r: string)
    ensures |r| <= |s| && r == s[|s| - |r|..]
    ensures r == [] || Kept(r[0])
    ensures forall i :: 0 <= i < |s| - |r| ==> !Kept(s[i])
  {
    if s != [] && !Kept(s[0]) then
      var r := SkipRun(s[1..]);
      assert s[1..][|s| - 1 - |r|..] == s[|s| - |r|..];
      assert forall i :: 1 <= i < |s| - |r| ==> s[i] == s[1..][i - 1];
      r
    else
      s
  }

  /** A non-empty name that starts with a replaced character loses its whole first run. */
  lemma SkipRunShortens(s: string)
    requires s != [] && !Kept(s[0])
    ensures |SkipRun(s)| < |s|
  {
    assert s[|s| - |s|..] == s;
  }

  lemma AllKeptConcat(a: string, b: string)
    requires AllKept(a) && AllKept(b)
    ensures AllKept(a + b)
  {
    forall i | 0 <= i < |a + b| ensures Kept((a + b)[i]) {
      if i < |a| { assert (a + b)[i] == a[i]; } else { assert (a + b)[i] == b[i - |a|]; }
    }
  }

  lemma DigitsKept(s: string)
    requires forall i :: 0 <= i < |s| ==> IsDigit(s[i])
    ensures AllKept(s)
  {
  }

  /**
   * Every maximal run of characters outside `[A-Za-z0-9_.]` becomes a single
   * '_'; every other character is kept in place.
   */
  function Sanitize(s: string): (r: string)
    ensures AllKept(r)
    ensures |r| <= |s|
    decreases |s|
  {
    if s == [] then []
    else if Kept(s[0]) then [s[0]] + Sanitize(s[1..])
    else
      SkipRunShortens(s);
      "_" + Sanitize(SkipRun(s))
  }

  /** A stamp is made of digits and '_' only. */
  lemma StampKept(t: Time)
    ensures AllKept(Stamp(t))
  {
    var y, mo, d := ZeroPad(t.year, 4), ZeroPad(t.month, 2), ZeroPad(t.day, 2);
    var h, mi, sec := ZeroPad(t.hour, 2), ZeroPad(t.minute, 2), ZeroPad(t.second, 2);
    DigitsKept(y); DigitsKept(mo); DigitsKept(d); DigitsKept(h); DigitsKept(mi); DigitsKept(sec);
    AllKeptConcat(y, "_");
    AllKeptConcat(y + "_", mo);
    AllKeptConcat(y + "_" + mo, "_");
    AllKeptConcat(y + "_" + mo + "_", d);
    AllKeptConcat(y + "_" + mo + "_" + d, "_");
    AllKeptConcat(y + "_" + mo + "_" + d + "_", h);
    AllKeptConcat(y + "_" + mo + "_" + d + "_" + h, "_");
    AllKeptConcat(y + "_" + mo + "_" + d + "_" + h + "_", mi);
    AllKeptConcat(y + "_" + mo + "_" + d + "_" + h + "_" + mi, "_");
    AllKeptConcat(y + "_" + mo + "_" + d + "_" + h + "_" + mi + "_", sec);
  }

  /** `generate_uid(name)` at clock reading `now` with random draw `rnd`. */
  function GenerateUid(now: Time, rnd: nat, name: string): (uid: string)
    ensures StartsWith(uid, Stamp(now) + "_" + Decimal(rnd) + "_")
    ensures EndsWith(uid, Sanitize(name))
    ensures AllKept(uid) && NoSlash(uid)
  {
    var prefix := Stamp(now) + "_" + Decimal(rnd) + "_";
    StampKept(now);
    DigitsKept(Decimal(rnd));
    AllKeptConcat(Stamp(now), "_");
    AllKeptConcat(Stamp(now) + "_", Decimal(rnd));
    AllKeptConcat(Stamp(now) + "_" + Decimal(rnd), "_");
    AllKeptConcat(prefix, Sanitize(name));
    var uid := prefix + Sanitize(name);
    assert uid[..|prefix|] == prefix;
    assert uid[|uid| - |Sanitize(name)|..] == Sanitize(name);
    uid
  }

  // ---------------------------------------------------------------------------
  // Properties of the sanitiser

  /** A name made only of kept characters is left verbatim. */
  lemma {:induction false} SanitizeKeepsCleanName(s: string)
    requires AllKept(s)
    ensures Sanitize(s) == s
  {
    if s != [] {
      SanitizeKeepsCleanName(s[1..]);
      assert [s[0]] + s[1..] == s;
    }
  }

  /** Skipping a run stops exactly at the first kept character after it. */
  lemma {:induction false} SkipRunOfRun(bad: string, rest: string)
    requires forall i :: 0 <= i < |bad| ==> !Kept(bad[i])
    requires rest == [] || Kept(rest[0])
    ensures SkipRun(bad + rest) == rest
  {
    if bad != [] {
      assert (bad + rest)[1..] == bad[1..] + rest;
      SkipRunOfRun(bad[1..], rest);
    }
  }

  /** A prefix of kept characters comes through verbatim at the front. */
  lemma {:induction false} SanitizeKeepsPrefix(kept: string, t: string)
    requires AllKept(kept)
    ensures Sanitize(kept + t) == kept + Sanitize(t)
  {
    if kept != [] {
      var s := kept + t;
      assert s[0] == kept[0];
      assert s[1..] == kept[1..] + t;
      SanitizeKeptFirst(s);
      SanitizeKeepsPrefix(kept[1..], t);
      assert [kept[0]] + kept[1..] == kept;
      ConcatAssociative([kept[0]], kept[1..], Sanitize(t));
    } else {
      assert kept + t == t;
    }
  }

  /**
   * A kept prefix survives verbatim and the run after it collapses to
   * exactly one '_', however long it is.
   */
  lemma SanitizeCollapsesRun(kept: string, bad: string, rest: string)
    requires AllKept(kept)
    requires bad != [] && forall i :: 0 <= i < |bad| ==> !Kept(bad[i])
    requires rest == [] || Kept(rest[0])
    ensures Sanitize(kept + bad + rest) == kept + "_" + Sanitize(rest)
  {
    ConcatAssociative(kept, bad, rest);
    SanitizeKeepsPrefix(kept, bad + rest);
    SanitizeRunFirst(bad, rest);
    ConcatAssociative(kept, "_", Sanitize(rest));
  }

  lemma SanitizeKeptFirst(s: string)
    requires s != [] && Kept(s[0])
    ensures Sanitize(s) == [s[0]] + Sanitize(s[1..])
  {
  }

  lemma SanitizeRunFirst(bad: string, rest: string)
    requires bad != [] && forall i :: 0 <= i < |bad| ==> !Kept(bad[i])
    requires rest == [] || Kept(rest[0])
    ensures Sanitize(bad + rest) == "_" + Sanitize(rest)
  {
    var s := bad + rest;
    assert s[0] == bad[0];
    SkipRunOfRun(bad, rest);
  }

  lemma {:induction false} SkipRunAppend(p: string, e: string)
    requires e == [] || Kept(e[0])
    ensures SkipRun(p + e) == SkipRun(p) + e
  {
    if p != [] && !Kept(p[0]) {
      assert (p + e)[1..] == p[1..] + e;
      SkipRunAppend(p[1..], e);
    }
  }

  /**
   * A suffix of kept characters, such as a file extension, comes through
   * verbatim at the end of the sanitised name.
   */
  lemma {:induction false} SanitizeKeepsSuffix(p: string, e: string)
    requires AllKept(e)
    ensures Sanitize(p + e) == Sanitize(p) + e
    decreases |p|
  {
    if p == [] {
      assert p + e == e;
      SanitizeKeepsCleanName(e);
    } else if Kept(p[0]) {
      assert (p + e)[1..] == p[1..] + e;
      SanitizeKeepsSuffix(p[1..], e);
    } else {
      SkipRunAppend(p, e);
      SkipRunShortens(p);
      SanitizeKeepsSuffix(SkipRun(p), e);
    }
  }

  /** Sanitising twice changes nothing more. */
  lemma SanitizeIdempotent(s: string)
    ensures Sanitize(Sanitize(s)) == Sanitize(s)
  {
    SanitizeKeepsCleanName(Sanitize(s));
  }

  // ---------------------------------------------------------------------------
  // Ordering by creation time

  lemma StampShape(t: Time)
    requires ValidTime(t)
    ensures |ZeroPad(t.year, 4)| == 4 && |ZeroPad(t.month, 2)| == 2 && |ZeroPad(t.day, 2)| == 2
    ensures |ZeroPad(t.hour, 2)| == 2 && |ZeroPad(t.minute, 2)| == 2 && |ZeroPad(t.second, 2)| == 2
    ensures |Stamp(t)| == 19
  {
    assert Pow10(2) == 100 && Pow10(4) == 10000;
    ZeroPadWidth(t.year, 4);
    ZeroPadWidth(t.month, 2);
    ZeroPadWidth(t.day, 2);
    ZeroPadWidth(t.hour, 2);
    ZeroPadWidth(t.minute, 2);
    ZeroPadWidth(t.second, 2);
  }

  /** Appending a separator and one more field of equal widths keeps two prefixes ordered. */
  lemma NextField(a: string, b: string, x: string, y: string)
    requires |a| == |b| && LexLess(a, b) && |x| == |y|
    ensures |a + "_" + x| == |b + "_" + y| && LexLess(a + "_" + x, b + "_" + y)
  {
    LexLessExtend(a, b, "_" + x, "_" + y);
    ConcatAssociative(a, "_", x);
    ConcatAssociative(b, "_", y);
  }

  /**
   * Stamps of valid clock readings sort as the readings do: an earlier
   * second gives a smaller stamp.
   */
  lemma StampOrderedByTime(t1: Time, t2: Time)
    requires ValidTime(t1) && ValidTime(t2) && Before(t1, t2)
    ensures LexLess(Stamp(t1), Stamp(t2))
  {
    StampShape(t1);
    StampShape(t2);
    assert Pow10(2) == 100 && Pow10(4) == 10000;
    var y1, y2 := ZeroPad(t1.year, 4), ZeroPad(t2.year, 4);
    var mo1, mo2 := ZeroPad(t1.month, 2), ZeroPad(t2.month, 2);
    var d1, d2 := ZeroPad(t1.day, 2), ZeroPad(t2.day, 2);
    var h1, h2 := ZeroPad(t1.hour, 2), ZeroPad(t2.hour, 2);
    var mi1, mi2 := ZeroPad(t1.minute, 2), ZeroPad(t2.minute, 2);
    var s1, s2 := ZeroPad(t1.second, 2), ZeroPad(t2.second, 2);
    if t1.year < t2.year {
      ZeroPadOrdered(t1.year, t2.year, 4);
      NextField(y1, y2, mo1, mo2);
    } else if t1.month < t2.month {
      ZeroPadOrdered(t1.month, t2.month, 2);
      LexLessUnderPrefix(y1 + "_", mo1, mo2);
    }
    if t1.year < t2.year || t1.month < t2.month {
      NextField(y1 + "_" + mo1, y2 + "_" + mo2, d1, d2);
    } else if t1.day < t2.day {
      ZeroPadOrdered(t1.day, t2.day, 2);
      LexLessUnderPrefix(y1 + "_" + mo1 + "_", d1, d2);
    }
    if t1.year < t2.year || t1.month < t2.month || t1.day < t2.day {
      NextField(y1 + "_" + mo1 + "_" + d1, y2 + "_" + mo2 + "_" + d2, h1, h2);
    } else if t1.hour < t2.hour {
      ZeroPadOrdered(t1.hour, t2.hour, 2);
      LexLessUnderPrefix(y1 + "_" + mo1 + "_" + d1 + "_", h1, h2);
    }
    var p1, p2 := y1 + "_" + mo1 + "_" + d1 + "_" + h1, y2 + "_" + mo2 + "_" + d2 + "_" + h2;
    if t1.year < t2.year || t1.month < t2.month || t1.day < t2.day || t1.hour < t2.hour {
      NextField(p1, p2, mi1, mi2);
    } else if t1.minute < t2.minute {
      ZeroPadOrdered(t1.minute, t2.minute, 2);
      LexLessUnderPrefix(p1 + "_", mi1, mi2);
    }
    if t1.year < t2.year || t1.month < t2.month || t1.day < t2.day || t1.hour < t2.hour
      || t1.minute < t2.minute {
      NextField(p1 + "_" + mi1, p2 + "_" + mi2, s1, s2);
    } else {
      ZeroPadOrdered(t1.second, t2.second, 2);
      LexLessUnderPrefix(p1 + "_" + mi1 + "_", s1, s2);
    }
  }

  /**
   * Generated uids sort by creation time: a uid generated in an earlier
   * second is smaller (`String#<`) whatever the random draws and names.
   */
  lemma UidOrderedByTime(t1: Time, r1: nat, n1: string, t2: Time, r2: nat, n2: string)
    requires ValidTime(t1) && ValidTime(t2) && Before(t1, t2)
    ensures LexLess(GenerateUid(t1, r1, n1), GenerateUid(t2, r2, n2))
  {
    StampShape(t1);
    StampShape(t2);
    StampOrderedByTime(t1, t2);
    var a, b := Stamp(t1), Stamp(t2);
    var u1, u2 := GenerateUid(t1, r1, n1), GenerateUid(t2, r2, n2);
    assert u1 == a + u1[19..] by { assert u1[..19] == a; }
    assert u2 == b + u2[19..] by { assert u2[..19] == b; }
    LexLessExtend(a, b, u1[19..], u2[19..]);
  }
}
