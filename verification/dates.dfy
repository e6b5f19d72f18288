/** `convertDateFormat` of the new-format sender: a `DD/MM/YYYY` expiry date
    becomes `YYYY-MM-DD`; ISO dates and any other strings pass through. */
module DateFormat {
  import opened Json

  /** `s.split(sep)` */
  function Split(s: string, sep: char): (parts: seq<string>)
    ensures |parts| >= 1
    ensures forall i :: 0 <= i < |parts| ==> sep !in parts[i]
  {
    if |s| == 0 then [""]
    else
      var rest := Split(s[1..], sep);
      if s[0] == sep then [""] + rest
      else [[s[0]] + rest[0]] + rest[1..]
  }

  /** `parts.join(sep)`, the inverse of `Split`. */
  function Join(parts: seq<string>, sep: char): string
    requires |parts| >= 1
  {
    if |parts| == 1 then parts[0] else parts[0] + [sep] + Join(parts[1..], sep)
  }

  lemma {:induction false} SplitJoin(s: string, sep: char)
    ensures Join(Split(s, sep), sep) == s
  {
    if |s| > 0 {
      SplitJoin(s[1..], sep);
      var rest := Split(s[1..], sep);
      if s[0] == sep {
        assert Split(s, sep)[1..] == rest;
      } else {
        var parts := Split(s, sep);
        if |rest| > 1 {
          assert parts[1..] == rest[1..];
        }
      }
    }
  }

  /** A string without separators splits into itself. */
  lemma {:induction false} SplitNoSeparator(a: string, sep: char)
    requires sep !in a
    ensures Split(a, sep) == [a]
  {
    if |a| > 0 {
      SplitNoSeparator(a[1..], sep);
      assert [a[0]] + a[1..] == a;
    }
  }

  lemma {:induction false} SplitAfterField(a: string, sep: char, b: string)
    requires sep !in a
    ensures Split(a + [sep] + b, sep) == [a] + Split(b, sep)
  {
    var s := a + [sep] + b;
    if |a| == 0 {
      assert s[1..] == b;
    } else {
      assert s[1..] == a[1..] + [sep] + b;
      SplitAfterField(a[1..], sep, b);
      assert [a[0]] + a[1..] == a;
    }
  }

  /** Splitting yields one more part than there are separators. */
  lemma {:induction false} SplitCount(s: string, sep: char)
    ensures |Split(s, sep)| == multiset(s)[sep] + 1
  {
    if |s| > 0 {
      SplitCount(s[1..], sep);
      assert s == [s[0]] + s[1..];
      assert multiset(s) == multiset{s[0]} + multiset(s[1..]);
    }
  }

  /** The length of `s` as JavaScript counts it, in UTF-16 code units: a
      character outside the Basic Multilingual Plane takes two. */
  function Utf16Length(s: string): (n: nat)
    ensures |s| <= n <= 2 * |s|
  {
    if |s| == 0 then 0
    else (if s[0] as int >= 0x1_0000 then 2 else 1) + Utf16Length(s[1..])
  }

  /** `s.padStart(2, '0')`: zeros are put in front until the string is two
      UTF-16 code units long. */
  function PadStart2(s: string): (r: string)
    ensures Utf16Length(r) == if Utf16Length(s) >= 2 then Utf16Length(s) else 2
    ensures |r| >= |s| && r[|r| - |s|..] == s
    ensures forall i :: 0 <= i < |r| - |s| ==> r[i] == '0'
  {
    if Utf16Length(s) >= 2 then s
    else
      var r := seq(2 - Utf16Length(s), _ => '0') + s;
      assert Utf16Length(r) == 2 by { PaddedLength(s, r); }
      r
  }

  /** A string shorter than two code units, padded with zeros up to two. */
  lemma PaddedLength(s: string, r: string)
    requires Utf16Length(s) < 2
    requires r == seq(2 - Utf16Length(s), _ => '0') + s
    ensures Utf16Length(r) == 2
  {
    if |s| == 0 {
      assert r == "00";
    } else {
      assert |s| == 1 && s[0] as int < 0x1_0000;
      assert r == ['0', s[0]];
      assert r[1..] == s;
    }
  }

  /** One character outside the Basic Multilingual Plane is already two
      code units long, so it is not padded. */
  lemma AstralCharNotPadded(c: char)
    requires c as int >= 0x1_0000
    ensures PadStart2([c]) == [c]
  {
    assert [c][1..] == "";
  }

  predicate IsDigit(c: char) {
    '0' <= c <= '9'
  }

  /** `/^\d{4}-\d{2}-\d{2}$/` */
  predicate IsIsoDate(s: string) {
    && |s| == 10
    && IsDigit(s[0]) && IsDigit(s[1]) && IsDigit(s[2]) && IsDigit(s[3])
    && s[4] == '-'
    && IsDigit(s[5]) && IsDigit(s[6])
    && s[7] == '-'
    && IsDigit(s[8]) && IsDigit(s[9])
  }

  /** `convertDateFormat` on a string; `None` is `null`. A result other than
      the input is the day/month/year rewrite, which has no '/' and arises only
      from a non-ISO input with exactly two slashes. */
  function ConvertDateStr(s: string): (r: Option<string>)
    ensures r.None? <==> s == "" || s == "null"
    ensures r.Some? && IsIsoDate(s) ==> r.value == s
    ensures r.Some? && r.value != s ==> '/' !in r.value && '-' in r.value && !IsIsoDate(s) && multiset(s)['/'] == 2
  {
    if s == "" || s == "null" then None
    else if IsIsoDate(s) then Some(s)
    else
      var parts := Split(s, '/');
      SplitCount(s, '/');
      if |parts| == 3 then
        var out := parts[2] + "-" + PadStart2(parts[1]) + "-" + PadStart2(parts[0]);
        assert out[|parts[2]|] == '-';
        Some(out)
      else Some(s)
  }

  /** A `d/m/y` string becomes `y-mm-dd`, whatever the three fields are;
      the day and month are padded to two UTF-16 code units. */
  lemma DayMonthYear(d: string, m: string, y: string)
    requires '/' !in d && '/' !in m && '/' !in y
    ensures ConvertDateStr(d + "/" + m + "/" + y) == Some(y + "-" + PadStart2(m) + "-" + PadStart2(d))
  {
    var s := d + "/" + m + "/" + y;
    SplitThree(d, m, y);
    NotIsoWithSlash(s, |d|);
  }

  /** Splitting `d/m/y` on '/' gives the three fields. */
  lemma SplitThree(d: string, m: string, y: string)
    requires '/' !in d && '/' !in m && '/' !in y
    ensures Split(d + "/" + m + "/" + y, '/') == [d, m, y]
  {
    assert d + "/" + m + "/" + y == d + ['/'] + (m + ['/'] + y);
    SplitAfterField(d, '/', m + ['/'] + y);
    SplitAfterField(m, '/', y);
    SplitNoSeparator(y, '/');
  }

  /** A string holding a '/' is neither empty, "null" nor an ISO date. */
  lemma NotIsoWithSlash(s: string, i: nat)
    requires i < |s| && s[i] == '/'
    ensures s != "" && s != "null" && !IsIsoDate(s)
  {
    IsoDateHasNoSlash(s);
    assert s[i] in s;
    assert '/' !in "null";
  }

  lemma IsoDateHasNoSlash(s: string)
    ensures IsIsoDate(s) ==> '/' !in s
  {
    if IsIsoDate(s) {
      forall i | 0 <= i < |s|
        ensures s[i] != '/'
      {
        assert i < 10;
      }
    }
  }

  /** Every other string comes back unchanged. */
  lemma OtherStringsUnchanged(s: string)
    requires s != "" && s != "null" && !IsIsoDate(s)
    requires multiset(s)['/'] != 2
    ensures ConvertDateStr(s) == Some(s)
  {
    SplitCount(s, '/');
  }

  /** Converting twice is converting once: a rewritten date has no '/'. */
  lemma ConvertDateStrIdempotent(s: string)
    requires ConvertDateStr(s).Some?
    ensures ConvertDateStr(ConvertDateStr(s).value) == ConvertDateStr(s)
  {
    var t := ConvertDateStr(s).value;
    if t != s {
      assert t != "null" by { assert '-' !in "null"; }
      SlashFreeUnchanged(t);
    }
  }

  /** A non-empty string other than "null" without any '/' comes back unchanged. */
  lemma SlashFreeUnchanged(t: string)
    requires t != "" && t != "null" && '/' !in t
    ensures ConvertDateStr(t) == Some(t)
  {
    SplitNoSeparator(t, '/');
  }

  /** `convertDateFormat(v)` on any value: falsy values and "null" give null,
      strings are converted, and any other value throws (it has no `match`). */
  function ConvertDate(v: JsonVal): (r: Completion<JsonVal>)
    ensures r.Throws? <==> Truthy(v) && !v.JStr?
    ensures !Truthy(v) ==> r == Normal(JNull)
    ensures v.JStr? ==> r.Normal? && (r.value == JNull <==> v.s == "" || v.s == "null")
  {
    if !Truthy(v) then Normal(JNull)
    else match v
      case JStr(s) => (match ConvertDateStr(s) case None => Normal(JNull) case Some(t) => Normal(JStr(t)))
      case _ => Throws
  }

  lemma ConvertDateIdempotent(v: JsonVal)
    requires ConvertDate(v).Normal?
    ensures ConvertDate(ConvertDate(v).value) == ConvertDate(v)
  {
    if v.JStr? && ConvertDateStr(v.s).Some? {
      ConvertDateStrIdempotent(v.s);
    }
  }
}
