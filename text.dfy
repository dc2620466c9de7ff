/** String operations the storefront uses: ASCII `toLowerCase`, `startsWith`,
    `includes`, `split` on one character, the whitespace-run slug and decimal
    rendering of a natural number. */
module Text {

  function LowerChar(c: char): char
  {
    if 'A' <= c <= 'Z' then (c as int - 'A' as int + 'a' as int) as char else c
  }

  /** `s.toLowerCase()` on ASCII letters. */
  function Lower(s: string): (r: string)
    ensures |r| == |s|
    ensures forall i :: 0 <= i < |s| ==> r[i] == LowerChar(s[i])
    ensures forall i :: 0 <= i < |r| ==> !('A' <= r[i] <= 'Z')
  {
    seq(|s|, i requires 0 <= i < |s| => LowerChar(s[i]))
  }

  lemma {:induction false} LowerIdempotent(s: string)
    ensures Lower(Lower(s)) == Lower(s)
  {
    var l := Lower(s);
    forall i | 0 <= i < |l| ensures Lower(l)[i] == l[i] {
      assert !('A' <= l[i] <= 'Z');
    }
  }

  /** `s.startsWith(p)`. */
  predicate StartsWith(s: string, p: string)
  {
    |p| <= |s| && s[..|p|] == p
  }

  /** `hay.includes(needle)`, scanning from the left. */
  predicate Includes(hay: string, needle: string)
    decreases |hay|
  {
    StartsWith(hay, needle) || (|hay| > 0 && Includes(hay[1..], needle))
  }

  /** `includes` holds exactly when `needle` occurs at some offset of `hay`. */
  lemma {:induction false} IncludesAt(hay: string, needle: string)
    ensures Includes(hay, needle) <==> exists i :: 0 <= i <= |hay| && StartsWith(hay[i..], needle)
    decreases |hay|
  {
    if |hay| > 0 {
      IncludesAt(hay[1..], needle);
      if Includes(hay[1..], needle) {
        var i :| 0 <= i <= |hay[1..]| && StartsWith(hay[1..][i..], needle);
        assert hay[1..][i..] == hay[i + 1..];
      }
      forall i | 1 <= i <= |hay| && StartsWith(hay[i..], needle)
        ensures Includes(hay[1..], needle)
      {
        assert hay[1..][i - 1..] == hay[i..];
      }
      assert hay[0..] == hay;
    } else {
      assert hay[0..] == hay;
    }
  }

  /** The empty string is found in every string (an empty search keeps everything). */
  lemma EmptyIncluded(hay: string)
    ensures Includes(hay, "")
  {
    assert hay[..0] == "";
  }

  /** Case-insensitive substring test: `name.toLowerCase().includes(query.toLowerCase())`. */
  predicate MatchesQuery(name: string, query: string)
  {
    Includes(Lower(name), Lower(query))
  }

  lemma EmptyQueryMatches(name: string)
    ensures MatchesQuery(name, "")
  {
    EmptyIncluded(Lower(name));
  }

  /** A name always matches itself, whatever its capitalisation. */
  lemma {:induction false} NameMatchesItself(name: string)
    ensures MatchesQuery(name, name)
  {
    assert Lower(name)[..|Lower(name)|] == Lower(name);
  }

  // ---------------------------------------------------------------------
  // split on one character

  /** `s.split(sep)` for a one-character separator. */
  function Split(s: string, sep: char): (r: seq<string>)
    ensures |r| >= 1
    ensures forall i :: 0 <= i < |r| ==> sep !in r[i]
    decreases |s|
  {
    if |s| == 0 then [""]
    else
      var t := Split(s[1..], sep);
      if s[0] == sep then [""] + t
      else [[s[0]] + t[0]] + t[1..]
  }

  /** The pieces glued back with the separator. */
  function Join(parts: seq<string>, sep: char): string
    decreases |parts|
  {
    if |parts| == 0 then ""
    else if |parts| == 1 then parts[0]
    else parts[0] + [sep] + Join(parts[1..], sep)
  }

  lemma {:induction false} JoinSplit(s: string, sep: char)
    ensures Join(Split(s, sep), sep) == s
    decreases |s|
  {
    if |s| > 0 {
      var t := Split(s[1..], sep);
      JoinSplit(s[1..], sep);
      if s[0] == sep {
        assert Split(s, sep) == [""] + t;
        assert ([""] + t)[1..] == t;
      } else {
        var r := [[s[0]] + t[0]] + t[1..];
        assert Split(s, sep) == r;
        if |t| == 1 {
          assert Join(t, sep) == t[0];
        } else {
          assert r[1..] == t[1..];
          assert Join(t, sep) == t[0] + [sep] + Join(t[1..], sep);
        }
      }
    }
  }

  /** A separator-free string is one piece. */
  lemma {:induction false} SplitNoSep(a: string, sep: char)
    requires sep !in a
    ensures Split(a, sep) == [a]
    decreases |a|
  {
    if |a| > 0 {
      SplitNoSep(a[1..], sep);
      assert [a[0]] + a[1..] == a;
    }
  }

  /** The first separator ends the first piece. */
  lemma {:induction false} SplitCons(a: string, sep: char, b: string)
    requires sep !in a
    ensures Split(a + [sep] + b, sep) == [a] + Split(b, sep)
    decreases |a|
  {
    if |a| == 0 {
      assert (a + [sep] + b)[1..] == b;
    } else {
      assert (a + [sep] + b)[1..] == a[1..] + [sep] + b;
      SplitCons(a[1..], sep, b);
      assert [a[0]] + a[1..] == a;
    }
  }

  // ---------------------------------------------------------------------
  // slugs

  /** The characters `\s` matches in a JavaScript regular expression: the
      white space and line terminators of ECMAScript, which take in the
      Unicode space separators (category Zs) and the byte order mark. */
  predicate IsSpace(c: char)
  {
    c == '\t' || c == '\n' || c == '\U{B}' || c == '\U{C}' || c == '\r' || c == ' ' ||
    c == '\U{A0}' || c == '\U{1680}' || ('\U{2000}' <= c <= '\U{200A}') ||
    c == '\U{2028}' || c == '\U{2029}' || c == '\U{202F}' || c == '\U{205F}' ||
    c == '\U{3000}' || c == '\U{FEFF}'
  }

  function DropSpaces(s: string): (r: string)
    ensures |r| <= |s|
    ensures |r| > 0 ==> !IsSpace(r[0])
    decreases |s|
  {
    if |s| > 0 && IsSpace(s[0]) then DropSpaces(s[1..]) else s
  }

  /** `s.replace(/\s+/g, "-")`: every maximal run of whitespace becomes one hyphen. */
  function Hyphenate(s: string): (r: string)
    ensures forall i :: 0 <= i < |r| ==> !IsSpace(r[i])
    ensures |r| <= |s|
    decreases |s|
  {
    if |s| == 0 then ""
    else if IsSpace(s[0]) then "-" + Hyphenate(DropSpaces(s[1..]))
    else [s[0]] + Hyphenate(s[1..])
  }

  /** The product link: `name.toLowerCase().replace(/\s+/g, "-")`. */
  function Slug(name: string): string
  {
    Hyphenate(Lower(name))
  }

  lemma {:induction false} HyphenateNoSpace(s: string)
    requires forall i :: 0 <= i < |s| ==> !IsSpace(s[i])
    ensures Hyphenate(s) == s
    decreases |s|
  {
    if |s| > 0 {
      HyphenateNoSpace(s[1..]);
      assert [s[0]] + s[1..] == s;
    }
  }

  /** A whitespace run of any length gives one hyphen. */
  lemma {:induction false} HyphenateRun(a: string, run: string, b: string)
    requires forall i :: 0 <= i < |a| ==> !IsSpace(a[i])
    requires |run| > 0 && forall i :: 0 <= i < |run| ==> IsSpace(run[i])
    requires |b| > 0 ==> !IsSpace(b[0])
    ensures Hyphenate(a + run + b) == a + "-" + Hyphenate(b)
    decreases |a| + |run|
  {
    if |a| > 0 {
      assert (a + run + b)[1..] == a[1..] + run + b;
      HyphenateRun(a[1..], run, b);
      assert [a[0]] + a[1..] == a;
    } else {
      assert a + run + b == run + b;
      DropRun(run[1..], b);
      assert (run + b)[1..] == run[1..] + b;
    }
  }

  lemma {:induction false} DropRun(run: string, b: string)
    requires forall i :: 0 <= i < |run| ==> IsSpace(run[i])
    requires |b| > 0 ==> !IsSpace(b[0])
    ensures DropSpaces(run + b) == b
    decreases |run|
  {
    if |run| > 0 {
      assert (run + b)[1..] == run[1..] + b;
      DropRun(run[1..], b);
    } else {
      assert run + b == b;
    }
  }

  /** A slug has no whitespace and no upper-case letter, and a slug of a slug is itself. */
  lemma {:induction false} SlugIsNormal(name: string)
    ensures forall i :: 0 <= i < |Slug(name)| ==> !IsSpace(Slug(name)[i]) && !('A' <= Slug(name)[i] <= 'Z')
    ensures Slug(Slug(name)) == Slug(name)
  {
    HyphenateLowerCase(Lower(name));
    var s := Slug(name);
    LowerFixed(s);
    HyphenateNoSpace(s);
  }

  lemma {:induction false} HyphenateLowerCase(s: string)
    requires forall i :: 0 <= i < |s| ==> !('A' <= s[i] <= 'Z')
    ensures forall i :: 0 <= i < |Hyphenate(s)| ==> !('A' <= Hyphenate(s)[i] <= 'Z')
    decreases |s|
  {
    if |s| > 0 {
      if IsSpace(s[0]) {
        DropSpacesSuffix(s[1..]);
        HyphenateLowerCase(DropSpaces(s[1..]));
      } else {
        HyphenateLowerCase(s[1..]);
      }
    }
  }

  lemma {:induction false} DropSpacesSuffix(s: string)
    ensures exists k :: 0 <= k <= |s| && DropSpaces(s) == s[k..]
    decreases |s|
  {
    if |s| > 0 && IsSpace(s[0]) {
      DropSpacesSuffix(s[1..]);
      var k :| 0 <= k <= |s[1..]| && DropSpaces(s[1..]) == s[1..][k..];
      assert s[1..][k..] == s[k + 1..];
    } else {
      assert s[0..] == s;
    }
  }

  lemma LowerFixed(s: string)
    requires forall i :: 0 <= i < |s| ==> !('A' <= s[i] <= 'Z')
    ensures Lower(s) == s
  {
  }

  // ---------------------------------------------------------------------
  // decimal rendering

  function DigitChar(d: nat): char
    requires d < 10
  {
    ('0' as int + d) as char
  }

  predicate IsDigit(c: char)
  {
    '0' <= c <= '9'
  }

  /** `String(n)` for a natural number. */
  function Decimal(n: nat): (r: string)
    ensures |r| >= 1
    ensures forall i :: 0 <= i < |r| ==> IsDigit(r[i])
    decreases n
  {
    if n < 10 then [DigitChar(n)] else Decimal(n / 10) + [DigitChar(n % 10)]
  }

  /** Reading the digits back gives the number. */
  function DigitsValue(s: string): int
    decreases |s|
  {
    if |s| == 0 then 0 else 10 * DigitsValue(s[..|s| - 1]) + (s[|s| - 1] as int - '0' as int)
  }

  lemma {:induction false} DecimalRoundTrip(n: nat)
    ensures DigitsValue(Decimal(n)) == n
    decreases n
  {
    if n >= 10 {
      DecimalRoundTrip(n / 10);
      var r := Decimal(n);
      assert r[..|r| - 1] == Decimal(n / 10);
    }
  }
}
