/** The string operations of the Go standard library that the modelled code relies on:
    the byte-wise order used by `sort.Strings` and by CouchDB's `_all_docs`, prefixes,
    `strings.SplitN(s, sep, 2)` and `strings.Join`. */
module Text {

  /** Go's `<` on strings: the order of UTF-8 bytes is the order of code points. */
  predicate Less(a: string, b: string)
    decreases |a|
  {
    |b| > 0 && (|a| == 0 || a[0] < b[0] || (a[0] == b[0] && Less(a[1..], b[1..])))
  }

  predicate AtMost(a: string, b: string) {
    a == b || Less(a, b)
  }

  lemma {:induction false} LessIrreflexive(a: string)
    ensures !Less(a, a)
    decreases |a|
  {
    if |a| > 0 {
      LessIrreflexive(a[1..]);
    }
  }

  lemma {:induction false} LessTransitive(a: string, b: string, c: string)
    requires Less(a, b) && Less(b, c)
    ensures Less(a, c)
    decreases |a|
  {
    if |a| > 0 && a[0] == b[0] && b[0] == c[0] {
      LessTransitive(a[1..], b[1..], c[1..]);
    }
  }

  lemma {:induction false} LessTotal(a: string, b: string)
    ensures a == b || Less(a, b) || Less(b, a)
    decreases |a|
  {
    if |a| > 0 && |b| > 0 && a[0] == b[0] {
      LessTotal(a[1..], b[1..]);
      assert a == [a[0]] + a[1..] && b == [b[0]] + b[1..];
    }
  }

  lemma LessAsymmetric(a: string, b: string)
    requires Less(a, b)
    ensures !Less(b, a) && a != b
  {
    LessIrreflexive(a);
    if Less(b, a) {
      LessTransitive(a, b, a);
    }
  }

  predicate HasPrefix(s: string, p: string) {
    |p| <= |s| && s[..|p|] == p
  }

  /** Strings sharing a prefix are contiguous in the order. */
  lemma {:induction false} PrefixIsContiguous(p: string, a: string, b: string, c: string)
    requires HasPrefix(a, p) && HasPrefix(c, p)
    requires Less(a, b) && Less(b, c)
    ensures HasPrefix(b, p)
    decreases |p|
  {
    if |p| > 0 {
      assert a[0] == p[0] && c[0] == p[0];
      assert a[1..][..|p| - 1] == p[1..] && c[1..][..|p| - 1] == p[1..];
      PrefixIsContiguous(p[1..], a[1..], b[1..], c[1..]);
      assert b[..|p|] == [b[0]] + b[1..][..|p| - 1];
      assert p == [p[0]] + p[1..];
    }
  }

  /** Strictly increasing, hence without duplicates. */
  predicate Increasing(ids: seq<string>) {
    forall i, j :: 0 <= i < j < |ids| ==> Less(ids[i], ids[j])
  }

  /** `strings.SplitN(s, sep, 2)`. */
  function SplitN2(s: string, sep: char): (parts: seq<string>)
    ensures 1 <= |parts| <= 2
    ensures |parts| == 1 <==> sep !in s
    ensures |parts| == 1 ==> parts == [s]
    ensures |parts| == 2 ==> sep !in parts[0] && s == parts[0] + [sep] + parts[1]
  {
    if s == "" then [s]
    else if s[0] == sep then
      assert s == [] + [sep] + s[1..];
      ["", s[1..]]
    else
      var rest := SplitN2(s[1..], sep);
      assert s == [s[0]] + s[1..];
      if |rest| == 1 then [s] else
      assert s == ([s[0]] + rest[0]) + [sep] + rest[1];
      [[s[0]] + rest[0], rest[1]]
  }

  /** Cutting at the first separator undoes gluing with it. */
  lemma {:induction false} SplitOfGlued(a: string, sep: char, b: string)
    requires sep !in a
    ensures SplitN2(a + [sep] + b, sep) == [a, b]
    decreases |a|
  {
    var s := a + [sep] + b;
    if a == "" {
      assert s[1..] == b;
    } else {
      assert s[1..] == a[1..] + [sep] + b;
      SplitOfGlued(a[1..], sep, b);
      assert [s[0]] + a[1..] == a;
      assert sep in s;
    }
  }

  /** `strings.Join(parts, sep)`. */
  function Join(parts: seq<string>, sep: string): string {
    if |parts| == 0 then ""
    else if |parts| == 1 then parts[0]
    else parts[0] + sep + Join(parts[1..], sep)
  }

  lemma {:induction false} JoinSnoc(parts: seq<string>, last: string, sep: string)
    requires |parts| > 0
    ensures Join(parts + [last], sep) == Join(parts, sep) + sep + last
    decreases |parts|
  {
    var all := parts + [last];
    assert all[1..] == parts[1..] + [last];
    if |parts| == 1 {
      assert all[1..] == [last];
    } else {
      JoinSnoc(parts[1..], last, sep);
    }
  }

  /** `strings.Split(s, sep)`. */
  function Split(s: string, sep: char): (parts: seq<string>)
    decreases |s|
  {
    var parts := SplitN2(s, sep);
    if |parts| == 1 then parts else [parts[0]] + Split(parts[1], sep)
  }

  lemma {:induction false} SplitOfJoin(parts: seq<string>, sep: char)
    requires parts != [] && forall i :: 0 <= i < |parts| ==> sep !in parts[i]
    ensures Split(Join(parts, [sep]), sep) == parts
    decreases |parts|
  {
    if |parts| > 1 {
      SplitOfJoin(parts[1..], sep);
      SplitOfGlued(parts[0], sep, Join(parts[1..], [sep]));
      assert parts == [parts[0]] + parts[1..];
    }
  }

  /** `unicode.IsSpace`. */
  predicate IsSpace(c: char) {
    || '\t' <= c <= '\r' || c == ' ' || c == '\U{0085}' || c == '\U{00A0}' || c == '\U{1680}'
    || '\U{2000}' <= c <= '\U{200A}' || c == '\U{2028}' || c == '\U{2029}' || c == '\U{202F}'
    || c == '\U{205F}' || c == '\U{3000}'
  }

  function WordLength(s: string): (n: nat)
    ensures n <= |s| && (forall i :: 0 <= i < n ==> !IsSpace(s[i])) && (n < |s| ==> IsSpace(s[n]))
  {
    if s == "" || IsSpace(s[0]) then 0 else 1 + WordLength(s[1..])
  }

  /** `strings.Fields(s)`. */
  function Fields(s: string): seq<string>
    decreases |s|
  {
    if s == "" then [] else if IsSpace(s[0]) then Fields(s[1..]) else [s[..WordLength(s)]] + Fields(s[WordLength(s)..])
  }

  predicate IsWord(w: string) {
    w != "" && forall i :: 0 <= i < |w| ==> !IsSpace(w[i])
  }

  /** Spaces around and between the words do not matter, however many there are. */
  lemma {:induction false} FieldsOfWord(spaces: string, w: string, rest: string)
    requires forall i :: 0 <= i < |spaces| ==> IsSpace(spaces[i])
    requires IsWord(w) && (rest == "" || IsSpace(rest[0]))
    ensures Fields(spaces + w + rest) == [w] + Fields(rest) && Fields(spaces) == []
    decreases |spaces|
  {
    var s := spaces + w + rest;
    if spaces == "" {
      assert forall i :: 0 <= i < |w| ==> s[i] == w[i];
      assert |w| < |s| ==> s[|w|] == rest[0];
      assert WordLength(s) == |w|;
      assert s[..|w|] == w && s[|w|..] == rest;
    } else {
      FieldsOfWord(spaces[1..], w, rest);
      assert s[0] == spaces[0] && s[1..] == spaces[1..] + w + rest;
    }
  }

  lemma {:induction false} FieldsOfJoin(words: seq<string>)
    requires forall i :: 0 <= i < |words| ==> IsWord(words[i])
    ensures Fields(Join(words, " ")) == words
    decreases |words|
  {
    if |words| > 0 {
      var s, w := Join(words, " "), words[0];
      assert s[..|w|] == w && IsWord(w);
      assert forall i :: 0 <= i < |w| ==> s[i] == w[i];
      assert IsSpace(' ');
      if |words| == 1 {
        assert WordLength(s) == |w| && s[|w|..] == "";
      } else {
        var rest := Join(words[1..], " ");
        assert s[|w|..] == " " + rest && (" " + rest)[1..] == rest;
        assert s[|w|] == ' ' && WordLength(s) == |w|;
        FieldsOfJoin(words[1..]);
        assert words == [w] + words[1..];
      }
    }
  }
}
