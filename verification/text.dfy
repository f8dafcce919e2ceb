/** The few Python string operations the server uses: `str()` of an integer,
    `sep.join(parts)`, `s.split(c)` and the `in` test between two strings. */
module Text {

  function DigitChar(d: nat): char
    requires d < 10
  {
    "0123456789"[d]
  }

  /** Decimal text of a natural number, most significant digit first. */
  function NatText(n: nat): (s: string)
    ensures |s| >= 1
    ensures forall i :: 0 <= i < |s| ==> '0' <= s[i] <= '9'
    ensures n < 10 <==> |s| == 1
  {
    if n < 10 then [DigitChar(n)] else NatText(n / 10) + [DigitChar(n % 10)]
  }

  /** `str(i)` for a Python int. */
  function IntText(i: int): (s: string)
    ensures |s| >= 1
    ensures s[0] == '-' <==> i < 0
  {
    if i < 0 then "-" + NatText(-i) else NatText(i)
  }

  /** `prefix` begins `s`. */
  predicate StartsWith(s: string, prefix: string)
  {
    prefix <= s
  }

  /** `sub in s` for two Python strings: `sub` occurs somewhere in `s`. */
  predicate Occurs(sub: string, s: string)
    decreases |s|
  {
    sub <= s || (|s| > 0 && Occurs(sub, s[1..]))
  }

  /** `sep.join(parts)`. */
  function Join(sep: string, parts: seq<string>): string
  {
    if |parts| == 0 then ""
    else if |parts| == 1 then parts[0]
    else parts[0] + sep + Join(sep, parts[1..])
  }

  /** Concatenation of all parts, in order (`"".join(parts)` and repeated `+=`). */
  /** Regrouping a concatenation of three runs, for proofs that build text
      or entry lists piece by piece. */
  lemma AppendAssoc<T>(a: seq<T>, b: seq<T>, c: seq<T>)
    ensures a + b + c == a + (b + c)
  {
  }

  function Concat(parts: seq<string>): string
  {
    if parts == [] then "" else Concat(parts[..|parts| - 1]) + parts[|parts| - 1]
  }

  /** `s.split(sep)` for a one-character separator: every piece between two
      separators, empty pieces included, so there is always at least one. */
  function Split(s: string, sep: char): (pieces: seq<string>)
    ensures |pieces| >= 1
    ensures forall i :: 0 <= i < |pieces| ==> sep !in pieces[i]
    decreases |s|
  {
    if s == [] then [""]
    else
      var rest := Split(s[1..], sep);
      if s[0] == sep then [""] + rest else [[s[0]] + rest[0]] + rest[1..]
  }

  /** Joining the pieces of a split with the separator gives the string back. */
  lemma {:induction false} JoinSplit(s: string, sep: char)
    ensures Join([sep], Split(s, sep)) == s
    decreases |s|
  {
    if s != [] {
      var rest := Split(s[1..], sep);
      JoinSplit(s[1..], sep);
      if s[0] == sep {
        assert Split(s, sep) == [""] + rest;
        assert ([""] + rest)[1..] == rest;
        assert Join([sep], [""] + rest) == "" + [sep] + Join([sep], rest);
        assert s == [s[0]] + s[1..];
      } else {
        var pieces := [[s[0]] + rest[0]] + rest[1..];
        assert Split(s, sep) == pieces;
        assert pieces[1..] == rest[1..];
        if |rest| == 1 {
          assert Join([sep], rest) == rest[0];
          assert Join([sep], pieces) == [s[0]] + rest[0];
        } else {
          assert Join([sep], rest) == rest[0] + [sep] + Join([sep], rest[1..]);
          assert Join([sep], pieces) == [s[0]] + rest[0] + [sep] + Join([sep], rest[1..]);
        }
        assert s == [s[0]] + s[1..];
      }
    }
  }

  /** Splitting a separator-free piece followed by the separator peels that piece off. */
  lemma {:induction false} SplitPiece(a: string, b: string, sep: char)
    requires sep !in a
    ensures Split(a + [sep] + b, sep) == [a] + Split(b, sep)
    decreases |a|
  {
    var s := a + [sep] + b;
    if a == [] {
      assert s[0] == sep && s[1..] == b;
    } else {
      assert s[0] == a[0] && s[1..] == a[1..] + [sep] + b;
      SplitPiece(a[1..], b, sep);
      assert [a[0]] + a[1..] == a;
    }
  }

  /** A separator-free string splits into itself alone. */
  lemma {:induction false} SplitWhole(a: string, sep: char)
    requires sep !in a
    ensures Split(a, sep) == [a]
    decreases |a|
  {
    if a != [] {
      SplitWhole(a[1..], sep);
      assert [a[0]] + a[1..] == a;
    }
  }

  /** Splitting a join of separator-free pieces gives the pieces back. */
  lemma {:induction false} SplitJoin(parts: seq<string>, sep: char)
    requires |parts| >= 1
    requires forall i :: 0 <= i < |parts| ==> sep !in parts[i]
    ensures Split(Join([sep], parts), sep) == parts
    decreases |parts|
  {
    if |parts| == 1 {
      SplitWhole(parts[0], sep);
    } else {
      SplitJoin(parts[1..], sep);
      SplitPiece(parts[0], Join([sep], parts[1..]), sep);
      assert [parts[0]] + parts[1..] == parts;
    }
  }
}
