/** The string operations of Python 2 that the server relies on: `str.split(sep)`
    with its first and last component, `startswith`, slicing `[:n]`,
    `replace('\\n', '\n')`, and `==` between a byte `str` and a `unicode`. */
module Text {

  /** `s.split(sep)`: the maximal runs of characters between separators,
      including the empty runs at either end and between adjacent separators. */
  function Split(s: string, sep: char): (parts: seq<string>)
    ensures |parts| >= 1
    ensures forall i :: 0 <= i < |parts| ==> sep !in parts[i]
    ensures |parts| == 1 <==> sep !in s
    decreases |s|
  {
    if |s| == 0 then [""]
    else
      var rest := Split(s[1..], sep);
      if s[0] == sep then [""] + rest
      else [[s[0]] + rest[0]] + rest[1..]
  }

  /** `sep.join(parts)`. */
  function Join(parts: seq<string>, sep: char): string
    requires |parts| >= 1
    decreases |parts|
  {
    if |parts| == 1 then parts[0] else parts[0] + [sep] + Join(parts[1..], sep)
  }

  /** Joining the components of a split gives back the string. */
  lemma {:induction false} JoinSplit(s: string, sep: char)
    ensures Join(Split(s, sep), sep) == s
    decreases |s|
  {
    if |s| > 0 {
      var rest := Split(s[1..], sep);
      JoinSplit(s[1..], sep);
      if s[0] == sep {
        assert Split(s, sep)[1..] == rest;
      } else if |rest| == 1 {
        assert Join(Split(s, sep), sep) == [s[0]] + rest[0];
      } else {
        assert Split(s, sep)[1..] == rest[1..];
        assert Join(Split(s, sep), sep) == [s[0]] + rest[0] + [sep] + Join(rest[1..], sep);
      }
    }
  }

  /** A separator-free word followed by a separator splits off as one component. */
  lemma {:induction false} SplitWord(w: string, sep: char, t: string)
    requires sep !in w
    ensures Split(w + [sep] + t, sep) == [w] + Split(t, sep)
    decreases |w|
  {
    if |w| == 0 {
      assert w + [sep] + t == [sep] + t;
      assert ([sep] + t)[1..] == t;
    } else {
      SplitWord(w[1..], sep, t);
      assert (w + [sep] + t)[1..] == w[1..] + [sep] + t;
      assert [w[0]] + w[1..] == w;
    }
  }

  /** Splitting a join of separator-free components gives back the components. */
  lemma {:induction false} SplitJoin(parts: seq<string>, sep: char)
    requires |parts| >= 1
    requires forall i :: 0 <= i < |parts| ==> sep !in parts[i]
    ensures Split(Join(parts, sep), sep) == parts
    decreases |parts|
  {
    if |parts| == 1 {
      assert |Split(parts[0], sep)| == 1;
      JoinSplit(parts[0], sep);
    } else {
      SplitJoin(parts[1..], sep);
      SplitWord(parts[0], sep, Join(parts[1..], sep));
      assert [parts[0]] + parts[1..] == parts;
    }
  }

  /** `s.split(sep)[0]`. */
  function First(s: string, sep: char): string
  {
    Split(s, sep)[0]
  }

  /** `s.split(sep)[-1]`. */
  function Last(s: string, sep: char): string
  {
    var parts := Split(s, sep);
    parts[|parts| - 1]
  }

  /** The first component is the longest separator-free prefix. */
  lemma {:induction false} FirstIsLongestPrefix(s: string, sep: char)
    ensures First(s, sep) <= s
    ensures sep !in First(s, sep)
    ensures |First(s, sep)| == |s| || s[|First(s, sep)|] == sep
    decreases |s|
  {
    if |s| > 0 && s[0] != sep {
      FirstIsLongestPrefix(s[1..], sep);
      assert First(s, sep) == [s[0]] + First(s[1..], sep);
    }
  }

  /** The last component is the longest separator-free suffix. */
  lemma {:induction false} LastIsLongestSuffix(s: string, sep: char)
    ensures |Last(s, sep)| <= |s| && Last(s, sep) == s[|s| - |Last(s, sep)|..]
    ensures sep !in Last(s, sep)
    ensures |Last(s, sep)| == |s| || s[|s| - |Last(s, sep)| - 1] == sep
    decreases |s|
  {
    if |s| > 0 {
      var rest := Split(s[1..], sep);
      LastIsLongestSuffix(s[1..], sep);
      if s[0] != sep && |rest| == 1 {
        JoinSplit(s[1..], sep);
        assert Last(s, sep) == [s[0]] + s[1..];
        assert [s[0]] + s[1..] == s;
      } else {
        assert Last(s, sep) == Last(s[1..], sep);
        if s[0] != sep {
          assert sep in s[1..];
          assert |Last(s, sep)| < |s[1..]|;
        }
      }
    }
  }

  /** The positions a separator-free suffix covers hold no separator. */
  lemma SuffixFree(s: string, q: string, sep: char)
    requires |q| <= |s| && q == s[|s| - |q|..] && sep !in q
    ensures forall j :: |s| - |q| <= j < |s| ==> s[j] != sep
  {
    forall j | |s| - |q| <= j < |s|
      ensures s[j] != sep
    {
      assert s[j] == q[j - (|s| - |q|)];
    }
  }

  /** A separator-free suffix preceded by a separator (or covering the whole
      string) is the last component. */
  lemma LastUnique(s: string, sep: char, q: string)
    requires |q| <= |s| && q == s[|s| - |q|..] && sep !in q
    requires |q| == |s| || s[|s| - |q| - 1] == sep
    ensures Last(s, sep) == q
  {
    var l := Last(s, sep);
    LastIsLongestSuffix(s, sep);
    SuffixFree(s, q, sep);
    SuffixFree(s, l, sep);
  }

  /** `s.split('.')[-1] == name` exactly when `s` is `name` or ends with `'.' + name`,
      for a dot-free `name`. */
  lemma LastComponentIs(s: string, name: string)
    requires '.' !in name
    ensures Last(s, '.') == name <==> (s == name || (|s| > |name| && s[|s| - |name| - 1..] == "." + name))
  {
    LastIsLongestSuffix(s, '.');
    if Last(s, '.') == name && s != name {
      assert |name| < |s|;
      assert s[|s| - |name| - 1..] == [s[|s| - |name| - 1]] + s[|s| - |name|..];
    }
    if s == name {
      LastUnique(s, '.', name);
    } else if |s| > |name| && s[|s| - |name| - 1..] == "." + name {
      assert s[|s| - |name|..] == (s[|s| - |name| - 1..])[1..];
      LastUnique(s, '.', name);
    }
  }

  predicate StartsWith(s: string, prefix: string)
  {
    prefix <= s
  }

  /** `s[:n]` for a non-negative `n`: Python clips the slice at the end of the string. */
  function Take(s: string, n: nat): (t: string)
    ensures |t| == if |s| < n then |s| else n
    ensures t <= s
  {
    if |s| < n then s else s[..n]
  }

  /** True when the string holds a backslash immediately followed by `n`. */
  predicate HasEscapedNewline(s: string)
  {
    exists i :: 0 <= i < |s| - 1 && s[i] == '\\' && s[i + 1] == 'n'
  }

  /** `s.replace('\\n', '\n')`: every two-character sequence backslash, `n`,
      found scanning from the left without overlap, becomes a newline. */
  function Unescape(s: string): string
    decreases |s|
  {
    if |s| < 2 then s
    else if s[0] == '\\' && s[1] == 'n' then "\n" + Unescape(s[2..])
    else [s[0]] + Unescape(s[1..])
  }

  /** The first character of the result of a replacement. */
  lemma UnescapeHead(s: string)
    requires |s| > 0
    ensures |Unescape(s)| > 0
    ensures Unescape(s)[0] == if |s| >= 2 && s[0] == '\\' && s[1] == 'n' then '\n' else s[0]
  {
  }

  /** No escaped newline survives the replacement. */
  lemma {:induction false} UnescapeRemovesAll(s: string)
    ensures !HasEscapedNewline(Unescape(s))
    decreases |s|
  {
    if |s| >= 2 {
      var u := Unescape(s);
      if s[0] == '\\' && s[1] == 'n' {
        UnescapeRemovesAll(s[2..]);
        assert u == "\n" + Unescape(s[2..]);
        forall i | 0 <= i < |u| - 1 && u[i] == '\\'
          ensures u[i + 1] != 'n'
        {
          assert i > 0;
          assert u[i] == Unescape(s[2..])[i - 1];
        }
      } else {
        UnescapeRemovesAll(s[1..]);
        assert u == [s[0]] + Unescape(s[1..]);
        UnescapeHead(s[1..]);
        forall i | 0 <= i < |u| - 1 && u[i] == '\\'
          ensures u[i + 1] != 'n'
        {
          if i > 0 {
            assert u[i] == Unescape(s[1..])[i - 1];
          }
        }
      }
    }
  }

  /** A string without escaped newlines is left as it is. */
  lemma {:induction false} UnescapeIdentity(s: string)
    requires !HasEscapedNewline(s)
    ensures Unescape(s) == s
    decreases |s|
  {
    if |s| >= 2 {
      assert !(s[0] == '\\' && s[1] == 'n');
      assert !HasEscapedNewline(s[1..]) by {
        forall i | 0 <= i < |s[1..]| - 1
          ensures !(s[1..][i] == '\\' && s[1..][i + 1] == 'n')
        {
          assert s[1..][i] == s[i + 1] && s[1..][i + 1] == s[i + 2];
        }
      }
      UnescapeIdentity(s[1..]);
      assert [s[0]] + s[1..] == s;
    }
  }

  /** Replacing twice is the same as replacing once. */
  lemma UnescapeIdempotent(s: string)
    ensures Unescape(Unescape(s)) == Unescape(s)
  {
    UnescapeRemovesAll(s);
    UnescapeIdentity(Unescape(s));
  }

  /** Every character is below 128. A character of 128 or above stands for the
      bytes of its UTF-8 encoding, none of which is ASCII. */
  predicate IsAscii(s: string)
  {
    forall i :: 0 <= i < |s| ==> s[i] < 128 as char
  }

  /** Python 2's `==` between a byte `str` and a `unicode` string: the bytes are
      decoded as ASCII first; when one is not ASCII the decoding fails, Python
      warns, and the two compare unequal. */
  function StrEqualsUnicode(bytes: string, text: string): (r: bool)
    ensures r <==> IsAscii(bytes) && bytes == text
    decreases |bytes|
  {
    if bytes == [] then text == []
    else if bytes[0] >= 128 as char then false
    else text != [] && bytes[0] == text[0] && StrEqualsUnicode(bytes[1..], text[1..])
  }
}
