/**
  Paths as the generator builds them with java.nio on a Unix file system.

  A parsed path is either absolute or relative and is a sequence of name
  elements; parsing drops empty elements (redundant and trailing slashes),
  and `resolve` appends a relative path to a base or returns an absolute
  path unchanged.
 */
module Paths {

  datatype Path = Path(absolute: bool, names: seq<string>)

  /** `String.replace(".", "/")`: every dot becomes a slash, nothing else changes. */
  function ReplaceDots(s: string): (r: string)
    ensures |r| == |s|
    ensures forall i :: 0 <= i < |s| ==> r[i] == (if s[i] == '.' then '/' else s[i])
  {
    if s == [] then [] else [if s[0] == '.' then '/' else s[0]] + ReplaceDots(s[1..])
  }

  /** The pieces of `s` between occurrences of `sep`, empty pieces included. */
  function Split(s: string, sep: char): (parts: seq<string>)
    ensures |parts| >= 1
    ensures forall i :: 0 <= i < |parts| ==> sep !in parts[i]
  {
    if s == [] then [[]]
    else
      var rest := Split(s[1..], sep);
      if s[0] == sep then [[]] + rest else [[s[0]] + rest[0]] + rest[1..]
  }

  /** The pieces glued back together with `sep` between neighbours. */
  function Join(parts: seq<string>, sep: char): string
    requires |parts| >= 1
  {
    if |parts| == 1 then parts[0] else parts[0] + [sep] + Join(parts[1..], sep)
  }

  /** The non-empty pieces, in order. */
  function NonEmpty(parts: seq<string>): (names: seq<string>)
    ensures |names| <= |parts|
    ensures forall i :: 0 <= i < |names| ==> names[i] != [] && names[i] in parts
    ensures (forall i :: 0 <= i < |parts| ==> parts[i] != []) ==> names == parts
  {
    if parts == [] then []
    else if parts[0] == [] then NonEmpty(parts[1..])
    else [parts[0]] + NonEmpty(parts[1..])
  }

  /** `Path.of(s)`: a leading slash makes the path absolute, empty elements vanish. */
  function Parse(s: string): (p: Path)
    ensures p.absolute <==> |s| > 0 && s[0] == '/'
    ensures forall i :: 0 <= i < |p.names| ==> p.names[i] != [] && '/' !in p.names[i]
  {
    Path(|s| > 0 && s[0] == '/', NonEmpty(Split(s, '/')))
  }

  /** `base.resolve(other)`: `other` ends the result; a relative `other` is appended to `base`. */
  function Resolve(base: Path, other: Path): (r: Path)
    ensures other.absolute ==> r == other
    ensures !other.absolute ==> r.absolute == base.absolute && |r.names| == |base.names| + |other.names|
  {
    if other.absolute then other else Path(base.absolute, base.names + other.names)
  }

  /** `getFileName()`: the last name element, as a relative path of one element. */
  function FileName(p: Path): (r: Path)
    requires |p.names| > 0
    ensures !r.absolute && r.names == [p.names[|p.names| - 1]]
  {
    Path(false, p.names[|p.names| - 1..])
  }

  // ----- Lemmas

  /** A string that starts with the separator has an empty first piece. */
  lemma SplitLeadingSeparator(s: string, sep: char)
    ensures s != [] && s[0] == sep ==> Split(s, sep)[0] == []
  {
  }

  /** Keeping the non-empty pieces is a filter: it distributes over concatenation. */
  lemma {:induction false} NonEmptyConcat(a: seq<string>, b: seq<string>)
    ensures NonEmpty(a + b) == NonEmpty(a) + NonEmpty(b)
    decreases |a|
  {
    if a != [] {
      assert (a + b)[0] == a[0] && (a + b)[1..] == a[1..] + b;
      NonEmptyConcat(a[1..], b);
      if a[0] != [] {
        assert NonEmpty(a + b) == [a[0]] + NonEmpty(a[1..] + b);
        assert NonEmpty(a) == [a[0]] + NonEmpty(a[1..]);
      } else {
        assert NonEmpty(a + b) == NonEmpty(a[1..] + b);
        assert NonEmpty(a) == NonEmpty(a[1..]);
      }
    } else {
      assert a + b == b;
    }
  }

  /** `other` ends the result of a resolve, and a relative `other` keeps `base` in front of it. */
  lemma ResolveNames(base: Path, other: Path)
    ensures var r := Resolve(base, other);
      && r.names[|r.names| - |other.names|..] == other.names
      && (!other.absolute ==> r.names[..|base.names|] == base.names)
  {
  }

  /** A joined string begins with its first piece. */
  lemma {:induction false} JoinHead(parts: seq<string>, sep: char)
    requires |parts| >= 1 && parts[0] != []
    ensures |Join(parts, sep)| > 0 && Join(parts, sep)[0] == parts[0][0]
  {
  }

  /** Parsing the '/'-join of non-empty, slash-free names gives the relative path of exactly those names. */
  lemma ParseJoin(names: seq<string>)
    requires |names| >= 1
    requires forall i :: 0 <= i < |names| ==> names[i] != [] && '/' !in names[i]
    ensures Parse(Join(names, '/')) == Path(false, names)
  {
    SplitJoin(names, '/');
    JoinHead(names, '/');
    assert names[0][0] != '/' by {
      assert names[0][0] in names[0];
    }
  }

  /** Splitting and joining are inverse: joining the pieces gives the string back. */
  lemma {:induction false} JoinSplit(s: string, sep: char)
    ensures Join(Split(s, sep), sep) == s
  {
    if s != [] {
      JoinSplit(s[1..], sep);
      var rest := Split(s[1..], sep);
      if s[0] != sep && |rest| > 1 {
        assert Join(rest, sep) == rest[0] + [sep] + Join(rest[1..], sep);
        assert ([[s[0]] + rest[0]] + rest[1..])[1..] == rest[1..];
      }
    }
  }

  lemma {:induction false} SplitAppend(a: string, b: string, sep: char)
    requires sep !in a
    ensures Split(a + [sep] + b, sep) == [a] + Split(b, sep)
  {
    if a != [] {
      assert (a + [sep] + b)[1..] == a[1..] + [sep] + b;
      assert (a + [sep] + b)[0] == a[0] != sep;
      SplitAppend(a[1..], b, sep);
      var rest := Split(a[1..] + [sep] + b, sep);
      assert rest[0] == a[1..] && rest[1..] == Split(b, sep);
      assert [a[0]] + a[1..] == a;
    } else {
      assert a + [sep] + b == [sep] + b;
      assert ([sep] + b)[1..] == b;
    }
  }

  lemma {:induction false} SplitSingle(a: string, sep: char)
    requires sep !in a
    ensures Split(a, sep) == [a]
  {
    if a != [] {
      SplitSingle(a[1..], sep);
      assert [a[0]] + a[1..] == a;
    }
  }

  /** Splitting and joining are inverse: pieces free of `sep` survive the round trip. */
  lemma {:induction false} SplitJoin(parts: seq<string>, sep: char)
    requires |parts| >= 1
    requires forall i :: 0 <= i < |parts| ==> sep !in parts[i]
    ensures Split(Join(parts, sep), sep) == parts
  {
    if |parts| == 1 {
      SplitSingle(parts[0], sep);
    } else {
      SplitJoin(parts[1..], sep);
      SplitAppend(parts[0], Join(parts[1..], sep), sep);
      assert [parts[0]] + parts[1..] == parts;
    }
  }

  /** Replacing the dots of a slash-free string turns its dot-separated pieces into its slash-separated pieces. */
  lemma {:induction false} SplitReplaceDots(s: string)
    requires '/' !in s
    ensures Split(ReplaceDots(s), '/') == Split(s, '.')
  {
    if s != [] {
      assert '/' !in s[1..] by {
        forall i | 0 <= i < |s[1..]| ensures s[1..][i] != '/' {
          assert s[1..][i] == s[i + 1];
        }
      }
      SplitReplaceDots(s[1..]);
      assert ReplaceDots(s)[1..] == ReplaceDots(s[1..]);
    }
  }
}
