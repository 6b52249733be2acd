/** Small string operations shared by the renderers and their inverses. */
module Text {
  import opened Wrappers

  /** What is left of `s` after the literal `p`, if `s` starts with `p`. */
  function StripPrefix(p: string, s: string): (r: Option<string>)
    ensures r.Some? <==> p <= s
    ensures r.Some? ==> s == p + r.value
  {
    if p <= s then Some(s[|p|..]) else None
  }

  /** Splits `s` at the first occurrence of `c`: the text before it and the
      rest, which starts with `c`; `None` when `c` does not occur. */
  function TakeUntil(c: char, s: string): (r: Option<(string, string)>)
    ensures r.None? <==> c !in s
    ensures r.Some? ==> s == r.value.0 + r.value.1 && c !in r.value.0
    ensures r.Some? ==> |r.value.1| > 0 && r.value.1[0] == c
  {
    if s == [] then None
    else if s[0] == c then Some(([], s))
    else
      assert s == [s[0]] + s[1..];
      match TakeUntil(c, s[1..])
      case None => None
      case Some(p) =>
        assert [s[0]] + p.0 + p.1 == [s[0]] + (p.0 + p.1);
        Some(([s[0]] + p.0, p.1))
  }

  /** The first `c` is found right after a prefix that does not contain it. */
  lemma {:induction false} TakeUntilAfter(c: char, x: string, rest: string)
    requires c !in x
    requires |rest| > 0 && rest[0] == c
    ensures TakeUntil(c, x + rest) == Some((x, rest))
  {
    if x == [] {
      assert x + rest == rest;
    } else {
      assert (x + rest)[0] == x[0] != c;
      assert (x + rest)[1..] == x[1..] + rest;
      TakeUntilAfter(c, x[1..], rest);
      assert [x[0]] + x[1..] == x;
    }
  }

  /** `parts.join(sep)`: the parts with `sep` between consecutive ones. */
  function Join(parts: seq<string>, sep: string): string {
    if |parts| == 0 then ""
    else if |parts| == 1 then parts[0]
    else parts[0] + sep + Join(parts[1..], sep)
  }

  /** The pieces of `s` between occurrences of `c`. */
  function Split(s: string, c: char): (r: seq<string>)
    ensures |r| >= 1
    decreases |s|
  {
    match TakeUntil(c, s)
    case None => [s]
    case Some(p) => [p.0] + Split(p.1[1..], c)
  }

  /** Splitting text that starts with a piece free of `c`, then `c`: that
      piece, then the pieces of the rest. */
  lemma SplitAfter(c: char, x: string, tail: string)
    requires c !in x
    ensures Split(x + ([c] + tail), c) == [x] + Split(tail, c)
  {
    TakeUntilAfter(c, x, [c] + tail);
    assert ([c] + tail)[1..] == tail;
  }

  /** Joining lines that do not contain the separator loses nothing: splitting
      the joined text gives the lines back. */
  lemma {:induction false} SplitJoin(parts: seq<string>, c: char)
    requires |parts| >= 1
    requires forall i :: 0 <= i < |parts| ==> c !in parts[i]
    ensures Split(Join(parts, [c]), c) == parts
  {
    if |parts| > 1 {
      var tail := Join(parts[1..], [c]);
      assert Join(parts, [c]) == parts[0] + ([c] + tail);
      SplitAfter(c, parts[0], tail);
      SplitJoin(parts[1..], c);
      assert parts == [parts[0]] + parts[1..];
    }
  }

  /** A prefix of a text stays a prefix when more is appended. */
  lemma PrefixExtends(p: string, x: string, y: string)
    requires p <= x
    ensures p <= x + y
  {
    assert forall i :: 0 <= i < |p| ==> (x + y)[i] == x[i];
  }
}
