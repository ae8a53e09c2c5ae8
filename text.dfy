/** The string operations the credential resolver relies on. */
module Text {
  import opened Errors

  /** `s.startsWith(prefix)`. */
  predicate StartsWith(s: string, prefix: string)
  {
    |prefix| <= |s| && s[..|prefix|] == prefix
  }

  /** `s.split(sep)` for a one-character separator: every segment, empty ones included. */
  function Split(s: string, sep: char): (parts: seq<string>)
    ensures |parts| >= 1
    ensures forall i :: 0 <= i < |parts| ==> sep !in parts[i]
  {
    if |s| == 0 then [""]
    else
      var rest := Split(s[1..], sep);
      if s[0] == sep then [""] + rest
      else [[s[0]] + rest[0]] + rest[1..]
  }

  /** `parts.join(sep)`. */
  function Join(parts: seq<string>, sep: char): string
    requires |parts| >= 1
  {
    if |parts| == 1 then parts[0] else parts[0] + [sep] + Join(parts[1..], sep)
  }

  /** `parts[i]`, which is `undefined` past the end. */
  function Segment(parts: seq<string>, i: nat): (r: Option<string>)
    ensures r.Some? <==> i < |parts|
    ensures r.Some? ==> r.value == parts[i]
  {
    if i < |parts| then Some(parts[i]) else None
  }

  /** Splitting loses nothing: joining the segments back gives the input. */
  lemma {:induction false} JoinSplit(s: string, sep: char)
    ensures Join(Split(s, sep), sep) == s
  {
    if |s| > 0 {
      var rest := Split(s[1..], sep);
      JoinSplit(s[1..], sep);
      if s[0] == sep {
        assert Split(s, sep) == [""] + rest;
        assert s == [sep] + s[1..];
      } else {
        assert Split(s, sep) == [[s[0]] + rest[0]] + rest[1..];
        if |rest| == 1 {
          assert s == [s[0]] + s[1..];
        } else {
          assert Join(rest, sep) == rest[0] + [sep] + Join(rest[1..], sep);
          assert s == [s[0]] + s[1..];
        }
      }
    }
  }

  /** A segment free of the separator splits to itself. */
  lemma {:induction false} SplitWithoutSeparator(a: string, sep: char)
    requires sep !in a
    ensures Split(a, sep) == [a]
  {
    if |a| > 0 {
      SplitWithoutSeparator(a[1..], sep);
      assert [a[0]] + a[1..] == a;
    }
  }

  /** The text before the first separator is the first segment; the rest is split on its own. */
  lemma {:induction false} SplitAtFirstSeparator(a: string, rest: string, sep: char)
    requires sep !in a
    ensures Split(a + [sep] + rest, sep) == [a] + Split(rest, sep)
  {
    if |a| == 0 {
      assert a + [sep] + rest == [sep] + rest;
      assert ([sep] + rest)[1..] == rest;
    } else {
      SplitAtFirstSeparator(a[1..], rest, sep);
      assert (a + [sep] + rest)[1..] == a[1..] + [sep] + rest;
      assert [a[0]] + a[1..] == a;
    }
  }

  /**
   * In "id:secret:tail", segment 0 is the id and segment 1 is the secret; the
   * tail after a second separator is not part of either.
   */
  lemma FirstTwoSegments(id: string, secret: string, tail: string, sep: char)
    requires sep !in id && sep !in secret
    ensures var parts := Split(id + [sep] + secret + [sep] + tail, sep);
      && |parts| >= 3 && parts[0] == id && parts[1] == secret
  {
    SplitAtFirstSeparator(secret, tail, sep);
    assert id + [sep] + secret + [sep] + tail == id + [sep] + (secret + [sep] + tail);
    SplitAtFirstSeparator(id, secret + [sep] + tail, sep);
  }

  /** "id:secret" splits into exactly the id and the secret. */
  lemma IdAndSecret(id: string, secret: string, sep: char)
    requires sep !in id && sep !in secret
    ensures Split(id + [sep] + secret, sep) == [id, secret]
  {
    SplitWithoutSeparator(secret, sep);
    SplitAtFirstSeparator(id, secret, sep);
  }
}
