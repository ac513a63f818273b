/** Optional values: `undefined`/`null` on the JavaScript side. */
module Wrappers {
  datatype Option<+T> = None | Some(value: T)
}

/**
 * JavaScript's `String.prototype.split` with a one-character separator, as
 * both the bearer-header middleware (`authHeader.split(' ')`) and the page
 * guard (`pathname.split('/').pop()`) use it.
 */
module Text {

  /** `s.split(sep)`: the maximal runs between separators, empty ones included.
      The result is never empty (`"".split(' ')` is `[""]`). */
  function Split(s: string, sep: char): (fields: seq<string>)
    ensures |fields| >= 1
    ensures forall i :: 0 <= i < |fields| ==> sep !in fields[i]
    decreases |s|
  {
    if s == [] then [[]]
    else
      var rest := Split(s[1..], sep);
      if s[0] == sep then [[]] + rest
      else [[s[0]] + rest[0]] + rest[1..]
  }

  /** `fields.join(sep)`, the inverse of `Split`. */
  function Join(fields: seq<string>, sep: char): string
  {
    if fields == [] then []
    else if |fields| == 1 then fields[0]
    else fields[0] + [sep] + Join(fields[1..], sep)
  }

  /** `s.split(sep).pop()`: the last field. */
  function LastField(s: string, sep: char): (last: string)
    ensures sep !in last
  {
    var fields := Split(s, sep);
    fields[|fields| - 1]
  }

  /** Splitting loses nothing: joining the fields back gives the input. */
  lemma {:induction false} JoinSplit(s: string, sep: char)
    ensures Join(Split(s, sep), sep) == s
    decreases |s|
  {
    if s != [] {
      var rest := Split(s[1..], sep);
      JoinSplit(s[1..], sep);
      if s[0] == sep {
        assert Split(s, sep)[1..] == rest;
        assert [sep] + s[1..] == s;
      } else if |rest| == 1 {
        assert Split(s, sep) == [[s[0]] + rest[0]];
        assert [s[0]] + s[1..] == s;
      } else {
        var fields := Split(s, sep);
        assert fields[1..] == rest[1..];
        assert Join(rest, sep) == rest[0] + [sep] + Join(rest[1..], sep);
        calc {
          Join(fields, sep);
          ([s[0]] + rest[0]) + [sep] + Join(rest[1..], sep);
          [s[0]] + Join(rest, sep);
          s;
        }
      }
    }
  }

  /** A string without the separator is a single field. */
  lemma {:induction false} SplitWithoutSeparator(s: string, sep: char)
    requires sep !in s
    ensures Split(s, sep) == [s]
    decreases |s|
  {
    if s != [] {
      SplitWithoutSeparator(s[1..], sep);
      assert [s[0]] + s[1..] == s;
    }
  }

  /** One step of `Split`: the first character either ends the first field
      or is prepended to it. */
  lemma SplitCons(c: char, t: string, sep: char)
    ensures Split([c] + t, sep) ==
      if c == sep then [[]] + Split(t, sep)
      else [[c] + Split(t, sep)[0]] + Split(t, sep)[1..]
  {
  }

  /** Prepending to the first field of a concatenation of field lists. */
  lemma PrependToFirstField(c: char, left: seq<string>, right: seq<string>)
    requires |left| >= 1
    ensures [[c] + (left + right)[0]] + (left + right)[1..] == ([[c] + left[0]] + left[1..]) + right
  {
  }

  /** A separator cuts the string in two independently split halves. */
  lemma {:induction false} SplitAtSeparator(a: string, b: string, sep: char)
    ensures Split(a + [sep] + b, sep) == Split(a, sep) + Split(b, sep)
    decreases |a|
  {
    if a == [] {
      assert a + [sep] + b == [sep] + b;
      SplitCons(sep, b, sep);
    } else {
      var c, tail := a[0], a[1..];
      var rest := tail + [sep] + b;
      assert a == [c] + tail && a + [sep] + b == [c] + rest;
      SplitAtSeparator(tail, b, sep);
      SplitCons(c, rest, sep);
      SplitCons(c, tail, sep);
      var left, right := Split(tail, sep), Split(b, sep);
      if c == sep {
        assert [[]] + (left + right) == ([[]] + left) + right;
      } else {
        PrependToFirstField(c, left, right);
      }
    }
  }

  /** `(w + sep + rest).split(sep)` begins with `w` when `w` holds no separator. */
  lemma FieldsAfterFirstSeparator(w: string, rest: string, sep: char)
    requires sep !in w
    ensures Split(w + [sep] + rest, sep) == [w] + Split(rest, sep)
  {
    SplitAtSeparator(w, rest, sep);
    SplitWithoutSeparator(w, sep);
  }

  /** The last field of `dir + sep + name` is `name` when `name` holds no separator. */
  lemma LastFieldAfterSeparator(dir: string, name: string, sep: char)
    requires sep !in name
    ensures LastField(dir + [sep] + name, sep) == name
  {
    SplitAtSeparator(dir, name, sep);
    SplitWithoutSeparator(name, sep);
  }
}
