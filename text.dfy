/**
  The two string operations of the Kotlin standard library that the skill
  configuration relies on: `CharSequence.isBlank()` and `String.split(String)`
  with a one-character delimiter (which, unlike Java's `split`, keeps trailing
  empty parts).
 */
module Text {

  /** Kotlin `Char.isWhitespace()`: Java whitespace or a Unicode space separator. */
  predicate IsWhitespace(c: char): (b: bool)
    ensures c as int < 0x80 ==> (b <==> c == ' ' || '\t' <= c <= '\r' || '\U{1C}' <= c <= '\U{1F}')
    ensures b ==> c as int <= 0x3000 && c != ';'
  {
    || c == ' '
    || '\t' <= c <= '\r'
    || '\U{1C}' <= c <= '\U{1F}'
    || c == '\U{A0}'
    || c == '\U{1680}'
    || '\U{2000}' <= c <= '\U{200A}'
    || c == '\U{2028}'
    || c == '\U{2029}'
    || c == '\U{202F}'
    || c == '\U{205F}'
    || c == '\U{3000}'
  }

  /** Kotlin `isBlank()`: empty, or whitespace only. */
  predicate IsBlank(s: string): (b: bool)
    ensures s == [] ==> b
    ensures b <==> forall c :: c in s ==> IsWhitespace(c)
  {
    forall i :: 0 <= i < |s| ==> IsWhitespace(s[i])
  }

  /** Kotlin `s.split(sep)`: the maximal separator-free pieces between separators, empty ones included. */
  function Split(s: string, sep: char): (parts: seq<string>)
    ensures |parts| >= 1
    ensures forall i :: 0 <= i < |parts| ==> sep !in parts[i]
    decreases |s|
  {
    if s == [] then [[]]
    else
      var rest := Split(s[1..], sep);
      if s[0] == sep then [[]] + rest
      else [[s[0]] + rest[0]] + rest[1..]
  }

  /** Kotlin `parts.joinToString(sep)`. */
  function Join(parts: seq<string>, sep: char): (s: string)
    decreases |parts|
  {
    if |parts| == 0 then []
    else if |parts| == 1 then parts[0]
    else parts[0] + [sep] + Join(parts[1..], sep)
  }

  /** Joining the pieces again with the separator gives back the original string. */
  lemma {:induction false} JoinSplit(s: string, sep: char)
    ensures Join(Split(s, sep), sep) == s
    decreases |s|
  {
    if s != [] {
      JoinSplit(s[1..], sep);
      var rest := Split(s[1..], sep);
      if s[0] != sep {
        var parts := [[s[0]] + rest[0]] + rest[1..];
        assert parts[1..] == rest[1..];
        if |rest| == 1 {
          assert Join(parts, sep) == [s[0]] + rest[0];
        } else {
          assert Join(parts, sep) == [s[0]] + (rest[0] + [sep] + Join(rest[1..], sep));
        }
        assert [s[0]] + s[1..] == s;
      } else {
        assert ([[]] + rest)[1..] == rest;
        assert [sep] + s[1..] == s;
      }
    }
  }

  /** Splitting is the inverse of joining: a non-empty list of separator-free pieces is recovered. */
  lemma {:induction false} SplitJoin(parts: seq<string>, sep: char)
    requires |parts| >= 1
    requires forall i :: 0 <= i < |parts| ==> sep !in parts[i]
    ensures Split(Join(parts, sep), sep) == parts
    decreases |Join(parts, sep)|
  {
    var s := Join(parts, sep);
    if parts[0] == [] {
      if |parts| > 1 {
        assert s == [sep] + Join(parts[1..], sep);
        assert s[1..] == Join(parts[1..], sep);
        SplitJoin(parts[1..], sep);
        assert parts == [[]] + parts[1..];
      }
    } else {
      var first := parts[0];
      var shorter := [first[1..]] + parts[1..];
      assert shorter[1..] == parts[1..];
      assert sep !in shorter[0] by { assert forall c :: c in first[1..] ==> c in first; }
      if |parts| == 1 {
        assert s == first;
        assert Join(shorter, sep) == first[1..];
      } else {
        assert s == first + [sep] + Join(parts[1..], sep);
        assert Join(shorter, sep) == first[1..] + [sep] + Join(parts[1..], sep);
      }
      assert s == [first[0]] + Join(shorter, sep);
      assert s[1..] == Join(shorter, sep);
      SplitJoin(shorter, sep);
      assert s[0] == first[0] && first[0] != sep;
      assert [first[0]] + first[1..] == first;
      assert parts == [first] + parts[1..];
    }
  }
}
