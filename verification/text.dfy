/** The few Python string operations the servers use: `str.upper()`,
    `str.lower()`, the substring test `needle in hay`, and `int(text)` applied
    to an optional query parameter. Case mapping is ASCII only. */
module Text {

  function UpperChar(c: char): char
  {
    if 'a' <= c <= 'z' then (c as int - 'a' as int + 'A' as int) as char else c
  }

  function LowerChar(c: char): char
  {
    if 'A' <= c <= 'Z' then (c as int - 'A' as int + 'a' as int) as char else c
  }

  /** Python's `s.upper()` restricted to ASCII letters. */
  function Upper(s: string): (r: string)
    ensures |r| == |s|
    ensures forall i :: 0 <= i < |s| ==> r[i] == UpperChar(s[i])
    ensures forall i :: 0 <= i < |r| ==> !('a' <= r[i] <= 'z')
  {
    seq(|s|, i requires 0 <= i < |s| => UpperChar(s[i]))
  }

  /** Python's `s.lower()` restricted to ASCII letters. */
  function Lower(s: string): (r: string)
    ensures |r| == |s|
    ensures forall i :: 0 <= i < |s| ==> r[i] == LowerChar(s[i])
    ensures forall i :: 0 <= i < |r| ==> !('A' <= r[i] <= 'Z')
  {
    seq(|s|, i requires 0 <= i < |s| => LowerChar(s[i]))
  }

  /** Python's `needle in hay` on strings, by scanning the start positions. */
  predicate Contains(needle: string, hay: string)
    decreases |hay|
  {
    needle <= hay || (hay != [] && Contains(needle, hay[1..]))
  }

  /** The needle occurs in the haystack starting at offset `k`. */
  predicate OccursAt(needle: string, hay: string, k: int)
  {
    0 <= k <= |hay| - |needle| && hay[k..k + |needle|] == needle
  }

  /** `Contains` agrees with the positional definition: the needle occurs at
      some offset of the haystack. */
  lemma {:induction false} ContainsAt(needle: string, hay: string)
    ensures Contains(needle, hay) <==> exists k :: OccursAt(needle, hay, k)
    decreases |hay|
  {
    if needle <= hay {
      assert OccursAt(needle, hay, 0);
    } else if hay == [] {
      assert forall k :: !OccursAt(needle, hay, k);
    } else {
      ContainsAt(needle, hay[1..]);
      if Contains(needle, hay[1..]) {
        var k :| OccursAt(needle, hay[1..], k);
        assert hay[k + 1..k + 1 + |needle|] == hay[1..][k..k + |needle|];
        assert OccursAt(needle, hay, k + 1);
      }
      if exists k :: OccursAt(needle, hay, k) {
        var k :| OccursAt(needle, hay, k);
        assert k != 0 ==> hay[1..][k - 1..k - 1 + |needle|] == hay[k..k + |needle|];
        assert OccursAt(needle, hay[1..], k - 1);
      }
    }
  }

  /** A query-string value that Python's `int()` is applied to: absent (the
      handler's default is used), the text of an integer, or any other text. */
  datatype IntParam = Absent | Digits(value: int) | Malformed(text: string)

  /** The outcome of `int(params.get(name, [default])[0])`. */
  datatype IntArg = Value(n: int) | Invalid(msg: string)

  function ParseIntArg(p: IntParam, default: int): (r: IntArg)
    ensures p.Absent? ==> r == Value(default)
    ensures p.Digits? ==> r == Value(p.value)
    ensures r.Invalid? <==> p.Malformed?
  {
    match p
    case Absent => Value(default)
    case Digits(v) => Value(v)
    case Malformed(t) => Invalid("invalid literal for int() with base 10: '" + t + "'")
  }
}
