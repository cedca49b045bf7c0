/** String helpers shared by the model: ASCII case folding, prefix and
    substring tests, joining and filtering. Strings are `seq<char>`. */
module Text {

  datatype Option<+T> = None | Some(value: T)

  /** The lower-case form of an ASCII upper-case letter; every other
      character is left as it is. */
  function LowerChar(c: char): char
  {
    if 'A' <= c <= 'Z' then (c as int + 32) as char else c
  }

  /** `toLowerCase`, restricted to ASCII letters. */
  function Lower(s: string): (r: string)
    ensures |r| == |s|
    ensures forall i :: 0 <= i < |s| ==> r[i] == LowerChar(s[i])
  {
    seq(|s|, i requires 0 <= i < |s| => LowerChar(s[i]))
  }

  /** `s.startsWith(p)`: `p` is a prefix of `s`, that is, it occurs at
      index 0. */
  predicate StartsWith(s: string, p: string)
    ensures StartsWith(s, p) <==> OccursAt(s, p, 0)
  {
    |p| <= |s| && s[..|p|] == p
  }

  /** `p` occurs in `s` starting at index `i`. */
  predicate OccursAt(s: string, p: string, i: int)
  {
    0 <= i && i + |p| <= |s| && forall k :: 0 <= k < |p| ==> s[i + k] == p[k]
  }

  /** `s.includes(p)`: `p` occurs somewhere in `s`. */
  predicate Contains(s: string, p: string)
  {
    exists i :: 0 <= i <= |s| - |p| && OccursAt(s, p, i)
  }

  /** The empty text occurs everywhere, and a prefix occurs at index 0. */
  lemma ContainsEmptyAndPrefix(s: string, p: string)
    ensures p == [] ==> Contains(s, p)
    ensures StartsWith(s, p) ==> Contains(s, p)
  {
    if p == [] || StartsWith(s, p) {
      assert OccursAt(s, p, 0);
    }
  }

  /** The first index at or after `from` where `p` occurs in `s`, if any. */
  function IndexFrom(s: string, p: string, from: nat): (r: Option<nat>)
    decreases |s| - from
    ensures r.Some? ==> from <= r.value && OccursAt(s, p, r.value)
  {
    if from + |p| > |s| then None
    else if OccursAt(s, p, from) then Some(from)
    else IndexFrom(s, p, from + 1)
  }

  /** The index found is the first occurrence, and no index is found only
      when there is no occurrence at all. */
  lemma {:induction false} IndexFromIsFirst(s: string, p: string, from: nat)
    decreases |s| - from
    ensures IndexFrom(s, p, from).Some? ==> forall j :: from <= j < IndexFrom(s, p, from).value ==> !OccursAt(s, p, j)
    ensures IndexFrom(s, p, from).None? ==> forall j :: from <= j ==> !OccursAt(s, p, j)
  {
    if from + |p| <= |s| && !OccursAt(s, p, from) {
      IndexFromIsFirst(s, p, from + 1);
    }
  }

  lemma ContainsIffIndex(s: string, p: string)
    ensures Contains(s, p) <==> IndexFrom(s, p, 0).Some?
  {
    IndexFromIsFirst(s, p, 0);
    if IndexFrom(s, p, 0).Some? {
      assert OccursAt(s, p, IndexFrom(s, p, 0).value);
    }
  }

  /** The summed lengths of `parts`. */
  function TotalLength(parts: seq<string>): nat
  {
    if parts == [] then 0 else |parts[0]| + TotalLength(parts[1..])
  }

  /** `parts.join(sep)`: every part once, with one separator between each
      two neighbours. */
  function Join(parts: seq<string>, sep: string): (r: string)
    ensures parts == [] ==> r == []
    ensures parts != [] ==> |r| == TotalLength(parts) + (|parts| - 1) * |sep|
    ensures parts != [] ==> StartsWith(r, parts[0])
  {
    if parts == [] then []
    else if |parts| == 1 then parts[0]
    else parts[0] + sep + Join(parts[1..], sep)
  }

  /** A single part is joined to itself. */
  lemma JoinSingle(x: string, sep: string)
    ensures Join([x], sep) == x
  {
  }

  /** Joining two non-empty lists of parts puts one separator between the
      two joins: the parts keep their order and every neighbour pair is
      separated once. */
  lemma {:induction false} JoinConcat(a: seq<string>, b: seq<string>, sep: string)
    requires a != [] && b != []
    decreases |a|
    ensures Join(a + b, sep) == Join(a, sep) + sep + Join(b, sep)
  {
    assert (a + b)[0] == a[0] && (a + b)[1..] == a[1..] + b;
    if |a| == 1 {
      assert a[1..] + b == b;
    } else {
      JoinConcat(a[1..], b, sep);
      assert Join(a + b, sep) == a[0] + sep + (Join(a[1..], sep) + sep + Join(b, sep));
    }
  }

  predicate IsDigit(c: char)
  {
    '0' <= c <= '9'
  }

  function DigitValue(c: char): (d: nat)
    requires IsDigit(c)
    ensures d < 10
  {
    c as int - '0' as int
  }
}
