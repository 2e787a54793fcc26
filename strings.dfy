/** Text utilities the emitter is built from: occurrence of one string inside
    another at a known index, stripping a fixed prefix and suffix, and the
    separator join of an array of strings. */
module Strings {

  datatype Option<T> = None | Some(value: T)

  /** `t` occurs in `s` starting at index `k`. */
  predicate OccursAt(t: string, s: string, k: nat) {
    k + |t| <= |s| && s[k..k + |t|] == t
  }

  lemma OccursInMiddle(a: string, t: string, b: string)
    ensures OccursAt(t, a + t + b, |a|)
  {
    assert (a + t + b)[|a|..|a| + |t|] == t;
  }

  /** `t` begins `t + b`. */
  lemma AtStart(t: string, b: string)
    ensures OccursAt(t, t + b, 0)
  {
    assert (t + b)[0..|t|] == t;
  }

  /** `t` ends `a + t`. */
  lemma AtEnd(a: string, t: string)
    ensures OccursAt(t, a + t, |a|)
  {
    assert (a + t)[|a|..|a| + |t|] == t;
  }

  /** Two strings that begin with different characters do not occur at the
      same index. */
  lemma OccursExcludes(t: string, u: string, s: string, k: nat)
    requires |t| > 0 && |u| > 0 && t[0] != u[0] && OccursAt(t, s, k)
    ensures !OccursAt(u, s, k)
  {
    assert s[k] == s[k..k + |t|][0];
  }

  /** A slot of `t` that holds either nothing or `x`, and is followed by text
      that cannot begin `x`, has `x` at its place exactly when it holds `x`;
      and so does any `r == pre + t`, at the shifted place `pos`. */
  lemma SlotHolds(x: string, slot: string, after: string, pre: string, t: string, k: nat, r: string, pos: nat)
    requires |x| > 0 && |after| > 0 && x[0] != after[0]
    requires slot == "" || slot == x
    requires OccursAt(slot, t, k) && OccursAt(after, t, k + |slot|)
    requires r == pre + t && pos == |pre| + k
    ensures OccursAt(x, r, pos) <==> slot == x
  {
    InFront(slot, pre, t, k);
    if slot == "" {
      InFront(after, pre, t, k + |slot|);
      OccursExcludes(after, x, pre + t, |pre| + k);
    }
  }

  /** An occurrence in `s` is one in any string that has `s` in the middle. */
  lemma OccursNested(t: string, a: string, s: string, b: string, k: nat)
    requires OccursAt(t, s, k)
    ensures OccursAt(t, a + s + b, |a| + k)
  {
    OccursInMiddle(a, s, b);
    OccursAtTrans(t, s, a + s + b, k, |a|);
  }

  /** Appending to a string keeps the occurrences in it. */
  lemma OccursExtend(t: string, s: string, x: string, k: nat)
    requires OccursAt(t, s, k)
    ensures OccursAt(t, s + x, k)
  {
    assert (s + x)[k..k + |t|] == s[k..k + |t|];
  }

  /** Occurrence carried over to equal strings and an equal index. */
  lemma OccursEqual(t1: string, s1: string, k1: nat, t2: string, s2: string, k2: nat)
    requires OccursAt(t1, s1, k1) && t1 == t2 && s1 == s2 && k1 == k2
    ensures OccursAt(t2, s2, k2)
  {
  }

  /** An occurrence inside an occurrence is an occurrence in the outer string. */
  lemma OccursAtTrans(t: string, s: string, u: string, k: nat, j: nat)
    requires OccursAt(t, s, k) && OccursAt(s, u, j)
    ensures OccursAt(t, u, j + k)
  {
    assert s == u[j..j + |s|];
    forall n | 0 <= n < |t| ensures u[j + k..j + k + |t|][n] == t[n] {
      assert t[n] == s[k + n];
    }
  }

  /** The text between `prefix` and `suffix`, when `s` starts with the one and
      ends with the other (without the two overlapping). */
  function Strip(s: string, prefix: string, suffix: string): (r: Option<string>)
    ensures r.Some? ==> s == prefix + r.value + suffix
  {
    if |prefix| + |suffix| <= |s| && s[..|prefix|] == prefix && s[|s| - |suffix|..] == suffix
    then
      var x := s[|prefix|..|s| - |suffix|];
      assert s == s[..|prefix|] + x + s[|s| - |suffix|..];
      Some(x)
    else None
  }

  /** Stripping recovers exactly what was put between prefix and suffix
      (with the ensures of Strip: Strip and the concatenation are inverse). */
  lemma StripConcat(prefix: string, x: string, suffix: string)
    ensures Strip(prefix + x + suffix, prefix, suffix) == Some(x)
  {
    var s := prefix + x + suffix;
    assert s[..|prefix|] == prefix;
    assert s[|s| - |suffix|..] == suffix;
    assert s[|prefix|..|s| - |suffix|] == x;
  }

  function TotalLength(parts: seq<string>): nat {
    if |parts| == 0 then 0 else |parts[0]| + TotalLength(parts[1..])
  }

  /** The array join of the host language: the parts in order, `sep` between
      two neighbours, nothing before the first or after the last. */
  function Join(parts: seq<string>, sep: string): string {
    if |parts| == 0 then ""
    else if |parts| == 1 then parts[0]
    else parts[0] + sep + Join(parts[1..], sep)
  }

  /** The join is as long as its parts and one separator between each two. */
  lemma {:induction false} JoinLength(parts: seq<string>, sep: string)
    ensures |Join(parts, sep)| == TotalLength(parts) + (if |parts| == 0 then 0 else (|parts| - 1) * |sep|)
  {
    if |parts| > 1 {
      JoinLength(parts[1..], sep);
    }
  }

  /** The index in `Join(parts, sep)` at which `parts[i]` begins. */
  function Offset(parts: seq<string>, sep: string, i: nat): nat
    requires i <= |parts|
  {
    if i == 0 then 0 else Offset(parts, sep, i - 1) + |parts[i - 1]| + |sep|
  }

  lemma {:induction false} OffsetTail(parts: seq<string>, sep: string, i: nat)
    requires 0 < i <= |parts|
    ensures Offset(parts, sep, i) == |parts[0]| + |sep| + Offset(parts[1..], sep, i - 1)
  {
    if i > 1 {
      OffsetTail(parts, sep, i - 1);
    }
  }

  /** What `Join` puts in front of the join of the remaining parts. */
  lemma JoinCons(parts: seq<string>, sep: string)
    requires |parts| > 1
    ensures Join(parts, sep) == parts[0] + sep + Join(parts[1..], sep)
  {
  }

  /** An occurrence in `s` shifts by what is put in front of it. */
  lemma InFront(t: string, a: string, s: string, k: nat)
    requires OccursAt(t, s, k)
    ensures OccursAt(t, a + s, |a| + k)
  {
    OccursNested(t, a, s, "", k);
    assert a + s + "" == a + s;
  }

  /** An occurrence in the join of the tail shifts by the head and a separator. */
  lemma JoinShift(parts: seq<string>, sep: string, t: string, k: nat)
    requires |parts| > 1 && OccursAt(t, Join(parts[1..], sep), k)
    ensures OccursAt(t, Join(parts, sep), |parts[0]| + |sep| + k)
  {
    var rest := Join(parts[1..], sep);
    JoinCons(parts, sep);
    InFront(t, parts[0] + sep, rest, k);
    OccursEqual(t, parts[0] + sep + rest, |parts[0] + sep| + k, t, Join(parts, sep), |parts[0]| + |sep| + k);
  }

  /** The first part begins the join, followed by the separator unless it is
      the only part. */
  lemma JoinAtFirst(parts: seq<string>, sep: string)
    requires |parts| > 0
    ensures OccursAt(parts[0], Join(parts, sep), 0)
    ensures |parts| > 1 ==> OccursAt(sep, Join(parts, sep), |parts[0]|)
  {
    if |parts| == 1 {
      AtStart(parts[0], "");
      OccursEqual(parts[0], parts[0] + "", 0, parts[0], Join(parts, sep), 0);
    } else {
      var rest := Join(parts[1..], sep);
      JoinCons(parts, sep);
      AtStart(parts[0], sep);
      OccursExtend(parts[0], parts[0] + sep, rest, 0);
      OccursInMiddle(parts[0], sep, rest);
    }
  }

  /** A part after the first is where it is in the join of the tail, shifted
      by the head and a separator. */
  lemma JoinAtNext(parts: seq<string>, sep: string, i: nat)
    requires 0 < i < |parts|
    requires OccursAt(parts[1..][i - 1], Join(parts[1..], sep), Offset(parts[1..], sep, i - 1))
    ensures OccursAt(parts[i], Join(parts, sep), Offset(parts, sep, i))
  {
    var tail := parts[1..];
    var k := Offset(tail, sep, i - 1);
    OffsetTail(parts, sep, i);
    JoinShift(parts, sep, tail[i - 1], k);
    OccursEqual(tail[i - 1], Join(parts, sep), |parts[0]| + |sep| + k,
                parts[i], Join(parts, sep), Offset(parts, sep, i));
  }

  /** The same shift for the separator after a part other than the first. */
  lemma JoinSepNext(parts: seq<string>, sep: string, i: nat)
    requires 0 < i && i + 1 < |parts|
    requires OccursAt(sep, Join(parts[1..], sep), Offset(parts[1..], sep, i - 1) + |parts[1..][i - 1]|)
    ensures OccursAt(sep, Join(parts, sep), Offset(parts, sep, i) + |parts[i]|)
  {
    var tail := parts[1..];
    var k := Offset(tail, sep, i - 1) + |tail[i - 1]|;
    OffsetTail(parts, sep, i);
    JoinShift(parts, sep, sep, k);
    OccursEqual(sep, Join(parts, sep), |parts[0]| + |sep| + k,
                sep, Join(parts, sep), Offset(parts, sep, i) + |parts[i]|);
  }

  /** Each part appears verbatim at its offset, followed by the separator
      unless it is the last one: the join keeps the parts and their order. */
  lemma {:induction false} JoinAt(parts: seq<string>, sep: string, i: nat)
    requires i < |parts|
    ensures OccursAt(parts[i], Join(parts, sep), Offset(parts, sep, i))
    ensures i + 1 < |parts| ==> OccursAt(sep, Join(parts, sep), Offset(parts, sep, i) + |parts[i]|)
  {
    if i == 0 {
      JoinAtFirst(parts, sep);
    } else {
      JoinAt(parts[1..], sep, i - 1);
      JoinAtNext(parts, sep, i);
      if i + 1 < |parts| {
        JoinSepNext(parts, sep, i);
      }
    }
  }

  /** `JoinAt` for a join framed by a prefix and a suffix: the parts. */
  lemma JoinAtFramed(parts: seq<string>, sep: string, pre: string, post: string, i: nat)
    requires i < |parts|
    ensures OccursAt(parts[i], pre + Join(parts, sep) + post, |pre| + Offset(parts, sep, i))
  {
    JoinAt(parts, sep, i);
    OccursNested(parts[i], pre, Join(parts, sep), post, Offset(parts, sep, i));
  }

  /** `JoinAt` for a join framed by a prefix and a suffix: the separators. */
  lemma JoinSepFramed(parts: seq<string>, sep: string, pre: string, post: string, i: nat)
    requires i + 1 < |parts|
    ensures OccursAt(sep, pre + Join(parts, sep) + post, |pre| + (Offset(parts, sep, i) + |parts[i]|))
  {
    JoinAt(parts, sep, i);
    OccursNested(sep, pre, Join(parts, sep), post, Offset(parts, sep, i) + |parts[i]|);
  }

  /** With a non-empty separator the parts occupy disjoint, increasing ranges. */
  lemma {:induction false} OffsetIncreasing(parts: seq<string>, sep: string, i: nat, j: nat)
    requires i < j < |parts| && |sep| > 0
    ensures Offset(parts, sep, i) + |parts[i]| < Offset(parts, sep, j)
  {
    if j > i + 1 {
      OffsetIncreasing(parts, sep, i, j - 1);
    }
  }

  /** Reference definition: the join as the host builds it, left to right,
      appending the separator and then the next part. */
  function JoinLeft(parts: seq<string>, sep: string): string {
    if |parts| == 0 then ""
    else if |parts| == 1 then parts[0]
    else JoinLeft(parts[..|parts| - 1], sep) + sep + parts[|parts| - 1]
  }

  lemma {:induction false} JoinAppend(parts: seq<string>, sep: string, x: string)
    requires |parts| > 0
    ensures Join(parts + [x], sep) == Join(parts, sep) + sep + x
  {
    if |parts| == 1 {
      assert (parts + [x])[1..] == [x];
    } else {
      assert (parts + [x])[1..] == parts[1..] + [x];
      JoinAppend(parts[1..], sep, x);
    }
  }

  lemma {:induction false} JoinMatchesLeftFold(parts: seq<string>, sep: string)
    ensures Join(parts, sep) == JoinLeft(parts, sep)
  {
    if |parts| > 1 {
      var init := parts[..|parts| - 1];
      JoinMatchesLeftFold(init, sep);
      assert parts == init + [parts[|parts| - 1]];
      JoinAppend(init, sep, parts[|parts| - 1]);
    }
  }
}
