/** Where a text occurs in another, and in two put together. */
module TextSearch {

  predicate OccursAt(text: string, m: string, i: int) {
    0 <= i && i + |m| <= |text| && text[i..i + |m|] == m
  }

  ghost function Occurrences(text: string, m: string): set<int> {
    set i | 0 <= i <= |text| && OccursAt(text, m, i)
  }

  ghost function Shifted(s: set<int>, n: int): set<int> { set i | i in s :: i + n }

  /** No occurrence can begin in `a` and end in `b`. */
  ghost predicate NoStraddle(a: string, b: string, m: string) {
    a == "" || b == "" || forall k :: 0 < k < |m| && m[k] == b[0] ==> m[k - 1] != a[|a| - 1]
  }

  lemma OccursJoined(a: string, b: string, m: string, i: int)
    requires NoStraddle(a, b, m)
    ensures OccursAt(a + b, m, i) <==> OccursAt(a, m, i) || OccursAt(b, m, i - |a|)
  {
    var t := a + b;
    if OccursAt(t, m, i) {
      if i < |a| < i + |m| {
        Straddling(a, b, m, i);
      } else if i + |m| <= |a| {
        assert t[i..i + |m|] == a[i..i + |m|];
      } else {
        assert t[i..i + |m|] == b[i - |a|..i - |a| + |m|];
      }
    }
    if OccursAt(a, m, i) { assert t[i..i + |m|] == a[i..i + |m|]; }
    if OccursAt(b, m, i - |a|) { assert t[i..i + |m|] == b[i - |a|..i - |a| + |m|]; }
  }

  lemma Straddling(a: string, b: string, m: string, i: int)
    requires i < |a| < i + |m| && OccursAt(a + b, m, i)
    ensures b != "" && m[|a| - i] == b[0] && m[|a| - i - 1] == a[|a| - 1]
  {
    assert m[|a| - i] == (a + b)[i..i + |m|][|a| - i];
    assert m[|a| - i - 1] == (a + b)[i..i + |m|][|a| - i - 1];
  }

  lemma OccurrencesJoined(a: string, b: string, m: string)
    requires NoStraddle(a, b, m)
    ensures Occurrences(a + b, m) == Occurrences(a, m) + Shifted(Occurrences(b, m), |a|)
  {
    hide *;
    forall i ensures i in Occurrences(a + b, m) <==> i in Occurrences(a, m) + Shifted(Occurrences(b, m), |a|) {
      OccursJoined(a, b, m, i);
      InShifted(Occurrences(b, m), |a|, i);
      InRange(a, m, i);
      InRange(b, m, i - |a|);
      InRange(a + b, m, i);
    }
  }

  lemma InShifted(s: set<int>, n: int, i: int)
    ensures i in Shifted(s, n) <==> i - n in s
  {
    if i - n in s { assert i == (i - n) + n; }
  }

  lemma InRange(text: string, m: string, i: int)
    ensures i in Occurrences(text, m) <==> OccursAt(text, m, i)
  {
  }

  lemma Shared(text: string, m: string, i: int, p: int)
    requires OccursAt(text, m, i) && OccursAt(text, m, p) && i < p < i + |m|
    ensures m[p - i] == m[0]
  {
    assert m[p - i] == text[i..i + |m|][p - i];
    assert text[p..p + |m|][0] == m[0];
  }

  lemma CharsOf(text: string, m: string, i: int)
    requires OccursAt(text, m, i)
    ensures forall k :: i <= k < i + |m| ==> text[k] == m[k - i]
  {
    assert forall k :: i <= k < i + |m| ==> text[k] == text[i..i + |m|][k - i];
  }

  lemma ShiftedAgain(s: set<int>, n: int, k: int)
    ensures Shifted(Shifted(s, n), k) == Shifted(s, n + k)
    ensures Shifted({}, n) == {} && Shifted(s, 0) == s
  {
    forall i ensures i in Shifted(Shifted(s, n), k) <==> i in Shifted(s, n + k) {
      InShifted(s, n, i - k);
      InShifted(Shifted(s, n), k, i);
      InShifted(s, n + k, i);
    }
    forall i ensures i in Shifted(s, 0) <==> i in s { InShifted(s, 0, i); }
  }

  lemma ShiftedUnion(s: set<int>, t: set<int>, n: int)
    ensures Shifted(s + t, n) == Shifted(s, n) + Shifted(t, n)
  {
  }

  lemma Within(text: string, m: string, start: nat, stop: nat, i: int)
    requires start <= |text| && stop <= |text|
    ensures OccursAt(text[..start], m, i) ==> OccursAt(text, m, i)
    ensures OccursAt(text[stop..], m, i) ==> OccursAt(text, m, i + stop)
  {
    if OccursAt(text[..start], m, i) { assert text[i..i + |m|] == text[..start][i..i + |m|]; }
    if OccursAt(text[stop..], m, i) { assert text[i + stop..i + stop + |m|] == text[stop..][i..i + |m|]; }
  }
}
