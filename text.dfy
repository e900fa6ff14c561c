/** Text helpers shared by the pricing engine and the payment-response classifier:
    Python's truthiness of optional strings, ASCII lower-casing for `str.lower()` and the substring
    test `k in s`. */
module Text {

  datatype Option<+T> = None | Some(value: T)

  /** Python truthiness of a value that is either None or a string: only a non-empty string is true. */
  predicate Truthy(o: Option<string>) {
    o.Some? && o.value != ""
  }

  /** Python's `a or b` on two such values: `a` when it is truthy, otherwise `b` (which may itself be falsy). */
  function Or(a: Option<string>, b: Option<string>): (r: Option<string>)
    ensures Truthy(r) <==> Truthy(a) || Truthy(b)
    ensures Truthy(a) ==> r == a
    ensures !Truthy(a) ==> r == b
  {
    if Truthy(a) then a else b
  }

  /** Lower-casing of one character; only the ASCII capitals change. */
  function LowerChar(c: char): (d: char)
    ensures 'A' <= c <= 'Z' ==> 'a' <= d <= 'z' && d as int - c as int == 32
    ensures !('A' <= c <= 'Z') ==> d == c
  {
    if 'A' <= c <= 'Z' then (c as int + 32) as char else c
  }

  /** ASCII lower-casing, standing for `s.lower()`: A-Z become a-z, every other character is kept. */
  function Lower(s: string): (r: string)
    ensures |r| == |s|
    ensures forall i :: 0 <= i < |s| ==> r[i] == LowerChar(s[i])
  {
    if s == [] then [] else [LowerChar(s[0])] + Lower(s[1..])
  }

  /** `k` occurs in `s` starting at position `i`. */
  ghost predicate OccursAt(s: string, k: string, i: int) {
    0 <= i && i + |k| <= |s| && s[i..i + |k|] == k
  }

  /** Python's substring test `k in s`, scanning from the left. */
  function Contains(s: string, k: string): (b: bool)
    decreases |s|
  {
    if |k| > |s| then false
    else if s[..|k|] == k then true
    else Contains(s[1..], k)
  }

  /** The scan finds `k` exactly when `k` occurs somewhere in `s`. */
  lemma {:induction false} ContainsIffOccurs(s: string, k: string)
    ensures Contains(s, k) <==> exists i :: OccursAt(s, k, i)
    decreases |s|
  {
    if |k| > |s| {
      assert forall i :: !OccursAt(s, k, i);
    } else if s[..|k|] == k {
      assert OccursAt(s, k, 0);
    } else {
      ContainsIffOccurs(s[1..], k);
      if Contains(s[1..], k) {
        var j :| OccursAt(s[1..], k, j);
        assert s[j + 1..j + 1 + |k|] == s[1..][j..j + |k|];
        assert OccursAt(s, k, j + 1);
      } else {
        forall i | OccursAt(s, k, i)
          ensures false
        {
          if i > 0 {
            assert s[1..][i - 1..i - 1 + |k|] == s[i..i + |k|];
            assert OccursAt(s[1..], k, i - 1);
          }
        }
      }
    }
  }
}
