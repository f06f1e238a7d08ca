/**
 * JavaScript's `s.split(' ')` and `parts.join(' ')` on strings, and the facts
 * about them that the word wrapper relies on.
 */
module Tokens {

  /** `parts.join(" ")`: the parts with one space between neighbours. */
  function Join(parts: seq<string>): string
  {
    if parts == [] then ""
    else if |parts| == 1 then parts[0]
    else Join(parts[..|parts| - 1]) + " " + parts[|parts| - 1]
  }

  /** The index of the last space in `s`, or -1 when `s` has none. */
  function LastSpace(s: string): (r: int)
    ensures -1 <= r < |s|
    ensures r >= 0 ==> s[r] == ' '
    ensures forall k :: r < k < |s| ==> s[k] != ' '
  {
    if s == [] then -1
    else if s[|s| - 1] == ' ' then |s| - 1
    else LastSpace(s[..|s| - 1])
  }

  /**
   * `s.split(" ")`: the pieces between single spaces, in order. Two adjacent
   * spaces, or a space at either end, give an empty piece.
   */
  function Split(s: string): (r: seq<string>)
    ensures |r| >= 1
    ensures forall k :: 0 <= k < |r| ==> ' ' !in r[k]
    ensures Join(r) == s
    decreases |s|
  {
    var j := LastSpace(s);
    if j < 0 then [s]
    else
      var init := Split(s[..j]);
      assert (init + [s[j + 1..]])[..|init|] == init;
      assert s[..j] + " " + s[j + 1..] == s;
      init + [s[j + 1..]]
  }

  /** Appending one part to a non-empty list adds a space and that part. */
  lemma JoinSnoc(parts: seq<string>, x: string)
    requires parts != []
    ensures Join(parts + [x]) == Join(parts) + " " + x
  {
    assert (parts + [x])[..|parts|] == parts;
  }

  /** Joining two non-empty lists is joining each and putting a space between. */
  lemma {:induction false} JoinConcat(a: seq<string>, b: seq<string>)
    requires a != [] && b != []
    ensures Join(a + b) == Join(a) + " " + Join(b)
  {
    var n := |b|;
    if n == 1 {
      JoinSnoc(a, b[0]);
      assert a + b == a + [b[0]];
    } else {
      var b' := b[..n - 1];
      assert a + b == (a + b') + [b[n - 1]];
      assert b == b' + [b[n - 1]];
      JoinSnoc(a + b', b[n - 1]);
      JoinConcat(a, b');
      JoinSnoc(b', b[n - 1]);
    }
  }

  /** The last space of `a + " " + b` is the one added, when `b` has none. */
  lemma {:induction false} LastSpaceOfJoin(a: string, b: string)
    requires ' ' !in b
    ensures LastSpace(a + " " + b) == |a|
    decreases |b|
  {
    var s := a + " " + b;
    if b != [] {
      var b' := b[..|b| - 1];
      assert b[|b| - 1] in b;
      assert s[..|s| - 1] == a + " " + b';
      assert forall c :: c in b' ==> c in b;
      LastSpaceOfJoin(a, b');
    }
  }

  /** Splitting undoes joining for space-free parts: `Split` is `Join`'s inverse. */
  lemma {:induction false} SplitJoin(parts: seq<string>)
    requires |parts| >= 1
    requires forall k :: 0 <= k < |parts| ==> ' ' !in parts[k]
    ensures Split(Join(parts)) == parts
  {
    var n := |parts|;
    if n == 1 {
      var s := parts[0];
      assert forall k :: 0 <= k < |s| ==> s[k] in s;
    } else {
      var init := parts[..n - 1];
      var a, b := Join(init), parts[n - 1];
      var s := Join(parts);
      assert s == a + " " + b;
      LastSpaceOfJoin(a, b);
      assert s[..|a|] == a;
      assert s[|a| + 1..] == b;
      SplitJoin(init);
      assert parts == init + [b];
    }
  }
}
