/** Small facts about joining and cutting sequences, kept apart so that proofs can name the one they use. */
module Sequences {

  lemma Associates<T>(a: seq<T>, b: seq<T>, c: seq<T>)
    ensures (a + b) + c == a + (b + c)
  {}

  lemma CutsBack<T>(a: seq<T>, b: seq<T>)
    ensures (a + b)[..|a|] == a && (a + b)[|a|..] == b
  {}

  lemma DropsFirst<T>(a: seq<T>, b: seq<T>)
    requires a != []
    ensures (a + b)[0] == a[0] && (a + b)[1..] == a[1..] + b
  {}

  lemma HeadAndTail<T>(s: seq<T>)
    requires s != []
    ensures [s[0]] + s[1..] == s
  {}

  lemma Rejoins<T>(s: seq<T>, n: nat)
    requires n <= |s|
    ensures s[..n] + s[n..] == s
  {}

  lemma OneFurther<T>(s: seq<T>, i: nat)
    requires i < |s|
    ensures s[..i] + [s[i]] == s[..i + 1]
  {}

  lemma SliceOfDrop<T>(s: seq<T>, i: nat, j: nat)
    requires i <= j <= |s|
    ensures s[i..][..j - i] == s[i..j] && s[i..][j - i..] == s[j..]
  {}

  lemma SliceOfSlice<T>(s: seq<T>, a: nat, b: nat, c: nat, d: nat)
    requires a <= b <= |s| && c <= d <= b - a
    ensures s[a..b][c..d] == s[a + c..a + d]
  {
    assert forall i :: 0 <= i < d - c ==> s[a..b][c..d][i] == s[a..b][c + i] == s[a + c + i] == s[a + c..a + d][i];
  }

  lemma DropOne<T>(s: seq<T>, i: nat)
    requires i < |s|
    ensures s[i..][0] == s[i] && s[i..][1..] == s[i + 1..]
  {}

  lemma TakeThenDrop<T>(s: seq<T>, n: nat)
    requires 0 < n <= |s|
    ensures s[..n] != [] && s[..n][0] == s[0] && s[..n][1..] == s[1..][..n - 1]
  {}

  /** The places where `x` stands, in order. */
  method Occurrences<T(==)>(s: seq<T>, x: T) returns (places: seq<nat>)
    ensures forall m :: 0 <= m < |places| ==> places[m] < |s| && s[places[m]] == x
    ensures forall m, n :: 0 <= m < n < |places| ==> places[m] < places[n]
    ensures forall j :: 0 <= j < |s| && s[j] == x ==> j in places
  {
    places := [];
    for i := 0 to |s|
      invariant forall m :: 0 <= m < |places| ==> places[m] < i && s[places[m]] == x
      invariant forall m, n :: 0 <= m < n < |places| ==> places[m] < places[n]
      invariant forall j :: 0 <= j < i && s[j] == x ==> j in places
    {
      if s[i] == x {
        places := places + [i];
      }
    }
  }
}
