/** Identifiers, values that may be missing, and looking things up by a key. */
module Options {

  /** A name, a UID or a node. */
  type Id = nat

  datatype Option<+T> = None | Some(value: T)

  /** The first element with the key, or -1. */
  function FirstWith<T>(s: seq<T>, key: T -> nat, n: nat): (k: int)
    ensures -1 <= k < |s|
    ensures k >= 0 ==> key(s[k]) == n && forall i :: 0 <= i < k ==> key(s[i]) != n
    ensures k < 0 ==> forall i :: 0 <= i < |s| ==> key(s[i]) != n
  {
    if s == [] then -1
    else if key(s[0]) == n then 0
    else var k := FirstWith(s[1..], key, n); if k < 0 then -1 else k + 1
  }

  /** The tail from i, as a loop over the list meets it. */
  lemma Tail<T>(s: seq<T>, i: nat)
    requires i < |s|
    ensures s[i..] != [] && s[i..][0] == s[i] && s[i..][1..] == s[i + 1..]
  {
  }

  lemma Associates<T>(a: seq<T>, b: seq<T>, c: seq<T>)
    ensures a + b + c == a + (b + c)
  {
  }
}
