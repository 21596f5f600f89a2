// What several components share.
module Common {
  // None stands for a failed CHECK, a LOG(FATAL) or undefined behaviour.
  datatype Option<+T> = None | Some(value: T)

  // A sequence without its element at position k.
  function Without<T>(s: seq<T>, k: nat): seq<T>
    requires k < |s|
  {
    s[..k] + s[k + 1..]
  }

  lemma WithoutElements<T>(s: seq<T>, k: nat)
    requires k < |s|
    ensures multiset(s) == multiset(Without(s, k)) + multiset{s[k]}
  {
    assert s == s[..k] + [s[k]] + s[k + 1..];
  }

  // The numbers 0, 1, ..., n - 1.
  function UpTo(n: nat): seq<nat> { if n == 0 then [] else UpTo(n - 1) + [n - 1] }
}
