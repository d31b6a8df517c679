/** Facts about the append-only message lists of the chat components. Each
    notion is defined on the list's last element, so that appending one message
    unfolds it by exactly one step; a lemma beside it gives its meaning over
    indices. */
module Lists {

  /** The number of elements of `s` that satisfy `p`. */
  function Count<T>(s: seq<T>, p: T -> bool): (n: nat)
    ensures n <= |s|
  {
    if s == [] then 0
    else Count(s[..|s| - 1], p) + (if p(s[|s| - 1]) then 1 else 0)
  }

  /** Appending one element adds one to the count exactly when it satisfies `p`. */
  lemma CountAppend<T>(s: seq<T>, x: T, p: T -> bool)
    ensures Count(s + [x], p) == Count(s, p) + (if p(x) then 1 else 0)
  {
    assert (s + [x])[..|s|] == s;
  }

  /** Every element of `s` satisfies `p`. */
  ghost predicate All<T>(s: seq<T>, p: T -> bool) {
    s == [] || (All(s[..|s| - 1], p) && p(s[|s| - 1]))
  }

  lemma AllAppend<T>(s: seq<T>, x: T, p: T -> bool)
    ensures All(s + [x], p) <==> All(s, p) && p(x)
  {
    assert (s + [x])[..|s|] == s;
  }

  /** `All` holds exactly when `p` holds at every index. */
  lemma {:induction false} AllAtEveryIndex<T>(s: seq<T>, p: T -> bool)
    ensures All(s, p) <==> forall i :: 0 <= i < |s| ==> p(s[i])
  {
    if s != [] {
      var init := s[..|s| - 1];
      AllAtEveryIndex(init, p);
      assert forall i :: 0 <= i < |init| ==> init[i] == s[i];
    }
  }

  /** In every prefix of `s`, the elements satisfying `q` are no more than those
      satisfying `p`: each `q`-element can be matched with an earlier `p`-element
      of its own. */
  ghost predicate NeverAhead<T>(s: seq<T>, p: T -> bool, q: T -> bool) {
    && Count(s, q) <= Count(s, p)
    && (s == [] || NeverAhead(s[..|s| - 1], p, q))
  }

  /** Appending keeps `NeverAhead` unless a `q`-element arrives when every
      `p`-element is already matched. */
  lemma NeverAheadAppend<T>(s: seq<T>, x: T, p: T -> bool, q: T -> bool)
    requires NeverAhead(s, p, q)
    requires q(x) && !p(x) ==> Count(s, q) < Count(s, p)
    ensures NeverAhead(s + [x], p, q)
  {
    assert (s + [x])[..|s|] == s;
    CountAppend(s, x, p);
    CountAppend(s, x, q);
  }

  /** `NeverAhead` holds exactly when the count of `q`-elements stays within
      the count of `p`-elements in every prefix. */
  lemma {:induction false} NeverAheadInEveryPrefix<T>(s: seq<T>, p: T -> bool, q: T -> bool)
    ensures NeverAhead(s, p, q) <==> forall k :: 0 <= k <= |s| ==> Count(s[..k], q) <= Count(s[..k], p)
  {
    assert s[..|s|] == s;
    if s != [] {
      var init := s[..|s| - 1];
      NeverAheadInEveryPrefix(init, p, q);
      assert forall k :: 0 <= k <= |init| ==> init[..k] == s[..k];
    }
  }
}
