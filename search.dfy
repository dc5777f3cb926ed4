/** The two array searches the scan is built from, over any record type whose
    key is given by `key`: `Array.prototype.find` (the first element whose key
    equals `id`) and `Array.prototype.filter` (every such element, in order). */
module Search {
  import opened Records

  /** `s.find(x => key(x) === id)`: the first element with key `id`, if any. */
  function FirstMatch<T>(s: seq<T>, key: T -> string, id: string): (r: Option<T>)
    ensures r.None? <==> forall i :: 0 <= i < |s| ==> key(s[i]) != id
    ensures r.Some? ==> exists i :: 0 <= i < |s| && s[i] == r.value && key(s[i]) == id &&
                                    forall j :: 0 <= j < i ==> key(s[j]) != id
  {
    if s == [] then None
    else if key(s[0]) == id then Some(s[0])
    else FirstMatch(s[1..], key, id)
  }

  /** `s.filter(x => key(x) === id)`: every element with key `id`, in order. */
  function Matching<T>(s: seq<T>, key: T -> string, id: string): (r: seq<T>)
    ensures |r| <= |s|
    ensures r == [] <==> forall i :: 0 <= i < |s| ==> key(s[i]) != id
    ensures forall k :: 0 <= k < |r| ==> key(r[k]) == id
  {
    if s == [] then []
    else if key(s[0]) == id then [s[0]] + Matching(s[1..], key, id)
    else Matching(s[1..], key, id)
  }

  /** An element is kept by the filter exactly when it is in `s` with key `id`. */
  lemma {:induction false} MatchingMembers<T>(s: seq<T>, key: T -> string, id: string, x: T)
    ensures x in Matching(s, key, id) <==> x in s && key(x) == id
  {
    if s != [] {
      MatchingMembers(s[1..], key, id, x);
      assert x in s <==> x == s[0] || x in s[1..];
    }
  }

  /** The first match is the same whether found by `find` or as the head of
      `filter`: `find` returns `filter(...)[0]`. */
  lemma {:induction false} FirstMatchIsHeadOfMatching<T>(s: seq<T>, key: T -> string, id: string)
    ensures FirstMatch(s, key, id) == if Matching(s, key, id) == [] then None
                                      else Some(Matching(s, key, id)[0])
  {
    if s != [] && key(s[0]) != id {
      FirstMatchIsHeadOfMatching(s[1..], key, id);
    }
  }

  /** Filtering distributes over concatenation: the matches of `a + b` are the
      matches of `a` followed by those of `b`, so insertion order is kept. */
  lemma {:induction false} MatchingConcat<T>(a: seq<T>, b: seq<T>, key: T -> string, id: string)
    ensures Matching(a + b, key, id) == Matching(a, key, id) + Matching(b, key, id)
  {
    if a == [] {
      assert a + b == b;
    } else {
      assert (a + b)[1..] == a[1..] + b;
      MatchingConcat(a[1..], b, key, id);
    }
  }

  /** Appending one element adds it at the end of the matches exactly when its
      key is `id`. */
  lemma MatchingAppend<T>(s: seq<T>, x: T, key: T -> string, id: string)
    ensures Matching(s + [x], key, id) == Matching(s, key, id) + (if key(x) == id then [x] else [])
  {
    MatchingConcat(s, [x], key, id);
  }

  /** Appending one element changes the first match only when there was none
      before and the new element has key `id`: a later duplicate never wins. */
  lemma {:induction false} FirstMatchAppend<T>(s: seq<T>, x: T, key: T -> string, id: string)
    ensures FirstMatch(s + [x], key, id) ==
              if FirstMatch(s, key, id).Some? then FirstMatch(s, key, id)
              else if key(x) == id then Some(x)
              else None
  {
    if s == [] {
      assert s + [x] == [x];
    } else {
      assert (s + [x])[1..] == s[1..] + [x];
      FirstMatchAppend(s[1..], x, key, id);
    }
  }
}
