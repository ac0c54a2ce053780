/** How many elements of a list there are with a property, by their positions. */
module Tally {
  function Number<T>(s: seq<T>, p: T -> bool): nat {
    |set i: nat | i < |s| && p(s[i])|
  }

  lemma NumberSnoc<T>(s: seq<T>, x: T, p: T -> bool)
    ensures Number(s + [x], p) == Number(s, p) + (if p(x) then 1 else 0)
  {
    var before := set i: nat | i < |s| && p(s[i]);
    var after := set i: nat | i < |s + [x]| && p((s + [x])[i]);
    assert after == before + (if p(x) then {|s|} else {});
  }

  lemma {:induction false} NumberCons<T>(x: T, s: seq<T>, p: T -> bool)
    ensures Number([x] + s, p) == Number(s, p) + (if p(x) then 1 else 0)
  {
    if s == [] {
      NumberSnoc([], x, p);
      assert [x] + s == [] + [x];
    } else {
      var init, last := s[..|s| - 1], s[|s| - 1];
      NumberCons(x, init, p);
      NumberSnoc(init, last, p);
      NumberSnoc([x] + init, last, p);
      assert s == init + [last] && [x] + s == ([x] + init) + [last];
    }
  }
}
