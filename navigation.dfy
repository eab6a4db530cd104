/** `handleNavigation`: the navigation options are two parallel arrays, the
    `active` class of each option and its inline opacity. */
module Navigation {

  /** The number of active options. */
  function CountActive(s: seq<bool>): nat
  {
    if s == [] then 0 else CountActive(s[..|s| - 1]) + (if s[|s| - 1] then 1 else 0)
  }

  lemma {:induction false} NoneActive(s: seq<bool>)
    requires forall j :: 0 <= j < |s| ==> !s[j]
    ensures CountActive(s) == 0
  {
    if s != [] {
      NoneActive(s[..|s| - 1]);
    }
  }

  /** Flags that are set at `i` and nowhere else count exactly one active
      option. */
  lemma {:induction false} SingleActive(s: seq<bool>, i: nat)
    requires i < |s|
    requires forall j :: 0 <= j < |s| ==> s[j] == (j == i)
    ensures CountActive(s) == 1
  {
    var init := s[..|s| - 1];
    if i == |s| - 1 {
      NoneActive(init);
    } else {
      SingleActive(init, i);
    }
  }

  class NavBar {
    const active: array<bool>
    const opacity: array<string>

    ghost predicate Valid()
      reads this
    {
      active.Length == opacity.Length
    }

    /** The options as the page has them. */
    constructor (pageActive: seq<bool>, pageOpacity: seq<string>)
      requires |pageActive| == |pageOpacity|
      ensures Valid() && fresh(active) && fresh(opacity)
      ensures active[..] == pageActive && opacity[..] == pageOpacity
    {
      active := new bool[|pageActive|](j requires 0 <= j < |pageActive| => pageActive[j]);
      opacity := new string[|pageOpacity|](j requires 0 <= j < |pageOpacity| => pageOpacity[j]);
    }

    /** A click on option `i`: every option is reset to inactive with opacity
        0.7, then the clicked one is made active with opacity 1. */
    method HandleNavigation(i: nat)
      requires Valid() && i < active.Length
      modifies active, opacity
      ensures forall j :: 0 <= j < active.Length ==> active[j] == (j == i)
      ensures forall j :: 0 <= j < opacity.Length ==> opacity[j] == if j == i then "1" else "0.7"
      ensures CountActive(active[..]) == 1
    {
      var j := 0;
      while j < active.Length
        invariant 0 <= j <= active.Length
        invariant forall k :: 0 <= k < j ==> !active[k] && opacity[k] == "0.7"
      {
        opacity[j] := "0.7";
        active[j] := false;
        j := j + 1;
      }
      opacity[i] := "1";
      active[i] := true;
      SingleActive(active[..], i);
    }
  }
}
