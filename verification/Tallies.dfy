/** Weights of the members of a sequence, added up. */
module Tallies {
  function Tally<T>(s: seq<T>, weigh: T -> nat): nat {
    if s == [] then 0 else weigh(s[0]) + Tally(s[1..], weigh)
  }

  lemma {:induction false} TallyUpdate<T>(s: seq<T>, t: nat, x: T, weigh: T -> nat)
    requires t < |s|
    ensures Tally(s[t := x], weigh) == Tally(s, weigh) - weigh(s[t]) + weigh(x)
  {
    if t > 0 {
      assert s[t := x][1..] == s[1..][t - 1 := x];
      TallyUpdate(s[1..], t - 1, x, weigh);
    }
  }

  lemma {:induction false} TallyAppend<T>(s: seq<T>, x: T, weigh: T -> nat)
    ensures Tally(s + [x], weigh) == Tally(s, weigh) + weigh(x)
  {
    if s == [] {
      assert [] + [x] == [x] && [x][1..] == [];
    } else {
      assert (s + [x])[1..] == s[1..] + [x];
      TallyAppend(s[1..], x, weigh);
    }
  }

  lemma {:induction false} TallyAtLeast<T>(s: seq<T>, t: nat, weigh: T -> nat)
    requires t < |s|
    ensures Tally(s, weigh) >= weigh(s[t])
  {
    if t > 0 {
      TallyAtLeast(s[1..], t - 1, weigh);
    }
  }

  lemma {:induction false} TallyTwo<T>(s: seq<T>, t: nat, u: nat, weigh: T -> nat)
    requires t < u < |s|
    ensures Tally(s, weigh) >= weigh(s[t]) + weigh(s[u])
  {
    if t > 0 {
      TallyTwo(s[1..], t - 1, u - 1, weigh);
    } else {
      TallyAtLeast(s[1..], u - 1, weigh);
    }
  }

  lemma {:induction false} TallyZero<T>(s: seq<T>, weigh: T -> nat)
    requires forall t :: 0 <= t < |s| ==> weigh(s[t]) == 0
    ensures Tally(s, weigh) == 0
  {
    if s != [] {
      TallyZero(s[1..], weigh);
    }
  }

  lemma {:induction false} TallyPositive<T>(s: seq<T>, weigh: T -> nat) returns (t: nat)
    requires Tally(s, weigh) > 0
    ensures t < |s| && weigh(s[t]) > 0
  {
    if weigh(s[0]) > 0 {
      t := 0;
    } else {
      var u := TallyPositive(s[1..], weigh);
      t := u + 1;
    }
  }
}
