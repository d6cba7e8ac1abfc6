/** What a recorder is meant to hold: the newest distinct commands, newest first, up to a capacity. */
module Histories {
  import opened Sequences

  predicate History(h: seq<string>, capacity: nat) {
    NoDup(h) && |h| <= capacity && "" !in h
  }

  /** One recorded command; the empty command is refused. */
  function Record(h: seq<string>, capacity: nat, s: string): (r: seq<string>)
    requires capacity >= 1
    ensures s == "" ==> r == h
    ensures s != "" ==> |r| > 0 && r[0] == s
  {
    if s == "" then h else Take([s] + Without(h, s), capacity)
  }

  /** Commands recorded one after the other, oldest first. */
  function RecordAll(h: seq<string>, capacity: nat, ss: seq<string>): (r: seq<string>)
    requires capacity >= 1
  {
    if ss == [] then h else Record(RecordAll(h, capacity, ss[..|ss| - 1]), capacity, ss[|ss| - 1])
  }

  /** The commands that are not empty, read newest to oldest. */
  function Backwards(ss: seq<string>): (r: seq<string>) {
    if ss == [] then []
    else
      var s, older := ss[|ss| - 1], Backwards(ss[..|ss| - 1]);
      if s == "" then older else [s] + older
  }

  /** The commands of `ss` and then those of `h`, newest first, each only where it is newest. */
  function NewestFirst(h: seq<string>, ss: seq<string>): seq<string> {
    Dedup(Backwards(ss) + h)
  }

  lemma RecordKeepsHistory(h: seq<string>, capacity: nat, s: string)
    requires capacity >= 1 && History(h, capacity)
    ensures History(Record(h, capacity, s), capacity)
  {
    WithoutNoDup(h, s);
  }

  lemma {:induction false} RecordAllKeepsHistory(h: seq<string>, capacity: nat, ss: seq<string>)
    requires capacity >= 1 && History(h, capacity)
    ensures History(RecordAll(h, capacity, ss), capacity)
  {
    if ss != [] {
      RecordAllKeepsHistory(h, capacity, ss[..|ss| - 1]);
      RecordKeepsHistory(RecordAll(h, capacity, ss[..|ss| - 1]), capacity, ss[|ss| - 1]);
    }
  }

  lemma {:induction false} RecordAllConcat(h: seq<string>, capacity: nat, a: seq<string>, b: seq<string>)
    requires capacity >= 1
    ensures RecordAll(h, capacity, a + b) == RecordAll(RecordAll(h, capacity, a), capacity, b)
  {
    if b == [] {
      assert a + b == a;
    } else {
      assert (a + b)[..|a + b| - 1] == a + b[..|b| - 1];
      RecordAllConcat(h, capacity, a, b[..|b| - 1]);
    }
  }

  lemma RecordOnPrefix(d: seq<string>, capacity: nat, s: string)
    requires capacity >= 1 && s != "" && NoDup(d)
    ensures Record(Take(d, capacity), capacity, s) == Take([s] + Without(d, s), capacity)
  {
    hide Without;
    TakeWithout(d, s, capacity - 1);
    assert Record(Take(d, capacity), capacity, s) == [s] + Take(Without(Take(d, capacity), s), capacity - 1);
    assert Take([s] + Without(d, s), capacity) == [s] + Take(Without(d, s), capacity - 1);
  }

  /** The stack theorem: incremental eviction keeps exactly the newest distinct commands. */
  lemma {:induction false} StackTheorem(h: seq<string>, capacity: nat, ss: seq<string>)
    requires capacity >= 1 && History(h, capacity)
    ensures RecordAll(h, capacity, ss) == Take(NewestFirst(h, ss), capacity)
  {
    if ss == [] {
      assert Backwards(ss) + h == h;
      DedupFixed(h);
    } else {
      var before, s := ss[..|ss| - 1], ss[|ss| - 1];
      StackTheorem(h, capacity, before);
      if s != "" {
        var newest := Backwards(before) + h;
        assert Backwards(ss) + h == [s] + newest;
        assert ([s] + newest)[1..] == newest;
        DedupNoDup(newest);
        RecordOnPrefix(Dedup(newest), capacity, s);
      }
    }
  }

  /** A smaller recorder lists a prefix of what a larger one lists on the same commands. */
  lemma SmallerIsPrefix(small: nat, large: nat, ss: seq<string>)
    requires 1 <= small <= large
    ensures RecordAll([], small, ss) == Take(RecordAll([], large, ss), small)
    ensures RecordAll([], small, ss) <= RecordAll([], large, ss)
  {
    StackTheorem([], small, ss);
    StackTheorem([], large, ss);
  }

  /** The part of a stored list that a reload reaches: it works backwards and stops at an empty string. */
  function Loadable(stored: seq<string>): (r: seq<string>)
    ensures "" !in r
    ensures "" !in stored ==> r == stored
  {
    if stored == [] || stored[|stored| - 1] == "" then []
    else Loadable(stored[..|stored| - 1]) + [stored[|stored| - 1]]
  }

  function Loaded(stored: seq<string>, capacity: nat): seq<string> {
    Take(Dedup(Loadable(stored)), capacity)
  }

  lemma LoadedIsHistory(stored: seq<string>, capacity: nat)
    ensures History(Loaded(stored, capacity), capacity)
  {
    DedupNoDup(Loadable(stored));
  }

  lemma {:induction false} BackwardsReverse(ss: seq<string>)
    requires "" !in ss
    ensures Backwards(Reverse(ss)) == ss
  {
    if ss != [] {
      assert Reverse(ss)[..|ss| - 1] == Reverse(ss[1..]);
      BackwardsReverse(ss[1..]);
    }
  }

  /** Recording the reachable part oldest first, which is what the reload loop does, gives `Loaded`. */
  lemma ReloadIsLoaded(stored: seq<string>, capacity: nat)
    requires capacity >= 1
    ensures RecordAll([], capacity, Reverse(Loadable(stored))) == Loaded(stored, capacity)
  {
    var part := Loadable(stored);
    StackTheorem([], capacity, Reverse(part));
    BackwardsReverse(part);
    assert Backwards(Reverse(part)) + [] == part;
  }

  /** What was saved comes back unchanged. */
  lemma RoundTrip(h: seq<string>, capacity: nat)
    requires History(h, capacity)
    ensures Loaded(h, capacity) == h
  {
    DedupFixed(h);
  }

  predicate OccursAt(s: string, q: string, i: nat) {
    i + |q| <= |s| && s[i..i + |q|] == q
  }

  predicate Occurs(s: string, q: string) {
    exists i :: 0 <= i <= |s| && OccursAt(s, q, i)
  }

  predicate Matches(s: string, q: string) {
    q != "" && Occurs(s, q)
  }

  function Matcher(q: string): string -> bool {
    s => Matches(s, q)
  }

  /** The search answer: the commands of the history that contain the query, in history order. */
  function Answer(h: seq<string>, q: string): (r: seq<string>)
    ensures forall s :: s in r <==> s in h && Matches(s, q)
  {
    Filter(h, Matcher(q))
  }

  lemma {:induction false} EmptyQuery(h: seq<string>)
    ensures Answer(h, "") == []
  {
    if h != [] {
      EmptyQuery(h[1..]);
    }
  }
}
