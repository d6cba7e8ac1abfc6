/** Where a user's history is stored: the data prefix joined with the user id, the path then cleaned. */
module StorageKeys {
  import opened Managers
  import Transparency

  const DATA_PREFIX := "/mysh/data/"

  /** The parts of a path between its slashes. */
  function Split(path: string): (parts: seq<string>)
    ensures parts != []
  {
    if path == "" then [""]
    else
      var rest := Split(path[1..]);
      if path[0] == '/' then [""] + rest else [[path[0]] + rest[0]] + rest[1..]
  }

  /** Empty parts and dots say nothing; two dots take back the part before. */
  function Walk(stack: seq<string>, parts: seq<string>): seq<string>
    decreases parts
  {
    if parts == [] then stack
    else
      var part := parts[0];
      var next :=
        if part == "" || part == "." then stack
        else if part == ".." then (if stack == [] then [] else stack[..|stack| - 1])
        else stack + [part];
      Walk(next, parts[1..])
  }

  function Rooted(parts: seq<string>): string {
    if parts == [] then "" else Rooted(parts[..|parts| - 1]) + "/" + parts[|parts| - 1]
  }

  function Path(stack: seq<string>): string {
    if stack == [] then "/" else Rooted(stack)
  }

  /** `filepath.Join` of the absolute data prefix and `id`; an empty id adds nothing. */
  function StorageKey(id: string): string {
    Path(Walk([], Split(if id == "" then DATA_PREFIX else DATA_PREFIX + "/" + id)))
  }

  /** Where the parts of an id lead from the data directory. */
  function Place(id: string): seq<string> {
    Walk(["mysh", "data"], Split(id))
  }

  /** An id that is a proper file name. */
  predicate PlainId(id: string) {
    '/' !in id && id != "" && id != "." && id != ".."
  }

  lemma {:induction false} SplitWord(w: string)
    requires '/' !in w
    ensures Split(w) == [w]
  {
    if w != "" {
      SplitWord(w[1..]);
      assert [w[0]] + w[1..] == w;
    }
  }

  lemma {:induction false} SplitAtSlash(a: string, b: string)
    requires '/' !in a
    ensures Split(a + "/" + b) == [a] + Split(b)
  {
    if a == "" {
      assert (a + "/" + b)[1..] == b;
    } else {
      assert (a + "/" + b)[1..] == a[1..] + "/" + b;
      SplitAtSlash(a[1..], b);
      assert [a[0]] + a[1..] == a;
    }
  }

  /** A slash separates what stands before it from what stands behind it. */
  lemma {:induction false} SplitJoined(x: string, y: string)
    ensures Split(x + "/" + y) == Split(x) + Split(y)
  {
    if x == "" {
      assert (x + "/" + y)[1..] == y;
    } else {
      assert (x + "/" + y)[1..] == x[1..] + "/" + y;
      SplitJoined(x[1..], y);
    }
  }

  lemma {:induction false} WalkJoined(stack: seq<string>, a: seq<string>, b: seq<string>)
    ensures Walk(stack, a + b) == Walk(Walk(stack, a), b)
    decreases a
  {
    if a == [] {
      assert a + b == b;
    } else {
      assert (a + b)[1..] == a[1..] + b;
      var part := a[0];
      var next :=
        if part == "" || part == "." then stack
        else if part == ".." then (if stack == [] then [] else stack[..|stack| - 1])
        else stack + [part];
      WalkJoined(next, a[1..], b);
    }
  }

  lemma SplitKey(id: string)
    ensures Split(DATA_PREFIX + "/" + id) == ["", "mysh", "data", ""] + Split(id)
  {
    hide Split;
    SplitAtSlash("", id);
    SplitAtSlash("data", "" + "/" + id);
    SplitAtSlash("mysh", "data" + "/" + ("" + "/" + id));
    SplitAtSlash("", "mysh" + "/" + ("data" + "/" + ("" + "/" + id)));
    assert DATA_PREFIX + "/" + id == "" + "/" + ("mysh" + "/" + ("data" + "/" + ("" + "/" + id)));
  }

  lemma SplitPrefix()
    ensures Split(DATA_PREFIX) == ["", "mysh", "data", ""] && Split("") == [""]
  {
    hide Split;
    SplitWord("");
    SplitAtSlash("data", "");
    SplitAtSlash("mysh", "data" + "/" + "");
    SplitAtSlash("", "mysh" + "/" + ("data" + "/" + ""));
    assert DATA_PREFIX == "" + "/" + ("mysh" + "/" + ("data" + "/" + ""));
  }

  lemma WalkSkip(stack: seq<string>, part: string, rest: seq<string>)
    requires part == "" || part == "."
    ensures Walk(stack, [part] + rest) == Walk(stack, rest)
  {
    assert ([part] + rest)[1..] == rest;
  }

  lemma WalkInto(stack: seq<string>, part: string, rest: seq<string>)
    requires part != "" && part != "." && part != ".."
    ensures Walk(stack, [part] + rest) == Walk(stack + [part], rest)
  {
    assert ([part] + rest)[1..] == rest;
  }

  lemma WalkPrefix(rest: seq<string>)
    ensures Walk([], ["", "mysh", "data", ""] + rest) == Walk(["mysh", "data"], rest)
  {
    hide Walk;
    WalkSkip(["mysh", "data"], "", rest);
    WalkInto(["mysh"], "data", [""] + rest);
    WalkInto([], "mysh", ["data"] + ([""] + rest));
    WalkSkip([], "", ["mysh"] + (["data"] + ([""] + rest)));
    assert ["mysh"] + ["data"] == ["mysh", "data"] && [] + ["mysh"] == ["mysh"];
    assert ["", "mysh", "data", ""] + rest == [""] + (["mysh"] + (["data"] + ([""] + rest)));
  }

  lemma KeyIsPlace(id: string)
    ensures StorageKey(id) == Path(Place(id))
  {
    hide Split, Walk, Path;
    if id == "" {
      SplitPrefix();
      WalkPrefix([]);
      WalkSkip(["mysh", "data"], "", []);
      assert ["", "mysh", "data", ""] + [] == ["", "mysh", "data", ""] && [""] + [] == [""];
    } else {
      SplitKey(id);
      WalkPrefix(Split(id));
    }
  }

  // ----- Different places have different keys -----

  ghost predicate NoSlash(parts: seq<string>) {
    forall i :: 0 <= i < |parts| ==> '/' !in parts[i]
  }

  ghost predicate Clean(stack: seq<string>) {
    forall i :: 0 <= i < |stack| ==> '/' !in stack[i] && stack[i] != ""
  }

  lemma {:induction false} SplitHasNoSlash(path: string)
    ensures NoSlash(Split(path))
  {
    if path != "" {
      SplitHasNoSlash(path[1..]);
    }
  }

  lemma {:induction false} WalkIsClean(stack: seq<string>, parts: seq<string>)
    requires Clean(stack) && NoSlash(parts)
    ensures Clean(Walk(stack, parts))
    decreases parts
  {
    if parts != [] {
      var part := parts[0];
      var next :=
        if part == "" || part == "." then stack
        else if part == ".." then (if stack == [] then [] else stack[..|stack| - 1])
        else stack + [part];
      WalkIsClean(next, parts[1..]);
    }
  }

  lemma PlaceIsClean(id: string)
    ensures Clean(Place(id))
  {
    hide Split, Walk;
    SplitHasNoSlash(id);
    WalkIsClean(["mysh", "data"], Split(id));
  }

  /** The last slash of a path separates its last part. */
  lemma LastPart(x: string, p: string, y: string, q: string)
    requires '/' !in p && '/' !in q && x + "/" + p == y + "/" + q
    ensures x == y && p == q
  {
    var k := x + "/" + p;
    assert k[|x|] == '/' && k[|y|] == '/';
    assert forall i :: 0 <= i < |p| ==> k[|x| + 1 + i] == p[i];
    assert forall i :: 0 <= i < |q| ==> k[|y| + 1 + i] == q[i];
    assert |x| == |y|;
    assert x == k[..|x|] && y == k[..|y|] && p == k[|x| + 1..] && q == k[|y| + 1..];
  }

  lemma {:induction false} RootedDiffer(a: seq<string>, b: seq<string>)
    requires Clean(a) && Clean(b) && Rooted(a) == Rooted(b)
    ensures a == b
  {
    if a != [] && b != [] {
      var m, n := |a| - 1, |b| - 1;
      LastPart(Rooted(a[..m]), a[m], Rooted(b[..n]), b[n]);
      RootedDiffer(a[..m], b[..n]);
      assert a == a[..m] + [a[m]] && b == b[..n] + [b[n]];
    }
  }

  lemma RootIsNotRooted(a: seq<string>)
    requires Clean(a)
    ensures Rooted(a) != "/"
  {
    if a != [] {
      assert |a[|a| - 1]| > 0 && |Rooted(a)| > 1;
    }
  }

  /** Two ids share a storage key exactly when their parts lead to the same place. */
  lemma SameKeyExact(a: string, b: string)
    ensures StorageKey(a) == StorageKey(b) <==> Place(a) == Place(b)
  {
    hide StorageKey, Place, Rooted, Clean;
    KeyIsPlace(a);
    KeyIsPlace(b);
    PlaceIsClean(a);
    PlaceIsClean(b);
    RootIsNotRooted(Place(a));
    RootIsNotRooted(Place(b));
    if Rooted(Place(a)) == Rooted(Place(b)) {
      RootedDiffer(Place(a), Place(b));
    }
  }

  /** The users' histories are transparent exactly when no two of their ids lead to the same place. */
  lemma TransparentIffDistinctPlaces(c: Config)
    requires Sound(c) && c.key == StorageKey
    ensures Transparency.Transparent(c) <==>
      forall a, b :: a in c.users && b in c.users && Place(a) == Place(b) ==> a == b
  {
    hide StorageKey, Place, Transparency.Transparent;
    forall a, b
      ensures c.key(a) == c.key(b) <==> Place(a) == Place(b)
    {
      SameKeyExact(a, b);
    }
    Transparency.TransparentIffDistinctKeys(c);
  }

  // ----- Which ids are safe -----

  lemma PlainPlace(id: string)
    requires PlainId(id)
    ensures Place(id) == ["mysh", "data", id]
  {
    SplitWord(id);
    WalkInto(["mysh", "data"], id, []);
    assert [id] + [] == [id] && ["mysh", "data"] + [id] == ["mysh", "data", id];
  }

  /** A plain id is stored right under the prefix. */
  lemma PlainKey(id: string)
    requires PlainId(id)
    ensures StorageKey(id) == DATA_PREFIX + id
  {
    hide Split, Walk, StorageKey, Place;
    KeyIsPlace(id);
    PlainPlace(id);
    SmallPaths(id);
  }

  /** Users with plain ids never share a key, so their histories are transparent. */
  lemma PlainUsersAreTransparent(c: Config)
    requires Sound(c) && c.key == StorageKey && forall id :: id in c.users ==> PlainId(id)
    ensures Transparency.Transparent(c)
  {
    hide Place;
    forall a, b | a in c.users && b in c.users && Place(a) == Place(b)
      ensures a == b
    {
      PlainPlace(a);
      PlainPlace(b);
      assert a == Place(a)[2] && b == Place(b)[2];
    }
    TransparentIffDistinctPlaces(c);
  }

  /** A dot before a name disappears in the cleaning: two users, one history. */
  lemma DottedUserIsNot(c: Config, id: string)
    requires Sound(c) && c.key == StorageKey && id in c.users && "./" + id in c.users
    ensures !Transparency.Transparent(c)
  {
    hide Place;
    DottedPlace(id);
    assert |"./" + id| != |id|;
    TransparentIffDistinctPlaces(c);
  }

  lemma DottedPlace(id: string)
    ensures Place("./" + id) == Place(id)
  {
    hide Split, Walk;
    SplitAtSlash(".", id);
    assert "./" + id == "." + "/" + id;
    WalkSkip(["mysh", "data"], ".", Split(id));
  }

  // ----- The cleaning as laws of ids and keys -----

  /** From a place through the parts of `id`. */
  function From(stack: seq<string>, id: string): seq<string> {
    Walk(stack, Split(id))
  }

  lemma FromJoined(stack: seq<string>, x: string, y: string)
    ensures From(stack, x + "/" + y) == From(From(stack, x), y)
  {
    hide Split, Walk;
    SplitJoined(x, y);
    WalkJoined(stack, Split(x), Split(y));
  }

  lemma FromWord(stack: seq<string>, w: string)
    requires '/' !in w
    ensures From(stack, w) ==
      if w == "" || w == "." then stack
      else if w != ".." then stack + [w]
      else if stack == [] then []
      else stack[..|stack| - 1]
  {
    hide Split;
    SplitWord(w);
    var next :=
      if w == "" || w == "." then stack
      else if w == ".." then (if stack == [] then [] else stack[..|stack| - 1])
      else stack + [w];
    assert [w][1..] == [] && Walk(next, []) == next;
  }

  lemma SamePlaceSameKey(a: string, b: string)
    requires Place(a) == Place(b)
    ensures StorageKey(a) == StorageKey(b)
  {
    hide StorageKey, Place;
    SameKeyExact(a, b);
  }

  /** Two dots take back the name before them. */
  lemma UpTakesBack(x: string, p: string, y: string)
    requires PlainId(p)
    ensures StorageKey(x + "/" + p + "/../" + y) == StorageKey(x + "/" + y)
  {
    hide From, StorageKey, Place;
    var top := ["mysh", "data"];
    assert x + "/" + p + "/../" + y == x + "/" + (p + "/" + (".." + "/" + y));
    FromJoined(top, x, p + "/" + (".." + "/" + y));
    FromJoined(From(top, x), p, ".." + "/" + y);
    FromWord(From(top, x), p);
    FromJoined(From(top, x) + [p], "..", y);
    FromWord(From(top, x) + [p], "..");
    FromJoined(top, x, y);
    PlaceIsFrom(x + "/" + p + "/../" + y);
    PlaceIsFrom(x + "/" + y);
    SamePlaceSameKey(x + "/" + p + "/../" + y, x + "/" + y);
  }

  lemma PlaceIsFrom(id: string)
    ensures Place(id) == From(["mysh", "data"], id)
  {
  }

  /** A dot, or nothing, between two slashes says nothing. */
  lemma DotSaysNothing(x: string, y: string)
    ensures StorageKey(x + "/./" + y) == StorageKey(x + "/" + y) == StorageKey(x + "//" + y)
  {
    hide From, StorageKey, Place;
    var top := ["mysh", "data"];
    assert x + "/./" + y == x + "/" + ("." + "/" + y) && x + "//" + y == x + "/" + ("" + "/" + y);
    FromJoined(top, x, "." + "/" + y);
    FromJoined(top, x, "" + "/" + y);
    FromJoined(top, x, y);
    FromJoined(From(top, x), ".", y);
    FromJoined(From(top, x), "", y);
    FromWord(From(top, x), ".");
    FromWord(From(top, x), "");
    PlaceIsFrom(x + "/./" + y);
    PlaceIsFrom(x + "//" + y);
    PlaceIsFrom(x + "/" + y);
    SamePlaceSameKey(x + "/./" + y, x + "/" + y);
    SamePlaceSameKey(x + "//" + y, x + "/" + y);
  }

  /** A name behind a slash is one more part of the key. */
  lemma NameGoesDeeper(x: string, p: string)
    requires PlainId(p)
    ensures StorageKey(x + "/" + p) == (if StorageKey(x) == "/" then "" else StorageKey(x)) + "/" + p
  {
    hide From, StorageKey, Place, Rooted, Clean;
    FromJoined(["mysh", "data"], x, p);
    FromWord(From(["mysh", "data"], x), p);
    PlaceIsFrom(x);
    PlaceIsFrom(x + "/" + p);
    KeyIsPlace(x);
    KeyIsPlace(x + "/" + p);
    PlaceIsClean(x);
    RootIsNotRooted(Place(x));
    RootedSnoc(Place(x), p);
  }

  lemma RootedSnoc(stack: seq<string>, p: string)
    ensures Rooted(stack + [p]) == Rooted(stack) + "/" + p && Rooted([]) == ""
  {
    assert (stack + [p])[..|stack|] == stack;
  }

  /** `n` times two dots and a slash. */
  function Ups(n: nat): string {
    if n == 0 then "" else "../" + Ups(n - 1)
  }

  lemma {:induction false} FromUps(stack: seq<string>, n: nat, y: string)
    ensures From(stack, Ups(n) + y) == From(if n <= |stack| then stack[..|stack| - n] else [], y)
    decreases n
  {
    hide From;
    if n == 0 {
      assert Ups(0) + y == y && stack[..|stack|] == stack;
    } else {
      var up := if stack == [] then [] else stack[..|stack| - 1];
      assert Ups(n) + y == ".." + "/" + (Ups(n - 1) + y);
      FromJoined(stack, "..", Ups(n - 1) + y);
      FromWord(stack, "..");
      FromUps(up, n - 1, y);
      if 1 <= n <= |stack| {
        assert up[..|up| - (n - 1)] == stack[..|stack| - n];
      }
    }
  }

  /** An id that goes up leaves the data directory, and stays at the root once it is there. */
  lemma UpLeavesData(n: nat, p: string)
    requires PlainId(p)
    ensures StorageKey(Ups(n) + p) == (if n == 0 then "/mysh/data/" else if n == 1 then "/mysh/" else "/") + p
    ensures n >= 2 ==> StorageKey(Ups(n)) == "/"
    ensures StorageKey("../" + p) == "/mysh/" + p && StorageKey("../../" + p) == "/" + p
  {
    UpsKey(n, p);
    UpsKey(1, p);
    UpsKey(2, p);
    assert Ups(1) + p == "../" + p && Ups(2) + p == "../../" + p;
  }

  lemma UpsKey(n: nat, p: string)
    requires PlainId(p)
    ensures StorageKey(Ups(n) + p) == (if n == 0 then "/mysh/data/" else if n == 1 then "/mysh/" else "/") + p
    ensures n >= 2 ==> StorageKey(Ups(n)) == "/"
  {
    hide From, StorageKey, Place, Path, Ups;
    UpsPlace(n, p);
    UpsPlace(n, "");
    var up := UpFromData(n);
    FromWord(up, p);
    FromWord(up, "");
    KeyIsPlace(Ups(n) + p);
    KeyIsPlace(Ups(n));
    assert Ups(n) + "" == Ups(n);
    SmallPaths(p);
    assert ["mysh", "data"] + [p] == ["mysh", "data", p] && ["mysh"] + [p] == ["mysh", p] && [] + [p] == [p];
  }

  function UpFromData(n: nat): seq<string> {
    if n == 0 then ["mysh", "data"] else if n == 1 then ["mysh"] else []
  }

  lemma UpsPlace(n: nat, y: string)
    ensures Place(Ups(n) + y) == From(UpFromData(n), y)
  {
    hide From, Place;
    var top := ["mysh", "data"];
    assert n <= 2 ==> UpFromData(n) == top[..2 - n];
    FromUps(top, n, y);
    PlaceIsFrom(Ups(n) + y);
  }

  lemma SmallPaths(p: string)
    ensures Path(["mysh", "data", p]) == "/mysh/data/" + p && Path(["mysh", p]) == "/mysh/" + p && Path([p]) == "/" + p
    ensures Path([]) == "/"
  {
    hide Rooted;
    RootedSnoc([], p);
    RootedSnoc([], "mysh");
    RootedSnoc(["mysh"], p);
    RootedSnoc(["mysh"], "data");
    RootedSnoc(["mysh", "data"], p);
    assert [] + [p] == [p] && [] + ["mysh"] == ["mysh"] && ["mysh"] + [p] == ["mysh", p];
    assert ["mysh"] + ["data"] == ["mysh", "data"] && ["mysh", "data"] + [p] == ["mysh", "data", p];
  }

  /** A name that is taken back disappears as well: two users, one history. */
  lemma UpUserIsNot(c: Config, a: string, id: string)
    requires Sound(c) && c.key == StorageKey && PlainId(a) && id in c.users && a + "/../" + id in c.users
    ensures !Transparency.Transparent(c)
  {
    hide From, Place;
    var top, b := ["mysh", "data"], a + "/../" + id;
    assert b == a + "/" + (".." + "/" + id);
    FromJoined(top, a, ".." + "/" + id);
    FromWord(top, a);
    FromJoined(top + [a], "..", id);
    FromWord(top + [a], "..");
    PlaceIsFrom(b);
    PlaceIsFrom(id);
    assert |b| != |id|;
    TransparentIffDistinctPlaces(c);
  }
}
