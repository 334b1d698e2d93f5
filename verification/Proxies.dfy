/** Which proxy each terminal uses, and how assignments survive restarts and dead proxies. */
module Proxies {
  import opened Lists
  import opened Protocol

  /** An address and a port make up the endpoint, so equal endpoints are equal proxies. */
  datatype Proxy = Proxy(address: string, port: int)

  type Path = string

  type Assigned = map<Path, Proxy>

  function Lookup(had: Assigned, path: Path): Option<Proxy> {
    if path in had then Some(had[path]) else None
  }

  function Store(had: Assigned, path: Path, proxy: Option<Proxy>): Assigned {
    if proxy.None? then had - {path} else had[path := proxy.value]
  }

  /** No endpoint serves two terminals. */
  predicate Injective(had: Assigned) {
    forall p, q :: p in had && q in had && had[p] == had[q] ==> p == q
  }

  type Choice = map<Path, Option<Proxy>>

  predicate Holds(choice: Choice, path: Path, proxy: Proxy) { path in choice && choice[path] == Some(proxy) }

  ghost predicate NoneTwice(choice: Choice) {
    forall p, q, x :: Holds(choice, p, x) && Holds(choice, q, x) ==> p == q
  }

  ghost predicate IsTaken(choice: Choice, x: Proxy) { exists p :: Holds(choice, p, x) }

  ghost predicate Taken(choice: Choice, taken: set<Proxy>) {
    forall x :: x in taken <==> IsTaken(choice, x)
  }

  function Free(taken: set<Proxy>): Proxy -> bool { (x: Proxy) => x !in taken }

  function FirstFree(available: seq<Proxy>, taken: set<Proxy>): (r: Option<Proxy>)
    ensures r.Some? ==> r.value in available && r.value !in taken
    ensures r.None? ==> forall x :: x in available ==> x in taken
  {
    var i := First(available, Free(taken));
    FirstFound(available, Free(taken));
    if i < |available| then Some(available[i]) else
      assert forall x :: x in available ==> !Free(taken)(x);
      None
  }

  lemma TakesOne(choice: Choice, taken: set<Proxy>, path: Path, proxy: Option<Proxy>)
    requires path !in choice && Taken(choice, taken) && NoneTwice(choice)
    requires proxy.Some? ==> proxy.value !in taken
    ensures NoneTwice(choice[path := proxy])
    ensures Taken(choice[path := proxy], if proxy.Some? then taken + {proxy.value} else taken)
  {
    var next := choice[path := proxy];
    forall x ensures IsTaken(next, x) <==> x in taken || proxy == Some(x) {
      if IsTaken(choice, x) {
        var p :| Holds(choice, p, x);
        assert Holds(next, p, x);
      }
      if IsTaken(next, x) {
        var p :| Holds(next, p, x);
        assert p != path ==> Holds(choice, p, x);
      }
      if proxy == Some(x) {
        assert Holds(next, path, x);
      }
    }
    forall p, q, x | Holds(next, p, x) && Holds(next, q, x) ensures p == q {
      assert p != path ==> Holds(choice, p, x);
      assert q != path ==> Holds(choice, q, x);
    }
  }

  // The two passes of a load.

  /** The first pass: terminals whose proxy is still listed keep it, the first come first. */
  ghost predicate KeptSoFar(choice: Choice, taken: set<Proxy>, had: Assigned, available: seq<Proxy>, paths: seq<Path>) {
    && Taken(choice, taken) && NoneTwice(choice)
    && (forall p :: p in choice ==> p in paths && Keeps(choice, had, available, p) && ComesFirst(had, paths, p))
    && (forall p :: p in paths && p in had && had[p] in available ==> had[p] in taken)
  }

  /** No terminal listed before this one had the same. */
  predicate ComesFirst(had: Assigned, paths: seq<Path>, path: Path) {
    exists i | 0 <= i < |paths| :: paths[i] == path && forall j | 0 <= j < i :: Lookup(had, paths[j]) != Lookup(had, path)
  }

  lemma FirstStays(had: Assigned, paths: seq<Path>, path: Path, next: Path)
    requires ComesFirst(had, paths, path)
    ensures ComesFirst(had, paths + [next], path)
  {
    var i :| 0 <= i < |paths| && paths[i] == path && forall j | 0 <= j < i :: Lookup(had, paths[j]) != Lookup(had, path);
    assert (paths + [next])[i] == path;
  }

  lemma FirstOfAll(had: Assigned, paths: seq<Path>, p: Path, q: Path)
    requires ComesFirst(had, paths, p) && ComesFirst(had, paths, q) && Lookup(had, p) == Lookup(had, q)
    ensures p == q
  {
    var i :| 0 <= i < |paths| && paths[i] == p && forall j | 0 <= j < i :: Lookup(had, paths[j]) != Lookup(had, p);
    var k :| 0 <= k < |paths| && paths[k] == q && forall j | 0 <= j < k :: Lookup(had, paths[j]) != Lookup(had, q);
    assert i == k;
  }

  lemma NewlyKeptComesFirst(choice: Choice, taken: set<Proxy>, had: Assigned, available: seq<Proxy>, paths: seq<Path>, path: Path)
    requires KeptSoFar(choice, taken, had, available, paths)
    requires path in had && had[path] in available && had[path] !in taken
    ensures ComesFirst(had, paths + [path], path)
  {
    assert (paths + [path])[|paths|] == path;
    forall j | 0 <= j < |paths| ensures Lookup(had, (paths + [path])[j]) != Lookup(had, path) {
      assert paths[j] in paths;
    }
  }

  predicate Keeps(choice: Choice, had: Assigned, available: seq<Proxy>, path: Path)
    requires path in choice
  {
    path in had && choice[path] == Some(had[path]) && had[path] in available
  }

  lemma NothingKept(had: Assigned, available: seq<Proxy>)
    ensures KeptSoFar(map[], {}, had, available, [])
  {
    assert forall x :: !IsTaken(map[], x);
  }

  lemma KeepsOne(choice: Choice, taken: set<Proxy>, had: Assigned, available: seq<Proxy>, paths: seq<Path>, path: Path)
    requires KeptSoFar(choice, taken, had, available, paths)
    ensures if path in had && had[path] in available && had[path] !in taken
            then KeptSoFar(choice[path := Some(had[path])], taken + {had[path]}, had, available, paths + [path])
            else KeptSoFar(choice, taken, had, available, paths + [path])
  {
    forall p | p in choice ensures ComesFirst(had, paths + [path], p) {
      FirstStays(had, paths, p, path);
    }
    if path in had && had[path] in available && had[path] !in taken {
      NewlyKeptComesFirst(choice, taken, had, available, paths, path);
      KeptIsTaken(choice, taken, had, available, paths, path);
      TakesOne(choice, taken, path, Some(had[path]));
      var next := choice[path := Some(had[path])];
      forall p | p in next ensures p in paths + [path] && Keeps(next, had, available, p) {
        if p != path {
          assert Keeps(choice, had, available, p);
        }
      }
    }
  }

  lemma KeptIsTaken(choice: Choice, taken: set<Proxy>, had: Assigned, available: seq<Proxy>, paths: seq<Path>, path: Path)
    requires KeptSoFar(choice, taken, had, available, paths)
    ensures path in choice ==> path in had && had[path] in taken
  {
    if path in choice {
      assert Keeps(choice, had, available, path);
      assert Holds(choice, path, had[path]);
      assert IsTaken(choice, had[path]);
    }
  }

  /** The second pass: the other terminals get what is left, in the order listed. */
  ghost predicate FilledSoFar(choice: Choice, taken: set<Proxy>, kept: Choice, available: seq<Proxy>, paths: seq<Path>) {
    && Taken(choice, taken) && NoneTwice(choice)
    && (forall p :: p in choice <==> p in kept || p in paths)
    && (forall p :: p in kept ==> choice[p] == kept[p])
    && (forall p, x :: Holds(choice, p, x) ==> x in available)
    && (forall p :: p in choice && choice[p].None? ==> forall x :: x in available ==> x in taken)
  }

  lemma FillsOne(choice: Choice, taken: set<Proxy>, kept: Choice, available: seq<Proxy>, paths: seq<Path>, path: Path)
    requires FilledSoFar(choice, taken, kept, available, paths)
    ensures if path in choice then FilledSoFar(choice, taken, kept, available, paths + [path])
            else
              var proxy := FirstFree(available, taken);
              FilledSoFar(choice[path := proxy], if proxy.Some? then taken + {proxy.value} else taken,
                          kept, available, paths + [path])
  {
    if path !in choice {
      var proxy := FirstFree(available, taken);
      TakesOne(choice, taken, path, proxy);
      var next := choice[path := proxy];
      forall p, x | Holds(next, p, x) ensures x in available {
        assert p != path ==> Holds(choice, p, x);
      }
    }
  }

  // The registry.

  /** What a load promises of the assignments it returns. */
  ghost predicate Loaded(choice: Choice, had: Assigned, available: seq<Proxy>, paths: seq<Path>) {
    && (forall p :: p in choice <==> p in paths)
    && NoneTwice(choice)
    && (forall p, x :: Holds(choice, p, x) ==> x in available)
    && (forall p :: p in paths && p in had && had[p] in available ==>
          (Holds(choice, p, had[p]) <==> ComesFirst(had, paths, p)) && KeptBySomeone(choice, had, had[p]))
    && (forall p :: p in choice && choice[p].None? ==> forall x :: x in available ==> IsTaken(choice, x))
  }

  /** A terminal that had this proxy before still has it. */
  ghost predicate KeptBySomeone(choice: Choice, had: Assigned, x: Proxy) {
    exists p :: Holds(choice, p, x) && p in had && had[p] == x
  }

  /** What a load stores gives no endpoint to two terminals, and a terminal that alone had a proxy still listed keeps it. */
  lemma LoadKeepsAssignments(choice: Choice, had: Assigned, available: seq<Proxy>, paths: seq<Path>, stored: Assigned)
    requires Loaded(choice, had, available, paths)
    requires forall p :: Lookup(stored, p) == if p in choice then choice[p] else None
    ensures Injective(stored)
    ensures Injective(had) ==>
              forall path :: path in paths && path in had && had[path] in available ==> Lookup(stored, path) == Some(had[path])
  {
    forall p, q | p in stored && q in stored && stored[p] == stored[q] ensures p == q {
      assert Lookup(stored, p) == choice[p] && Lookup(stored, q) == choice[q];
      assert Holds(choice, p, stored[p]) && Holds(choice, q, stored[p]);
    }
    if Injective(had) {
      forall path | path in paths && path in had && had[path] in available ensures Lookup(stored, path) == Some(had[path]) {
        assert KeptBySomeone(choice, had, had[path]);
        var p :| Holds(choice, p, had[path]) && p in had && had[p] == had[path];
        assert p == path;
      }
    }
  }

  lemma LoadIsComplete(choice: Choice, taken: set<Proxy>, kept: Choice, keptTaken: set<Proxy>,
                       had: Assigned, available: seq<Proxy>, paths: seq<Path>)
    requires KeptSoFar(kept, keptTaken, had, available, paths)
    requires FilledSoFar(choice, taken, kept, available, paths)
    ensures Loaded(choice, had, available, paths)
  {
    forall p | p in paths && p in had && had[p] in available
      ensures (Holds(choice, p, had[p]) <==> ComesFirst(had, paths, p)) && KeptBySomeone(choice, had, had[p])
    {
      assert IsTaken(kept, had[p]);
      var q :| Holds(kept, q, had[p]);
      assert Keeps(kept, had, available, q);
      assert Holds(choice, q, had[p]);
      if ComesFirst(had, paths, p) {
        FirstOfAll(had, paths, p, q);
      }
    }
  }

  class ProxyRegistry {
    var stored: Assigned

    constructor (stored: Assigned)
      ensures this.stored == stored
    {
      this.stored := stored;
    }

    method Load(paths: seq<Path>, available: Option<seq<Proxy>>) returns (choice: Choice)
      modifies this
      ensures forall p :: p in choice <==> p in paths
      ensures available.None? ==> stored == old(stored) && forall p :: p in paths ==> choice[p] == Lookup(stored, p)
      ensures available.Some? ==> Loaded(choice, old(stored), available.value, paths)
      ensures available.Some? ==> forall p :: Lookup(stored, p) == if p in paths then choice[p] else None
      ensures available.Some? ==> Injective(stored)
      ensures available.Some? && Injective(old(stored)) ==>
                forall path :: path in paths && path in old(stored) && old(stored)[path] in available.value ==>
                  Lookup(stored, path) == Lookup(old(stored), path)
    {
      var had := stored;
      if available.None? {
        return map p | p in paths :: Lookup(had, p);
      }
      var kept, keptTaken := KeepValid(had, available.value, paths);
      choice := kept;
      var taken := keptTaken;
      for i := 0 to |paths|
        invariant FilledSoFar(choice, taken, kept, available.value, paths[..i])
        invariant forall p :: Lookup(stored, p) == if p in choice && p !in kept then choice[p] else Lookup(had, p)
      {
        var path := paths[i];
        assert paths[..i + 1] == paths[..i] + [path];
        FillsOne(choice, taken, kept, available.value, paths[..i], path);
        if path in choice {
          continue;
        }
        var proxy := FirstFree(available.value, taken);
        choice := choice[path := proxy];
        if proxy.Some? {
          taken := taken + {proxy.value};
        }
        stored := Store(stored, path, proxy);
      }
      assert paths[..|paths|] == paths;
      LoadIsComplete(choice, taken, kept, keptTaken, had, available.value, paths);
      ForgetOthers(had, paths);
      LoadKeepsAssignments(choice, had, available.value, paths, stored);
    }

    /** Terminals the pool no longer has lose their assignment. */
    method ForgetOthers(had: Assigned, paths: seq<Path>)
      requires forall p :: p in stored && p !in paths ==> p in had
      modifies this
      ensures forall p :: Lookup(stored, p) == if p in paths then old(Lookup(stored, p)) else None
    {
      var gone := set p | p in had && p !in paths;
      while gone != {}
        invariant forall p :: Lookup(stored, p) == if p in paths || p in gone then old(Lookup(stored, p)) else None
        invariant forall p :: p in gone ==> p !in paths
        decreases gone
      {
        var path :| path in gone;
        stored := Store(stored, path, None);
        gone := gone - {path};
      }
    }

    /**
     The terminal gets neither the dead proxy nor one another terminal holds, and none only if the list has no other; no
     other assignment changes.
     */
    method Rotate(path: Path, dead: Option<Proxy>, available: Option<seq<Proxy>>) returns (proxy: Option<Proxy>)
      modifies this
      ensures stored == Store(old(stored), path, proxy) && proxy == Rotated(old(stored), path, dead, available)
      ensures proxy.Some? ==> && available.Some? && proxy.value in available.value && proxy != dead
                              && forall p :: p in old(stored) && p != path ==> old(stored)[p] != proxy.value
      ensures proxy.None? && available.Some? ==>
                forall x :: x in available.value ==> dead == Some(x) || exists p :: p in stored && p != path && stored[p] == x
      ensures Injective(old(stored)) ==> Injective(stored)
    {
      if Injective(stored) { RotateKeepsInjective(stored, path, dead, available); }
      var had := stored;
      if available.None? {
        stored := Store(stored, path, None);
        return None;
      }
      var taken := set p | p in had && p != path :: had[p];
      if dead.Some? {
        taken := taken + {dead.value};
      }
      proxy := FirstFree(available.value, taken);
      stored := Store(stored, path, proxy);
      if proxy.None? {
        forall x | x in available.value && dead != Some(x) ensures exists p :: p in stored && p != path && stored[p] == x {
          var p :| p in had && p != path && had[p] == x;
          assert p in stored && stored[p] == x;
        }
      }
    }
  }

  // Replacing a dead proxy.

  /** The endpoints a rotation must not pick: those of the other terminals and the dead one. */
  function Avoided(had: Assigned, path: Path, dead: Option<Proxy>): set<Proxy> {
    (set p | p in had && p != path :: had[p]) + if dead.Some? then {dead.value} else {}
  }

  function Rotated(had: Assigned, path: Path, dead: Option<Proxy>, available: Option<seq<Proxy>>): Option<Proxy> {
    if available.None? then None else FirstFree(available.value, Avoided(had, path, dead))
  }

  /** Rotations that do not interleave keep every endpoint with one terminal. */
  lemma RotateKeepsInjective(had: Assigned, path: Path, dead: Option<Proxy>, available: Option<seq<Proxy>>)
    requires Injective(had)
    ensures Injective(Store(had, path, Rotated(had, path, dead, available)))
    ensures var r := Rotated(had, path, dead, available);
            r.Some? ==> forall p :: p in had && p != path ==> had[p] != r.value
  {
    var r := Rotated(had, path, dead, available);
    if r.Some? {
      assert r.value !in Avoided(had, path, dead);
    }
  }

  // Two rotations that both read the assignments before either writes; each asks the provider for its own list.

  /** What two such rotations leave stored. */
  function Interleaved(had: Assigned, p: Path, x: Option<Proxy>, q: Path, y: Option<Proxy>): Assigned {
    Store(Store(had, p, x), q, y)
  }

  lemma SamePickCollides(had: Assigned, p: Path, deadP: Option<Proxy>, listP: Option<seq<Proxy>>,
                         q: Path, deadQ: Option<Proxy>, listQ: Option<seq<Proxy>>)
    requires Injective(had) && p != q
    ensures var (x, y) := (Rotated(had, p, deadP, listP), Rotated(had, q, deadQ, listQ));
            Injective(Interleaved(had, p, x, q, y)) <==> x.None? || x != y
  {
    var x, y := Rotated(had, p, deadP, listP), Rotated(had, q, deadQ, listQ);
    RotateKeepsInjective(had, p, deadP, listP);
    RotateKeepsInjective(had, q, deadQ, listQ);
    var after := Interleaved(had, p, x, q, y);
    if x.Some? && x == y {
      assert after[p] == after[q];
    }
  }

  /** This endpoint is the first of a list outside a set. */
  predicate FirstOutside(list: seq<Proxy>, avoided: set<Proxy>, x: Proxy) {
    exists i | 0 <= i < |list| :: list[i] == x && x !in avoided && forall j | 0 <= j < i :: list[j] in avoided
  }

  lemma PickIsFirst(list: seq<Proxy>, avoided: set<Proxy>, x: Proxy)
    ensures FirstFree(list, avoided) == Some(x) <==> FirstOutside(list, avoided, x)
  {
    var i := First(list, Free(avoided));
    FirstFound(list, Free(avoided));
    assert forall j :: 0 <= j < i ==> !Free(avoided)(list[j]);
    if i < |list| {
      assert FirstOutside(list, avoided, list[i]);
    }
    if FirstOutside(list, avoided, x) {
      var k :| 0 <= k < |list| && list[k] == x && x !in avoided && forall j :: 0 <= j < k ==> list[j] in avoided;
      assert Free(avoided)(list[k]);
      assert i == k;
    }
  }

  /** They give two terminals one endpoint exactly if some endpoint is the first each of them may take of its list. */
  lemma InterleavedRotationsCollide(had: Assigned, p: Path, deadP: Option<Proxy>, listP: Option<seq<Proxy>>,
                                    q: Path, deadQ: Option<Proxy>, listQ: Option<seq<Proxy>>)
    requires Injective(had) && p != q
    ensures !Injective(Interleaved(had, p, Rotated(had, p, deadP, listP), q, Rotated(had, q, deadQ, listQ)))
            <==> listP.Some? && listQ.Some?
                 && exists x :: FirstOutside(listP.value, Avoided(had, p, deadP), x)
                                && FirstOutside(listQ.value, Avoided(had, q, deadQ), x)
  {
    SamePickCollides(had, p, deadP, listP, q, deadQ, listQ);
    if listP.Some? && listQ.Some? {
      var pick := Rotated(had, p, deadP, listP);
      if pick.Some? {
        PickIsFirst(listP.value, Avoided(had, p, deadP), pick.value);
        PickIsFirst(listQ.value, Avoided(had, q, deadQ), pick.value);
      }
      if x :| FirstOutside(listP.value, Avoided(had, p, deadP), x) && FirstOutside(listQ.value, Avoided(had, q, deadQ), x) {
        PickIsFirst(listP.value, Avoided(had, p, deadP), x);
        PickIsFirst(listQ.value, Avoided(had, q, deadQ), x);
      }
    }
  }

  /** With one list they collide exactly if its first endpoint that not both avoid is one that neither avoids. */
  lemma CollideOnOneList(had: Assigned, p: Path, deadP: Option<Proxy>, q: Path, deadQ: Option<Proxy>, list: seq<Proxy>)
    requires Injective(had) && p != q
    ensures var (a, b) := (Avoided(had, p, deadP), Avoided(had, q, deadQ));
            var first := FirstFree(list, a * b);
            !Injective(Interleaved(had, p, Rotated(had, p, deadP, Some(list)), q, Rotated(had, q, deadQ, Some(list))))
            <==> first.Some? && first.value !in a + b
  {
    var a, b := Avoided(had, p, deadP), Avoided(had, q, deadQ);
    var first := FirstFree(list, a * b);
    InterleavedRotationsCollide(had, p, deadP, Some(list), q, deadQ, Some(list));
    if first.Some? {
      PickIsFirst(list, a * b, first.value);
      var i :| 0 <= i < |list| && list[i] == first.value && forall j :: 0 <= j < i ==> list[j] in a * b;
      if first.value !in a + b {
        assert FirstOutside(list, a, first.value) && FirstOutside(list, b, first.value);
      }
    }
    if x :| FirstOutside(list, a, x) && FirstOutside(list, b, x) {
      PickIsFirst(list, a, x);
      PickIsFirst(list, b, x);
      FirstOfBoth(list, a, b, x);
    }
  }

  lemma FirstOfBoth(list: seq<Proxy>, a: set<Proxy>, b: set<Proxy>, x: Proxy)
    requires FirstOutside(list, a, x) && FirstOutside(list, b, x)
    ensures FirstFree(list, a * b) == Some(x) && x !in a + b
  {
    var i :| 0 <= i < |list| && list[i] == x && x !in a && forall j :: 0 <= j < i ==> list[j] in a;
    var k :| 0 <= k < |list| && list[k] == x && x !in b && forall j :: 0 <= j < k ==> list[j] in b;
    assert i == k;
    assert FirstOutside(list, a * b, x);
    PickIsFirst(list, a * b, x);
  }

  /** Two terminals that both replace the proxy they hold collide exactly if the list has an endpoint nobody holds. */
  lemma OwnProxiesCollide(had: Assigned, p: Path, q: Path, list: seq<Proxy>)
    requires Injective(had) && p != q
    ensures !Injective(Interleaved(had, p, Rotated(had, p, Lookup(had, p), Some(list)),
                                   q, Rotated(had, q, Lookup(had, q), Some(list))))
            <==> exists x :: x in list && x !in had.Values
  {
    assert Avoided(had, p, Lookup(had, p)) == had.Values;
    assert Avoided(had, q, Lookup(had, q)) == had.Values;
    CollideOnOneList(had, p, Lookup(had, p), q, Lookup(had, q), list);
    assert had.Values * had.Values == had.Values == had.Values + had.Values;
  }

  /** Two bare terminals that are given a proxy at the same time get the same one. */
  lemma TwoTerminalsOneProxy()
    ensures var x := Proxy("10.0.0.1", 8080);
            && Injective(map[])
            && Rotated(map[], "a", None, Some([x])) == Rotated(map[], "b", None, Some([x])) == Some(x)
            && !Injective(Interleaved(map[], "a", Some(x), "b", Some(x)))
  {
    var x := Proxy("10.0.0.1", 8080);
    assert [x][0] == x;
    assert FirstOutside([x], Avoided(map[], "a", None), x) && FirstOutside([x], Avoided(map[], "b", None), x);
    PickIsFirst([x], Avoided(map[], "a", None), x);
    PickIsFirst([x], Avoided(map[], "b", None), x);
    var after := Interleaved(map[], "a", Some(x), "b", Some(x));
    assert "a" != "b" && after["a"] == after["b"];
  }

  method KeepValid(had: Assigned, available: seq<Proxy>, paths: seq<Path>) returns (kept: Choice, taken: set<Proxy>)
    ensures KeptSoFar(kept, taken, had, available, paths)
  {
    kept, taken := map[], {};
    NothingKept(had, available);
    assert paths[..0] == [];
    for i := 0 to |paths|
      invariant KeptSoFar(kept, taken, had, available, paths[..i])
    {
      var path := paths[i];
      assert paths[..i + 1] == paths[..i] + [path];
      KeepsOne(kept, taken, had, available, paths[..i], path);
      if path in had && had[path] in available && had[path] !in taken {
        kept := kept[path := Some(had[path])];
        taken := taken + {had[path]};
      }
    }
    assert paths[..|paths|] == paths;
  }
}
