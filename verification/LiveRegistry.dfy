/** Register / replace / unregister over time: the registry is determined by
    its operation history, and its order is birth order. */
module LiveRegistry {
  import opened Seqs
  import opened OrderedDict
  import opened Manifests
  import opened ToolIndex

  datatype Op = Register(manifest: ToolManifest, fn: nat, replace: bool) | Unregister(name: string)

  /** The registry after one operation; a rejected registration changes nothing. */
  function Apply(tools: Tools, op: Op): Tools {
    match op
    case Register(m, fn, replace) =>
      if m.name in tools.vals && !replace then tools else tools.Put(m.name, RegisteredTool(m, fn))
    case Unregister(name) => tools.Remove(name)
  }

  function After(h: seq<Op>): Tools {
    if h == [] then Empty() else Apply(After(h[..|h| - 1]), h[|h| - 1])
  }

  predicate Registers(op: Op, n: string) {
    op.Register? && op.manifest.name == n
  }

  /** Operation i is where the current life of `n` began: nothing removes `n`
      after i, and every earlier registration of `n` was removed before i. */
  predicate BornAt(h: seq<Op>, n: string, i: nat) {
    && i < |h| && Registers(h[i], n)
    && (forall j :: i < j < |h| ==> h[j] != Unregister(n))
    && (forall k :: 0 <= k < i && Registers(h[k], n) ==> exists j :: k < j < i && h[j] == Unregister(n))
  }

  /** Operation k supplied what `n` is bound to: it is the birth itself or the
      last replacement since. */
  predicate BoundAt(h: seq<Op>, n: string, k: nat) {
    && k < |h| && Registers(h[k], n) && (h[k].replace || BornAt(h, n, k))
    && (forall m :: k < m < |h| ==> h[m] != Unregister(n) && !(Registers(h[m], n) && h[m].replace))
  }

  function Birth(h: seq<Op>, n: string): (r: Option<nat>)
    ensures r.Some? ==> r.value < |h|
  {
    if h == [] then None else
      var front, op := h[..|h| - 1], h[|h| - 1];
      if op == Unregister(n) then None
      else if Registers(op, n) && Birth(front, n).None? then Some(|h| - 1)
      else Birth(front, n)
  }

  predicate OldestFirst(h: seq<Op>, keys: seq<string>) {
    && (forall x :: 0 <= x < |keys| ==> Birth(h, keys[x]).Some?)
    && (forall x, y :: 0 <= x < y < |keys| ==> Birth(h, keys[x]).value < Birth(h, keys[y]).value)
  }

  lemma {:induction false} FilterKeepsOrder(h: seq<Op>, keys: seq<string>, p: string -> bool)
    requires OldestFirst(h, keys)
    ensures OldestFirst(h, Filter(p, keys))
  {
    hide Birth;
    if keys != [] {
      var k := |keys| - 1;
      FilterKeepsOrder(h, keys[..k], p);
      FilterMembers(p, keys[..k]);
      var r := Filter(p, keys[..k]);
      forall x | 0 <= x < |r| ensures Birth(h, r[x]).value < Birth(h, keys[k]).value {
        assert r[x] in keys[..k];
      }
    }
  }

  lemma {:induction false} AfterIsLive(h: seq<Op>)
    ensures RegistryOk(After(h))
    ensures forall n :: n in After(h).vals <==> Birth(h, n).Some?
  {
    if h != [] { AfterIsLive(h[..|h| - 1]); }
  }

  lemma OthersKeepTheirBirth(h: seq<Op>, op: Op, n: string)
    requires op != Unregister(n)
    requires Registers(op, n) ==> Birth(h, n).Some?
    ensures Birth(h + [op], n) == Birth(h, n)
  {
    assert (h + [op])[..|h|] == h;
  }

  lemma RemovalKeepsOrder(h: seq<Op>, keys: seq<string>, name: string)
    requires OldestFirst(h, keys)
    ensures OldestFirst(h + [Unregister(name)], Filter(OtherThan(name), keys))
  {
    hide Birth;
    FilterKeepsOrder(h, keys, OtherThan(name));
    FilterMembers(OtherThan(name), keys);
    var left := Filter(OtherThan(name), keys);
    forall x | 0 <= x < |left| ensures Birth(h + [Unregister(name)], left[x]) == Birth(h, left[x]) {
      assert left[x] in left;
      OthersKeepTheirBirth(h, Unregister(name), left[x]);
    }
  }

  lemma NewBirth(h: seq<Op>, op: Op, n: string)
    requires Registers(op, n) && Birth(h, n).None?
    ensures Birth(h + [op], n) == Some(|h|)
  {
    assert (h + [op])[..|h|] == h;
  }

  lemma RegistrationKeepsOrder(h: seq<Op>, keys: seq<string>, op: Op)
    requires op.Register? && OldestFirst(h, keys)
    requires Birth(h, op.manifest.name).None? <==> op.manifest.name !in keys
    ensures OldestFirst(h + [op], if op.manifest.name in keys then keys else keys + [op.manifest.name])
  {
    hide Birth;
    forall x | 0 <= x < |keys| ensures Birth(h + [op], keys[x]) == Birth(h, keys[x]) {
      OthersKeepTheirBirth(h, op, keys[x]);
    }
    if op.manifest.name !in keys { NewBirth(h, op, op.manifest.name); }
  }

  lemma {:induction false} AfterIsOrdered(h: seq<Op>)
    ensures OldestFirst(h, After(h).keys)
  {
    if h != [] {
      var front, op := h[..|h| - 1], h[|h| - 1];
      AfterIsOrdered(front);
      AfterIsLive(front);
      assert h == front + [op];
      if op.Unregister? {
        RemovalKeepsOrder(front, After(front).keys, op.name);
      } else {
        assert op.manifest.name in After(front).vals <==> op.manifest.name in After(front).keys;
        RegistrationKeepsOrder(front, After(front).keys, op);
      }
    }
  }

  lemma {:induction false} BirthMeaning(h: seq<Op>, n: string)
    ensures Birth(h, n).Some? ==> BornAt(h, n, Birth(h, n).value)
    ensures Birth(h, n).None? ==> forall k :: 0 <= k < |h| && Registers(h[k], n) ==> exists j :: k < j < |h| && h[j] == Unregister(n)
  {
    if h != [] {
      var front, op := h[..|h| - 1], h[|h| - 1];
      BirthMeaning(front, n);
      assert forall j :: 0 <= j < |front| ==> h[j] == front[j];
      var r := Birth(h, n);
      if op == Unregister(n) {
        assert h[|h| - 1] == Unregister(n);
      } else if r.None? {
        forall k | 0 <= k < |h| && Registers(h[k], n) ensures exists j :: k < j < |h| && h[j] == Unregister(n) {
          assert Registers(front[k], n);
          var j :| k < j < |front| && front[j] == Unregister(n);
          assert h[j] == Unregister(n);
        }
      } else {
        var i := r.value;
        forall k | 0 <= k < i && Registers(h[k], n) ensures exists j :: k < j < i && h[j] == Unregister(n) {
          assert Registers(front[k], n);
          var j :| k < j < i && front[j] == Unregister(n);
          assert h[j] == Unregister(n);
        }
      }
    }
  }

  lemma BornAtIsBirth(h: seq<Op>, n: string, i: nat)
    requires BornAt(h, n, i)
    ensures Birth(h, n) == Some(i)
  {
    BirthMeaning(h, n);
    assert Registers(h[i], n);
  }

  lemma BoundBefore(h: seq<Op>, n: string, k: nat)
    requires Birth(h, n).Some? && BoundAt(h, n, k) && k < |h| - 1
    ensures BoundAt(h[..|h| - 1], n, k) && Birth(h[..|h| - 1], n).Some?
  {
    var front := h[..|h| - 1];
    BirthMeaning(h, n);
    BirthMeaning(front, n);
    assert h[k] == front[k];
    if !h[k].replace { BornAtIsBirth(h, n, k); }
  }

  lemma {:induction false} BindingIsCurrent(h: seq<Op>, n: string, k: nat)
    requires Birth(h, n).Some? && BoundAt(h, n, k)
    ensures n in After(h).vals && After(h).vals[n] == RegisteredTool(h[k].manifest, h[k].fn)
  {
    AfterIsLive(h);
    var front := h[..|h| - 1];
    AfterIsLive(front);
    if k == |h| - 1 {
      if !h[k].replace { BornAtIsBirth(h, n, k); }
    } else {
      BoundBefore(h, n, k);
      assert h[k] == front[k];
      BindingIsCurrent(front, n, k);
      assert h[|h| - 1] != Unregister(n) && !(Registers(h[|h| - 1], n) && h[|h| - 1].replace);
    }
  }

  lemma {:induction false} SomethingIsBound(h: seq<Op>, n: string)
    requires Birth(h, n).Some?
    ensures exists k: nat :: BoundAt(h, n, k)
  {
    var front, op := h[..|h| - 1], h[|h| - 1];
    BirthMeaning(h, n);
    if Registers(op, n) && (op.replace || Birth(front, n).None?) {
      assert BoundAt(h, n, |h| - 1);
    } else {
      SomethingIsBound(front, n);
      var k: nat :| BoundAt(front, n, k);
      assert h[k] == front[k];
      if !h[k].replace { BornAtIsBirth(front, n, k); }
      assert BoundAt(h, n, k);
    }
  }

  /** After any history: a name is live exactly when some registration of it
      was never removed; the order is that of the births, so replacing keeps
      the slot and unregister-then-register moves to the end; and each name is
      bound to its birth or its latest replacement. */
  lemma HistoryTheorem(h: seq<Op>)
    ensures RegistryOk(After(h))
    ensures forall n :: n in After(h).vals <==> exists i: nat :: BornAt(h, n, i)
    ensures forall x, y, i: nat, j: nat ::
              0 <= x < y < |After(h).keys| && BornAt(h, After(h).keys[x], i) && BornAt(h, After(h).keys[y], j) ==> i < j
    ensures forall n, k: nat :: n in After(h).vals && BoundAt(h, n, k) ==>
              After(h).vals[n] == RegisteredTool(h[k].manifest, h[k].fn)
    ensures forall n :: n in After(h).vals ==> exists k: nat :: BoundAt(h, n, k)
  {
    AfterIsLive(h);
    AfterIsOrdered(h);
    forall n ensures n in After(h).vals <==> exists i: nat :: BornAt(h, n, i) {
      BirthMeaning(h, n);
      if i: nat :| BornAt(h, n, i) { BornAtIsBirth(h, n, i); }
    }
    forall n, i: nat | BornAt(h, n, i) ensures Birth(h, n) == Some(i) {
      BornAtIsBirth(h, n, i);
    }
    forall n, k: nat | n in After(h).vals && BoundAt(h, n, k)
      ensures After(h).vals[n] == RegisteredTool(h[k].manifest, h[k].fn)
    {
      BindingIsCurrent(h, n, k);
    }
    forall n | n in After(h).vals ensures exists k: nat :: BoundAt(h, n, k) {
      SomethingIsBound(h, n);
    }
  }

  /** The registry object. `history` is ghost: the class refines `After`. */
  class Registry {
    var tools: Tools
    ghost var history: seq<Op>

    ghost predicate Valid()
      reads this
    {
      tools == After(history) && RegistryOk(tools)
    }

    constructor ()
      ensures Valid() && history == [] && tools == Empty()
    {
      tools := Empty();
      history := [];
    }

    /** `ok` is false where the source raises DuplicateToolError. */
    method RegisterTool(manifest: ToolManifest, fn: nat, replace: bool) returns (ok: bool)
      requires Valid()
      modifies this
      ensures Valid() && history == old(history) + [Register(manifest, fn, replace)]
      ensures ok <==> (manifest.name !in old(tools.vals) || replace)
      ensures !ok ==> tools == old(tools)
      ensures ok ==> tools.vals == old(tools.vals)[manifest.name := RegisteredTool(manifest, fn)]
      ensures manifest.name in old(tools.vals) ==> tools.keys == old(tools.keys)
    {
      history := history + [Register(manifest, fn, replace)];
      assert history[..|history| - 1] == old(history);
      if manifest.name in tools.vals && !replace {
        ok := false;
      } else {
        tools := tools.Put(manifest.name, RegisteredTool(manifest, fn));
        ok := true;
      }
    }

    method UnregisterTool(name: string) returns (present: bool)
      requires Valid()
      modifies this
      ensures Valid() && history == old(history) + [Unregister(name)]
      ensures present <==> name in old(tools.vals)
      ensures tools.vals == old(tools.vals) - {name}
      ensures !present ==> tools == old(tools)
    {
      history := history + [Unregister(name)];
      assert history[..|history| - 1] == old(history);
      present := name in tools.vals;
      if !present { FilterAll(OtherThan(name), tools.keys); }
      tools := tools.Remove(name);
    }
  }
}
