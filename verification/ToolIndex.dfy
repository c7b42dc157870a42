/** What the registry answers (src/orchestrator/registry.py), as functions of its
    ordered dict: capability lookup and the planner catalog. */
module ToolIndex {
  import opened Seqs
  import opened OrderedDict
  import opened Manifests

  type Tools = Dict<string, RegisteredTool>

  predicate RegistryOk(tools: Tools) {
    tools.Valid() && forall n :: n in tools.vals ==> tools.vals[n].manifest.name == n
  }

  // ----- find_by_capability

  function Offers(cap: string): RegisteredTool -> bool {
    (t: RegisteredTool) => cap in t.manifest.capabilities
  }

  function HasPriority(p: int): RegisteredTool -> bool {
    (t: RegisteredTool) => t.manifest.priority == p
  }

  /** Python's stable sort with `reverse=True`: a later tool goes after every
      earlier one of the same priority. */
  function InsertStable(s: seq<RegisteredTool>, t: RegisteredTool): seq<RegisteredTool> {
    if s == [] then [t] else
      var k := |s| - 1;
      if s[k].manifest.priority >= t.manifest.priority then s + [t]
      else InsertStable(s[..k], t) + [s[k]]
  }

  function SortByPriority(s: seq<RegisteredTool>): seq<RegisteredTool> {
    if s == [] then [] else
      var k := |s| - 1;
      InsertStable(SortByPriority(s[..k]), s[k])
  }

  function FindByCapability(tools: Tools, cap: string): (r: seq<RegisteredTool>)
    requires tools.Valid()
  {
    SortByPriority(Filter(Offers(cap), tools.Values()))
  }

  predicate Descending(s: seq<RegisteredTool>) {
    forall i, j :: 0 <= i < j < |s| ==> s[i].manifest.priority >= s[j].manifest.priority
  }

  lemma {:induction false} InsertPermutes(s: seq<RegisteredTool>, t: RegisteredTool)
    ensures multiset(InsertStable(s, t)) == multiset(s) + multiset{t}
    ensures forall x :: x in InsertStable(s, t) <==> x in s || x == t
  {
    if s != [] {
      var k := |s| - 1;
      assert s == s[..k] + [s[k]];
      InsertPermutes(s[..k], t);
    }
  }

  lemma {:induction false} SortPermutes(s: seq<RegisteredTool>)
    ensures multiset(SortByPriority(s)) == multiset(s)
    ensures |SortByPriority(s)| == |s|
    ensures forall x :: x in SortByPriority(s) <==> x in s
  {
    if s != [] {
      var k := |s| - 1;
      assert s == s[..k] + [s[k]];
      SortPermutes(s[..k]);
      InsertPermutes(SortByPriority(s[..k]), s[k]);
    }
    assert |SortByPriority(s)| == |multiset(SortByPriority(s))|;
  }

  lemma {:induction false} InsertDescends(s: seq<RegisteredTool>, t: RegisteredTool)
    requires Descending(s)
    ensures Descending(InsertStable(s, t))
  {
    if s != [] && s[|s| - 1].manifest.priority < t.manifest.priority {
      var front, last := s[..|s| - 1], s[|s| - 1];
      InsertDescends(front, t);
      InsertPermutes(front, t);
      var r := InsertStable(front, t);
      forall i | 0 <= i < |r| ensures r[i].manifest.priority >= last.manifest.priority {
        assert r[i] == t || r[i] in front;
      }
    }
  }

  lemma {:induction false} InsertIsStable(s: seq<RegisteredTool>, t: RegisteredTool, p: int)
    ensures Filter(HasPriority(p), InsertStable(s, t)) == Filter(HasPriority(p), s + [t])
  {
    var q := HasPriority(p);
    if s != [] && s[|s| - 1].manifest.priority < t.manifest.priority {
      var front, last := s[..|s| - 1], s[|s| - 1];
      InsertIsStable(front, t, p);
      calc {
        Filter(q, InsertStable(s, t));
        { FilterSnoc(q, InsertStable(front, t), last); }
        Filter(q, front + [t]) + (if q(last) then [last] else []);
        { FilterSnoc(q, front, t); }
        Filter(q, front) + (if q(t) then [t] else []) + (if q(last) then [last] else []);
        { assert !q(last) || !q(t); }
        Filter(q, front) + (if q(last) then [last] else []) + (if q(t) then [t] else []);
        Filter(q, s) + (if q(t) then [t] else []);
        { FilterSnoc(q, s, t); }
        Filter(q, s + [t]);
      }
    }
  }

  /** The sort is a stable, descending permutation. */
  lemma {:induction false} SortIsStable(s: seq<RegisteredTool>, p: int)
    ensures Descending(SortByPriority(s))
    ensures multiset(SortByPriority(s)) == multiset(s)
    ensures Filter(HasPriority(p), SortByPriority(s)) == Filter(HasPriority(p), s)
  {
    SortPermutes(s);
    if s != [] {
      var k := |s| - 1;
      assert s == s[..k] + [s[k]];
      SortIsStable(s[..k], p);
      InsertDescends(SortByPriority(s[..k]), s[k]);
      InsertIsStable(SortByPriority(s[..k]), s[k], p);
      FilterSnoc(HasPriority(p), SortByPriority(s[..k]), s[k]);
      FilterSnoc(HasPriority(p), s[..k], s[k]);
    }
  }

  lemma LastClassNonempty(s: seq<RegisteredTool>)
    ensures s != [] ==> Filter(HasPriority(s[|s| - 1].manifest.priority), s) != []
  {
    if s != [] { OwnClassNonempty(s, |s| - 1); }
  }

  lemma LastIsLeast(x: RegisteredTool, s: seq<RegisteredTool>, p: int)
    requires s != [] && Descending(s) && x.manifest.priority == p
    requires x in Filter(HasPriority(p), s)
    ensures p >= s[|s| - 1].manifest.priority
  {
    FilterMembers(HasPriority(p), s);
    assert x in s;
  }

  lemma LastElementsAgree(a: seq<RegisteredTool>, b: seq<RegisteredTool>, p: int, q: int)
    requires a != [] && b != [] && Descending(a) && Descending(b)
    requires a[|a| - 1].manifest.priority == p && b[|b| - 1].manifest.priority == q
    requires Filter(HasPriority(p), a) == Filter(HasPriority(p), b)
    requires Filter(HasPriority(q), a) == Filter(HasPriority(q), b)
    ensures a[|a| - 1] == b[|b| - 1]
  {
    FilterDropLast(HasPriority(p), a);
    FilterDropLast(HasPriority(q), b);
    LastIsLeast(a[|a| - 1], b, p);
    LastIsLeast(b[|b| - 1], a, q);
  }

  /** And that pins it down: two descending sequences that list each priority
      class in the same order are the same sequence. */
  lemma {:induction false} StableSortIsUnique(a: seq<RegisteredTool>, b: seq<RegisteredTool>)
    requires Descending(a) && Descending(b)
    requires forall p :: Filter(HasPriority(p), a) == Filter(HasPriority(p), b)
    ensures a == b
  {
    LastClassNonempty(a);
    LastClassNonempty(b);
    if a == [] || b == [] {
    } else {
      LastElementsAgree(a, b, a[|a| - 1].manifest.priority, b[|b| - 1].manifest.priority);
      var fa, fb := a[..|a| - 1], b[..|b| - 1];
      forall p ensures Filter(HasPriority(p), fa) == Filter(HasPriority(p), fb) {
        FilterDropLast(HasPriority(p), a);
        FilterDropLast(HasPriority(p), b);
      }
      StableSortIsUnique(fa, fb);
    }
  }

  lemma OwnClassNonempty(s: seq<RegisteredTool>, i: nat)
    requires i < |s|
    ensures s[i] in Filter(HasPriority(s[i].manifest.priority), s)
  {
    FilterMembers(HasPriority(s[i].manifest.priority), s);
  }

  lemma ValuesAreTheTools(tools: Tools)
    requires RegistryOk(tools)
    ensures forall t :: t in tools.Values() <==> t.manifest.name in tools.vals && tools.vals[t.manifest.name] == t
    ensures forall i, j :: 0 <= i < j < |tools.Values()| ==> tools.Values()[i].manifest.name != tools.Values()[j].manifest.name
  {
    var vs := tools.Values();
    forall n | n in tools.vals ensures tools.vals[n] in vs {
      assert n in Elements(tools.keys);
      var i :| 0 <= i < |tools.keys| && tools.keys[i] == n;
      assert vs[i] == tools.vals[n];
    }
  }

  predicate DistinctNames(s: seq<RegisteredTool>) {
    forall i, j :: 0 <= i < j < |s| ==> s[i].manifest.name != s[j].manifest.name
  }

  lemma {:induction false} FilterKeepsDistinctNames(p: RegisteredTool -> bool, s: seq<RegisteredTool>)
    requires DistinctNames(s)
    ensures DistinctNames(Filter(p, s))
  {
    if s != [] {
      var k := |s| - 1;
      FilterKeepsDistinctNames(p, s[..k]);
      FilterMembers(p, s[..k]);
      var r := Filter(p, s[..k]);
      forall i | 0 <= i < |r| ensures r[i].manifest.name != s[k].manifest.name {
        assert r[i] in s[..k];
      }
    }
  }

  lemma {:induction false} InsertKeepsDistinctNames(s: seq<RegisteredTool>, t: RegisteredTool)
    requires DistinctNames(s)
    requires forall x :: x in s ==> x.manifest.name != t.manifest.name
    ensures DistinctNames(InsertStable(s, t))
  {
    if s != [] {
      var k := |s| - 1;
      assert s == s[..k] + [s[k]];
      InsertKeepsDistinctNames(s[..k], t);
      InsertPermutes(s[..k], t);
      var r := InsertStable(s[..k], t);
      forall i | 0 <= i < |r| ensures r[i].manifest.name != s[k].manifest.name {
        assert r[i] == t || r[i] in s[..k];
      }
    }
  }

  lemma {:induction false} SortKeepsDistinctNames(s: seq<RegisteredTool>)
    requires DistinctNames(s)
    ensures DistinctNames(SortByPriority(s))
  {
    if s != [] {
      var k := |s| - 1;
      assert s == s[..k] + [s[k]];
      SortKeepsDistinctNames(s[..k]);
      var r := SortByPriority(s[..k]);
      SortPermutes(s[..k]);
      forall x | x in r ensures x.manifest.name != s[k].manifest.name {
        assert x in s[..k];
      }
      InsertKeepsDistinctNames(r, s[k]);
    }
  }

  /** `find_by_capability` returns exactly the live tools that offer the
      capability, each once, by descending priority, ties in registration
      order. */
  lemma FindByCapabilityMeaning(tools: Tools, cap: string)
    requires RegistryOk(tools)
    ensures forall t :: t in FindByCapability(tools, cap) <==>
              t.manifest.name in tools.vals && tools.vals[t.manifest.name] == t && cap in t.manifest.capabilities
    ensures DistinctNames(FindByCapability(tools, cap))
    ensures Descending(FindByCapability(tools, cap))
    ensures forall p :: Filter(HasPriority(p), FindByCapability(tools, cap)) ==
                        Filter(HasPriority(p), Filter(Offers(cap), tools.Values()))
  {
    var off := Filter(Offers(cap), tools.Values());
    ValuesAreTheTools(tools);
    FilterKeepsDistinctNames(Offers(cap), tools.Values());
    SortKeepsDistinctNames(off);
    forall p ensures Filter(HasPriority(p), SortByPriority(off)) == Filter(HasPriority(p), off) && Descending(SortByPriority(off)) {
      SortIsStable(off, p);
    }
    assert Descending(SortByPriority(off)) by { SortIsStable(off, 0); }
    SortPermutes(off);
    FilterMembers(Offers(cap), tools.Values());
  }

  // ----- capability_catalog

  datatype CatalogEntry = CatalogEntry(description: string, paramSchema: map<string, string>, scopes: set<Scope>, toolCount: nat)

  type Catalog = map<string, CatalogEntry>

  function Mentions(caps: seq<string>, cap: string): nat {
    multiset(caps)[cap]
  }

  /** The entry after one more tool that lists the capability `n` times. */
  function Mentioned(e: Option<CatalogEntry>, t: ToolManifest, n: nat): Option<CatalogEntry> {
    if n == 0 then e else
      var c := if e.Some? then e.value else CatalogEntry(t.description, map[], {}, 0);
      Some(CatalogEntry(c.description, c.paramSchema + t.paramSchema, c.scopes + {t.scope}, c.toolCount + n))
  }

  function EntryFor(ts: seq<RegisteredTool>, cap: string): Option<CatalogEntry> {
    if ts == [] then None else
      var t := ts[|ts| - 1].manifest;
      Mentioned(EntryFor(ts[..|ts| - 1], cap), t, Mentions(t.capabilities, cap))
  }

  function Lookup(c: Catalog, cap: string): Option<CatalogEntry> {
    if cap in c then Some(c[cap]) else None
  }

  lemma OneMoreMention(e: Option<CatalogEntry>, t: ToolManifest, n: nat)
    ensures Mentioned(Mentioned(e, t, n), t, 1) == Mentioned(e, t, n + 1)
  {
    var c := if e.Some? then e.value else CatalogEntry(t.description, map[], {}, 0);
    assert c.paramSchema + t.paramSchema + t.paramSchema == c.paramSchema + t.paramSchema;
  }

  method CapabilityCatalog(tools: Tools) returns (catalog: Catalog)
    requires tools.Valid()
    ensures forall cap :: Lookup(catalog, cap) == EntryFor(tools.Values(), cap)
  {
    catalog := map[];
    var ts := tools.Values();
    for i := 0 to |ts|
      invariant forall cap :: Lookup(catalog, cap) == EntryFor(ts[..i], cap)
    {
      var t := ts[i].manifest;
      ghost var before := catalog;
      for j := 0 to |t.capabilities|
        invariant forall cap :: Lookup(catalog, cap) == Mentioned(Lookup(before, cap), t, Mentions(t.capabilities[..j], cap))
      {
        var cap := t.capabilities[j];
        assert t.capabilities[..j + 1] == t.capabilities[..j] + [cap];
        assert forall c :: Mentions(t.capabilities[..j + 1], c) == Mentions(t.capabilities[..j], c) + (if c == cap then 1 else 0);
        ghost var was := catalog;
        var entry := if cap in catalog then catalog[cap] else CatalogEntry(t.description, map[], {}, 0);
        catalog := catalog[cap := CatalogEntry(entry.description, entry.paramSchema + t.paramSchema,
                                               entry.scopes + {t.scope}, entry.toolCount + 1)];
        forall c ensures Lookup(catalog, c) == Mentioned(Lookup(before, c), t, Mentions(t.capabilities[..j + 1], c)) {
          assert Lookup(was, c) == Mentioned(Lookup(before, c), t, Mentions(t.capabilities[..j], c));
          if c == cap { OneMoreMention(Lookup(before, c), t, Mentions(t.capabilities[..j], c)); }
        }
      }
      assert t.capabilities[..|t.capabilities|] == t.capabilities;
      assert ts[..i + 1][..i] == ts[..i];
    }
    assert ts[..|ts|] == ts;
  }

  function ScopesOf(ts: seq<RegisteredTool>): set<Scope> {
    set t | t in ts :: t.manifest.scope
  }

  /** What a catalog entry says about the tools it was merged from. */
  lemma {:induction false} EntryMeaning(ts: seq<RegisteredTool>, cap: string)
    ensures EntryFor(ts, cap).Some? <==> Filter(Offers(cap), ts) != []
    ensures EntryFor(ts, cap).Some? ==>
              var e, off := EntryFor(ts, cap).value, Filter(Offers(cap), ts);
              && e.description == off[0].manifest.description
              && e.scopes == ScopesOf(off)
              && e.toolCount >= |off|
              && (e.toolCount == |off| <==> forall t :: t in off ==> Mentions(t.manifest.capabilities, cap) == 1)
  {
    if ts != [] {
      var k := |ts| - 1;
      var front, t := ts[..k], ts[k];
      assert ts == front + [t];
      EntryMeaning(front, cap);
      FilterSnoc(Offers(cap), front, t);
      var off, off0 := Filter(Offers(cap), ts), Filter(Offers(cap), front);
      assert Mentions(t.manifest.capabilities, cap) > 0 <==> cap in t.manifest.capabilities;
      if cap in t.manifest.capabilities {
        assert off == off0 + [t];
        assert ScopesOf(off) == ScopesOf(off0) + {t.manifest.scope};
        if off0 != [] {
          var e, e0, n := EntryFor(ts, cap).value, EntryFor(front, cap).value, Mentions(t.manifest.capabilities, cap);
          assert e.toolCount == e0.toolCount + n;
          assert forall x :: x in off <==> x in off0 || x == t;
          if e.toolCount == |off| {
            assert n == 1 && e0.toolCount == |off0|;
          }
        }
      } else {
        assert off == off0;
      }
    }
  }

  /** The parameter schemas of these tools merged in order, later ones winning. */
  function MergedSchema(ts: seq<RegisteredTool>): map<string, string> {
    if ts == [] then map[] else MergedSchema(ts[..|ts| - 1]) + ts[|ts| - 1].manifest.paramSchema
  }

  function SchemaOf(e: Option<CatalogEntry>): map<string, string> {
    if e.Some? then e.value.paramSchema else map[]
  }

  lemma MentionedSchema(e: Option<CatalogEntry>, t: ToolManifest, n: nat)
    ensures SchemaOf(Mentioned(e, t, n)) == if n == 0 then SchemaOf(e) else SchemaOf(e) + t.paramSchema
  {
  }

  /** The parameters shown for a capability are those of every offering tool,
      the later registered tool's description winning. */
  lemma {:induction false} EntrySchema(ts: seq<RegisteredTool>, cap: string)
    ensures SchemaOf(EntryFor(ts, cap)) == MergedSchema(Filter(Offers(cap), ts))
  {
    if ts != [] {
      var front, t := ts[..|ts| - 1], ts[|ts| - 1];
      var n := Mentions(t.manifest.capabilities, cap);
      EntrySchema(front, cap);
      FilterDropLast(Offers(cap), ts);
      MentionedSchema(EntryFor(front, cap), t.manifest, n);
      assert n > 0 <==> cap in t.manifest.capabilities;
      assert EntryFor(ts, cap) == Mentioned(EntryFor(front, cap), t.manifest, n);
      hide Mentioned, Filter, EntryFor, SchemaOf, Mentions;
    }
  }

  /** The planner's catalog agrees with routing on the same registry.
      `tool_count` is the number of candidates exactly when no offering tool
      lists the capability twice. */
  lemma CatalogAgreesWithRouting(tools: Tools, cap: string)
    requires RegistryOk(tools)
    ensures EntryFor(tools.Values(), cap).Some? <==> FindByCapability(tools, cap) != []
    ensures EntryFor(tools.Values(), cap).Some? ==>
              var e, found := EntryFor(tools.Values(), cap).value, FindByCapability(tools, cap);
              && e.scopes == ScopesOf(found)
              && (e.toolCount == |found| <==> forall t :: t in found ==> Mentions(t.manifest.capabilities, cap) == 1)
  {
    var off, found := Filter(Offers(cap), tools.Values()), FindByCapability(tools, cap);
    EntryMeaning(tools.Values(), cap);
    SortPermutes(off);
    assert ScopesOf(found) == ScopesOf(off);
  }

  /** A tool that lists its only capability twice is counted as two tools. */
  lemma ToolCountCanOvercount()
    ensures exists tools: Tools, cap: string ::
              && RegistryOk(tools) && EntryFor(tools.Values(), cap).Some?
              && EntryFor(tools.Values(), cap).value.toolCount == 2 && |FindByCapability(tools, cap)| == 1
  {
    var t := RegisteredTool(ToolManifest("a", "", ["c", "c"], Read, 1, 10.0, map[]), 0);
    var tools: Tools := Empty().Put("a", t);
    assert tools.Values() == [t];
    assert Mentions(["c", "c"], "c") == 2;
    assert EntryFor([t], "c") == Mentioned(EntryFor([], "c"), t.manifest, 2);
    assert Filter(Offers("c"), [t]) == [t];
    assert SortByPriority([t]) == [t];
  }
}
