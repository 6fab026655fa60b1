/** The versioned context store, and what any sequence of pushes leaves in it. */
module ContextStores {
  import opened Text

  datatype Scope = CategoryScope | MerchantScope | CustomerScope | TriggerScope

  datatype Key = Key(scope: Scope, id: string)

  datatype Versioned<P> = Versioned(version: int, payload: P)

  /** One push as it is delivered. */
  datatype Delivery<P> = Delivery(key: Key, item: Versioned<P>)

  /** An accepted push, or the newer version that made it stale. */
  datatype PushResult = Accepted | StaleVersion(current: int)

  type Items<P> = map<Key, Versioned<P>>

  /** Only a newer version is stored; a repost of the same version changes nothing. */
  function Pushed<P>(items: Items<P>, push: Delivery<P>): Items<P> {
    if push.key in items && items[push.key].version >= push.item.version then items
    else items[push.key := push.item]
  }

  function PushResultOf<P>(items: Items<P>, push: Delivery<P>): PushResult {
    if push.key in items && items[push.key].version > push.item.version then StaleVersion(items[push.key].version)
    else Accepted
  }

  function Lookup<P>(items: Items<P>, key: Key): Option<P> {
    if key in items then Some(items[key].payload) else None
  }

  function InScope(keys: set<Key>, scope: Scope): set<Key> { set k | k in keys && k.scope == scope }

  function CountIn(counts: map<Scope, nat>, scope: Scope): nat { if scope in counts then counts[scope] else 0 }

  class ContextStore<P> {
    var items: Items<P>

    constructor ()
      ensures items == map[]
    {
      items := map[];
    }

    method Push(scope: Scope, id: string, version: int, payload: P) returns (result: PushResult)
      modifies this
      ensures var push := Delivery(Key(scope, id), Versioned(version, payload));
        items == Pushed(old(items), push) && result == PushResultOf(old(items), push)
    {
      var key := Key(scope, id);
      if key in items && items[key].version > version { return StaleVersion(items[key].version); }
      if key !in items || items[key].version < version {
        items := items[key := Versioned(version, payload)];
      }
      return Accepted;
    }

    method Get(scope: Scope, id: string) returns (payload: Option<P>)
      ensures payload == Lookup(items, Key(scope, id))
    {
      var key := Key(scope, id);
      return if key in items then Some(items[key].payload) else None;
    }

    method VersionOf(scope: Scope, id: string) returns (version: Option<int>)
      ensures version == if Key(scope, id) in items then Some(items[Key(scope, id)].version) else None
    {
      var key := Key(scope, id);
      return if key in items then Some(items[key].version) else None;
    }

    /** How many ids each scope holds. */
    method Counts() returns (counts: map<Scope, nat>)
      ensures forall scope :: CountIn(counts, scope) == |InScope(items.Keys, scope)|
    {
      counts := map[];
      var left := items.Keys;
      ghost var done: set<Key> := {};
      while left != {}
        invariant left + done == items.Keys && left !! done
        invariant forall scope :: CountIn(counts, scope) == |InScope(done, scope)|
        decreases |left|
      {
        var key :| key in left;
        CountStep(done, key);
        counts := counts[key.scope := CountIn(counts, key.scope) + 1];
        left, done := left - {key}, done + {key};
      }
      assert done == items.Keys;
    }
  }

  lemma {:induction false} CountStep(done: set<Key>, key: Key)
    requires key !in done
    ensures forall scope :: |InScope(done + {key}, scope)| == |InScope(done, scope)| + (if scope == key.scope then 1 else 0)
  {
    forall scope ensures |InScope(done + {key}, scope)| == |InScope(done, scope)| + (if scope == key.scope then 1 else 0) {
      assert InScope(done + {key}, scope) == if scope == key.scope then InScope(done, scope) + {key} else InScope(done, scope);
    }
  }

  // ---- convergence -----------------------------------------------------------------------------

  function PushAll<P>(items: Items<P>, pushes: seq<Delivery<P>>): Items<P> {
    if pushes == [] then items
    else Pushed(PushAll(items, pushes[..|pushes| - 1]), pushes[|pushes| - 1])
  }

  /** `item` is the first push of the highest version pushed for the key. */
  ghost predicate FirstOfHighest<P>(pushes: seq<Delivery<P>>, key: Key, item: Versioned<P>) {
    exists i | 0 <= i < |pushes| ::
      && pushes[i] == Delivery(key, item)
      && forall j | 0 <= j < |pushes| && pushes[j].key == key ::
           pushes[j].item.version <= item.version && (j < i ==> pushes[j].item.version < item.version)
  }

  ghost predicate Mentioned<P>(pushes: seq<Delivery<P>>, key: Key) { exists p :: p in pushes && p.key == key }

  /** What is stored for a key after a sequence of pushes into an empty store: nothing if it was
      never pushed, otherwise the highest version with the first payload pushed for it. */
  lemma {:induction false} Converges<P>(pushes: seq<Delivery<P>>, key: Key)
    ensures var items := PushAll(map[], pushes);
      && (key in items <==> Mentioned(pushes, key))
      && (key in items ==> FirstOfHighest(pushes, key, items[key]))
  {
    if pushes != [] {
      var n := |pushes| - 1;
      Converges(pushes[..n], key);
      ConvergeStep(PushAll(map[], pushes[..n]), pushes, key);
    }
  }

  lemma {:induction false} MentionedStep<P>(pushes: seq<Delivery<P>>, key: Key)
    requires pushes != []
    ensures Mentioned(pushes, key) <==> Mentioned(pushes[..|pushes| - 1], key) || pushes[|pushes| - 1].key == key
  {
    var n := |pushes| - 1;
    assert forall p :: p in pushes <==> p in pushes[..n] || p == pushes[n];
  }

  lemma {:induction false} ConvergeStep<P>(before: Items<P>, pushes: seq<Delivery<P>>, key: Key)
    requires pushes != []
    requires key in before <==> Mentioned(pushes[..|pushes| - 1], key)
    requires key in before ==> FirstOfHighest(pushes[..|pushes| - 1], key, before[key])
    ensures var items := Pushed(before, pushes[|pushes| - 1]);
      && (key in items <==> Mentioned(pushes, key))
      && (key in items ==> FirstOfHighest(pushes, key, items[key]))
  {
    var n := |pushes| - 1;
    MentionedStep(pushes, key);
    var items := Pushed(before, pushes[n]);
    if key in before {
      HighestStep(pushes[..n], pushes[n], key, before[key]);
      assert pushes[..n] + [pushes[n]] == pushes;
    } else if key in items {
      NewKeyStep(pushes, key);
    }
  }

  lemma {:induction false} HighestStep<P>(before: seq<Delivery<P>>, last: Delivery<P>, key: Key, item: Versioned<P>)
    requires FirstOfHighest(before, key, item)
    ensures FirstOfHighest(before + [last], key, if last.key == key && last.item.version > item.version then last.item else item)
  {
    var pushes := before + [last];
    var i :| 0 <= i < |before| && before[i] == Delivery(key, item)
      && forall j | 0 <= j < |before| && before[j].key == key ::
           before[j].item.version <= item.version && (j < i ==> before[j].item.version < item.version);
    assert pushes[i] == Delivery(key, item) && pushes[|before|] == last;
    forall j | 0 <= j < |before| && pushes[j].key == key
      ensures pushes[j].item.version <= item.version && (j < i ==> pushes[j].item.version < item.version)
    {
      assert before[j] == pushes[j];
    }
  }

  lemma {:induction false} NewKeyStep<P>(pushes: seq<Delivery<P>>, key: Key)
    requires pushes != [] && pushes[|pushes| - 1].key == key && !Mentioned(pushes[..|pushes| - 1], key)
    ensures FirstOfHighest(pushes, key, pushes[|pushes| - 1].item)
  {
    var n := |pushes| - 1;
    forall j | 0 <= j < n ensures pushes[j].key != key {
      assert pushes[..n][j] == pushes[j];
      assert pushes[j] in pushes[..n];
    }
  }

  /** Pushes of the same version of the same key carry the same payload. */
  ghost predicate Consistent<P>(pushes: seq<Delivery<P>>) {
    forall p, q | p in pushes && q in pushes && p.key == q.key && p.item.version == q.item.version :: p == q
  }

  /** Consistent pushes may arrive in any order. */
  lemma {:induction false} OrderDoesNotMatter<P>(a: seq<Delivery<P>>, b: seq<Delivery<P>>)
    requires Consistent(a) && multiset(a) == multiset(b)
    ensures PushAll(map[], a) == PushAll(map[], b)
  {
    SamePushes(a, b);
    var x, y := PushAll(map[], a), PushAll(map[], b);
    forall key ensures (key in x <==> key in y) && (key in x ==> x[key] == y[key]) {
      Converges(a, key);
      Converges(b, key);
      if key in x { HighestUnique(a, b, key, x[key], y[key]); }
    }
    assert x.Keys == y.Keys;
  }

  lemma {:induction false} SamePushes<P>(a: seq<Delivery<P>>, b: seq<Delivery<P>>)
    requires multiset(a) == multiset(b)
    ensures forall p :: p in a <==> p in b
    ensures forall key :: Mentioned(a, key) <==> Mentioned(b, key)
  {
    forall p ensures p in a <==> p in b {
      assert p in a <==> p in multiset(a);
      assert p in b <==> p in multiset(b);
    }
  }

  lemma {:induction false} HighestUnique<P>(a: seq<Delivery<P>>, b: seq<Delivery<P>>, key: Key, x: Versioned<P>, y: Versioned<P>)
    requires Consistent(a) && forall p :: p in a <==> p in b
    requires FirstOfHighest(a, key, x) && FirstOfHighest(b, key, y)
    ensures x == y
  {
    assert Delivery(key, x) in a && Delivery(key, y) in b;
    HighestBounds(a, key, x, Delivery(key, y));
    HighestBounds(b, key, y, Delivery(key, x));
  }

  lemma {:induction false} HighestBounds<P>(pushes: seq<Delivery<P>>, key: Key, item: Versioned<P>, p: Delivery<P>)
    requires FirstOfHighest(pushes, key, item) && p in pushes && p.key == key
    ensures p.item.version <= item.version
  {}
}
