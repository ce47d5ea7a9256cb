/** The `proxy` setting of lib/server.js and `flatProxy`, which turns its list
    form into a prefix-to-options table. A JavaScript object used as a table
    is modelled with its keys in insertion order beside a map from key to
    value. `Object.keys` lists string keys in that order, except that keys
    which are array indices ("0", "42") come first in numeric order. The
    model takes insertion order for every key, which is the order
    `Object.keys` returns for path contexts such as "/api". */
module ProxyConfig {
  import opened Basics

  /** What the upstream proxy is told: the target URL and the two options the
      configurations set (`None` where the configuration leaves one out). */
  datatype ProxyOptions = ProxyOptions(target: string, changeOrigin: Option<bool>, secure: Option<bool>)

  /** A value of the object form: a bare target URL or an options object. */
  datatype Target = Url(url: string) | Options(options: ProxyOptions)

  /** An element of the list form: the path prefixes it applies to and the
      rest of the element, which becomes their options. */
  datatype ProxyEntry = ProxyEntry(context: seq<string>, options: ProxyOptions)

  /** A JavaScript object with string keys: `keys` in insertion order. */
  datatype Table<V> = Table(keys: seq<string>, values: map<string, V>)

  /** The `proxy` setting: a list of entries, or already an object. */
  datatype ProxySetting = ListForm(entries: seq<ProxyEntry>) | ObjectForm(table: Table<Target>)

  predicate Distinct(xs: seq<string>) {
    forall i, j :: 0 <= i < j < |xs| ==> xs[i] != xs[j]
  }

  /** Every key is listed once, and the listed keys are the mapped ones. */
  predicate ValidTable<V>(t: Table<V>) {
    && Distinct(t.keys)
    && (forall k :: k in t.values ==> k in t.keys)
    && (forall k :: k in t.keys ==> k in t.values)
  }

  const EmptyTable: Table<Target> := Table([], map[])

  /** `o[k] = v`: a new key goes last; an existing key keeps its place and
      takes the new value. */
  function Assign<V>(t: Table<V>, k: string, v: V): (r: Table<V>)
    ensures r.values == t.values[k := v]
    ensures k in t.keys ==> r.keys == t.keys
    ensures k !in t.keys ==> r.keys == t.keys + [k]
    ensures ValidTable(t) ==> ValidTable(r)
  {
    if k in t.keys then Table(t.keys, t.values[k := v]) else Table(t.keys + [k], t.values[k := v])
  }

  /** The inner `context.forEach(ctx => proxy[ctx] = proxyConf)`. */
  function AssignAll<V>(t: Table<V>, ks: seq<string>, v: V): (r: Table<V>)
    // keys already present keep their place; every key comes from `t` or `ks`
    ensures t.keys <= r.keys
    ensures forall k :: k in r.keys ==> k in t.keys || k in ks
  {
    if |ks| == 0 then t else Assign(AssignAll(t, ks[..|ks| - 1], v), ks[|ks| - 1], v)
  }

  /** The outer `originProxy.forEach(...)` over the entries, from `{}`. */
  function FlattenList(es: seq<ProxyEntry>): (r: Table<Target>)
    // every key is a context some entry lists
    ensures forall k :: k in r.keys ==> k in Contexts(es)
  {
    if |es| == 0 then EmptyTable
    else
      var e := es[|es| - 1];
      AssignAll(FlattenList(es[..|es| - 1]), e.context, Options(e.options))
  }

  /** What `flatProxy` returns. An empty list has no `length` and comes back
      as it is; the server only ever asks it for its keys, of which it has
      none, so it stands as the empty table. */
  function Flattened(p: ProxySetting): (r: Table<Target>)
    // an object comes back untouched; a list yields only its contexts as keys
    ensures p.ObjectForm? ==> r == p.table
    ensures p.ListForm? ==> forall k :: k in r.keys ==> k in Contexts(p.entries)
  {
    match p
    case ObjectForm(t) => t
    case ListForm(es) => FlattenList(es)
  }

  /** `flatProxy(originProxy)` (lib/server.js:72-83), with its two loops. */
  method FlatProxy(origin: ProxySetting) returns (proxy: Table<Target>)
    ensures proxy == Flattened(origin)
    ensures origin.ObjectForm? ==> proxy == origin.table
  {
    proxy := Flattened(origin);
    if origin.ListForm? {
      var es := origin.entries;
      proxy := EmptyTable;
      var i := 0;
      while i < |es|
        invariant 0 <= i <= |es|
        invariant proxy == FlattenList(es[..i])
      {
        var e := es[i];
        var j := 0;
        ghost var before := proxy;
        assert es[..i + 1][..i] == es[..i];
        while j < |e.context|
          invariant 0 <= j <= |e.context|
          invariant proxy == AssignAll(before, e.context[..j], Options(e.options))
        {
          assert e.context[..j + 1][..j] == e.context[..j];
          proxy := Assign(proxy, e.context[j], Options(e.options));
          j := j + 1;
        }
        assert e.context[..j] == e.context;
        i := i + 1;
      }
      assert es[..i] == es;
    }
  }

  lemma {:induction false} AssignAllValid<V>(t: Table<V>, ks: seq<string>, v: V)
    requires ValidTable(t)
    ensures ValidTable(AssignAll(t, ks, v))
    decreases |ks|
  {
    if |ks| > 0 {
      AssignAllValid(t, ks[..|ks| - 1], v);
    }
  }

  /** The flattened table is a well-formed object. */
  lemma {:induction false} FlattenedValid(p: ProxySetting)
    requires p.ObjectForm? ==> ValidTable(p.table)
    ensures ValidTable(Flattened(p))
  {
    if p.ListForm? {
      FlattenListValid(p.entries);
    }
  }

  lemma {:induction false} FlattenListValid(es: seq<ProxyEntry>)
    ensures ValidTable(FlattenList(es))
    decreases |es|
  {
    if |es| > 0 {
      FlattenListValid(es[..|es| - 1]);
      AssignAllValid(FlattenList(es[..|es| - 1]), es[|es| - 1].context, Options(es[|es| - 1].options));
    }
  }

  /** After assigning `ks`, a key is mapped when it was or when it is one of `ks`;
      a key among `ks` maps to `v`, any other keeps its value. */
  lemma {:induction false} AssignAllValues<V>(t: Table<V>, ks: seq<string>, v: V, k: string)
    ensures k in AssignAll(t, ks, v).values <==> k in t.values || k in ks
    ensures k in ks ==> AssignAll(t, ks, v).values[k] == v
    ensures k !in ks && k in t.values ==> AssignAll(t, ks, v).values[k] == t.values[k]
    decreases |ks|
  {
    if |ks| > 0 {
      var init := ks[..|ks| - 1];
      AssignAllValues(t, init, v, k);
      assert k in ks <==> k in init || k == ks[|ks| - 1];
    }
  }

  /** Every prefix of every entry is a key of the flattened table, and
      nothing else is. */
  lemma {:induction false} FlattenedKeys(es: seq<ProxyEntry>, k: string)
    ensures k in FlattenList(es).values <==> exists i :: 0 <= i < |es| && k in es[i].context
    decreases |es|
  {
    if |es| > 0 {
      var init := es[..|es| - 1];
      var e := es[|es| - 1];
      FlattenedKeys(init, k);
      AssignAllValues(FlattenList(init), e.context, Options(e.options), k);
      if k in FlattenList(es).values && k !in e.context {
        var i :| 0 <= i < |init| && k in init[i].context;
        assert es[i] == init[i];
      }
      if exists i :: 0 <= i < |es| && k in es[i].context {
        var i :| 0 <= i < |es| && k in es[i].context;
        if i < |init| {
          assert init[i] == es[i];
        }
      }
    }
  }

  /** A prefix maps to the options of the LAST entry that lists it: a later
      entry overwrites an earlier one. */
  lemma {:induction false} FlattenedLastWins(es: seq<ProxyEntry>, i: nat, k: string)
    requires i < |es| && k in es[i].context
    requires forall j :: i < j < |es| ==> k !in es[j].context
    ensures k in FlattenList(es).values
    ensures FlattenList(es).values[k] == Options(es[i].options)
    decreases |es|
  {
    var init := es[..|es| - 1];
    var e := es[|es| - 1];
    AssignAllValues(FlattenList(init), e.context, Options(e.options), k);
    if i < |es| - 1 {
      assert init[i] == es[i];
      FlattenedLastWins(init, i, k);
    }
  }

  /** The first occurrences of `xs`, appended to `acc` where not already there. */
  function AddNew(acc: seq<string>, xs: seq<string>): seq<string> {
    if |xs| == 0 then acc
    else
      var r := AddNew(acc, xs[..|xs| - 1]);
      if xs[|xs| - 1] in r then r else r + [xs[|xs| - 1]]
  }

  lemma {:induction false} AddNewAppend(acc: seq<string>, a: seq<string>, b: seq<string>)
    ensures AddNew(acc, a + b) == AddNew(AddNew(acc, a), b)
    decreases |b|
  {
    if |b| == 0 {
      assert a + b == a;
    } else {
      assert (a + b)[..|a + b| - 1] == a + b[..|b| - 1];
      AddNewAppend(acc, a, b[..|b| - 1]);
    }
  }

  /** All prefixes of all entries, in the order the loops visit them. */
  function Contexts(es: seq<ProxyEntry>): seq<string> {
    if |es| == 0 then [] else Contexts(es[..|es| - 1]) + es[|es| - 1].context
  }

  lemma {:induction false} AssignAllKeys<V>(t: Table<V>, ks: seq<string>, v: V)
    ensures AssignAll(t, ks, v).keys == AddNew(t.keys, ks)
    decreases |ks|
  {
    if |ks| > 0 {
      AssignAllKeys(t, ks[..|ks| - 1], v);
    }
  }

  /** `Object.keys` of the flattened table lists each prefix once, at the
      place of its first occurrence; this order decides which proxy
      middleware comes first. */
  lemma {:induction false} FlattenedKeyOrder(es: seq<ProxyEntry>)
    ensures FlattenList(es).keys == AddNew([], Contexts(es))
    decreases |es|
  {
    if |es| > 0 {
      var init := es[..|es| - 1];
      var e := es[|es| - 1];
      FlattenedKeyOrder(init);
      AssignAllKeys(FlattenList(init), e.context, Options(e.options));
      AddNewAppend([], Contexts(init), e.context);
    }
  }
}
