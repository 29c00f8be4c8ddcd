/** The monitor's key/value store as far as monitor maps go: injecting a map, and finding the
    current one in any of the three places it may be. */
module MonmapStore {
  import opened Options

  /** A monitor map: its epoch and everything else. */
  datatype MonMap = MonMap(epoch: nat, members: string)

  /** What the store holds: a version number, an encoded map, or the pair under `latest`. */
  datatype Value = Version(v: nat) | Encoded(m: MonMap) | Latest(v: nat, m: MonMap)

  datatype Key = Key(prefix: string, name: string)

  type Store = map<Key, Value>

  // ---------------------------------------------------------------- version keys

  function Digit(d: nat): char
    requires d < 10
  {
    '0' + d as char
  }

  /** A version written into a stream. */
  function Decimal(n: nat): (s: string)
    ensures s != ""
  {
    if n < 10 then [Digit(n)] else Decimal(n / 10) + [Digit(n % 10)]
  }

  lemma {:induction false} DecimalInjective(a: nat, b: nat)
    requires Decimal(a) == Decimal(b)
    ensures a == b
  {
    var s, t := Decimal(a), Decimal(b);
    assert s[|s| - 1] == Digit(a % 10) && t[|t| - 1] == Digit(b % 10);
    if a >= 10 && b >= 10 {
      assert s[..|s| - 1] == Decimal(a / 10) && t[..|t| - 1] == Decimal(b / 10);
      DecimalInjective(a / 10, b / 10);
    }
  }

  lemma {:induction false} DecimalStartsWithDigit(n: nat)
    ensures '0' <= Decimal(n)[0] <= '9'
  {
    if n >= 10 {
      DecimalStartsWithDigit(n / 10);
    }
  }

  const LAST := Key("monmap", "last_committed")
  const LATEST := Key("monmap", "latest")
  const IN_SYNC := Key("mon_sync", "in_sync")
  const FORCE_SYNC := Key("mon_sync", "force_sync")
  const BACKUP := Key("mon_sync", "latest_monmap")
  const MKFS := Key("mkfs", "monmap")

  function VersionKey(v: nat): Key {
    Key("monmap", Decimal(v))
  }

  lemma VersionKeysApart(v: nat, w: nat)
    ensures VersionKey(v) != LAST && VersionKey(v) != LATEST
    ensures v != w ==> VersionKey(v) != VersionKey(w)
  {
    DecimalStartsWithDigit(v);
    assert "last_committed"[0] == 'l' && "latest"[0] == 'l';
    if Decimal(v) == Decimal(w) {
      DecimalInjective(v, w);
    }
  }

  // ---------------------------------------------------------------- reading and injecting

  /** A missing version reads as 0. */
  function GetVersion(s: Store, k: Key): nat {
    if k in s && s[k].Version? then s[k].v else 0
  }

  /** Values have the kind their keys call for. */
  ghost predicate Typed(s: Store) {
    && (LAST in s ==> s[LAST].Version?)
    && (forall v: nat :: VersionKey(v) in s ==> s[VersionKey(v)].Encoded?)
    && (BACKUP in s ==> s[BACKUP].Encoded?)
    && (MKFS in s ==> s[MKFS].Encoded?)
  }

  /** The map under `latest` is the one under the version counter. */
  predicate InStep(s: Store) {
    && LAST in s && s[LAST].Version? && LATEST in s && s[LATEST].Latest? && s[LATEST].v == s[LAST].v
    && VersionKey(s[LAST].v) in s && s[VersionKey(s[LAST].v)] == Encoded(s[LATEST].m)
  }

  /** The map is the one stored under the key. */
  predicate Under(s: Store, k: Key, m: Option<MonMap>) {
    k in s && m.Some? && s[k] == Encoded(m.value)
  }

  class MonStore {
    var store: Store

    /** `obtain_monmap`: the committed map, else the backup of an aborted sync, else the mkfs map.  None
        is found exactly when none of the three places that apply holds one. */
    method ObtainMonmap() returns (m: Option<MonMap>)
      requires Typed(store)
      ensures m == Obtained(store)
      ensures InStep(store) ==> m == Some(store[LATEST].m)
      ensures LAST in store && VersionKey(store[LAST].v) in store ==> Under(store, VersionKey(store[LAST].v), m)
      ensures && (LAST in store ==> VersionKey(store[LAST].v) !in store)
              && BACKUP in store && (IN_SYNC in store || FORCE_SYNC in store)
              ==> Under(store, BACKUP, m)
      ensures && (LAST in store ==> VersionKey(store[LAST].v) !in store)
              && (BACKUP in store ==> IN_SYNC !in store && FORCE_SYNC !in store)
              && MKFS in store
              ==> Under(store, MKFS, m)
      ensures m.None? <==>
                && (LAST in store ==> VersionKey(store[LAST].v) !in store)
                && (BACKUP in store ==> IN_SYNC !in store && FORCE_SYNC !in store)
                && MKFS !in store
    {
      if LAST in store {
        var latest := GetVersion(store, LAST);
        if VersionKey(latest) in store {
          return Some(store[VersionKey(latest)].m);
        }
      }
      if IN_SYNC in store || FORCE_SYNC in store {
        if BACKUP in store {
          return Some(store[BACKUP].m);
        }
      }
      if MKFS in store {
        return Some(store[MKFS].m);
      }
      return None;
    }

    /** The inject-monmap block: one transaction of three puts under the next version. */
    method Inject(m: MonMap)
      modifies this
      ensures store == Injected(old(store), m)
      ensures Typed(old(store)) ==>
                var v := GetVersion(old(store), LAST) + 1;
                && Kept(store, v, m) && Current(store, v, m) && InStep(store)
                && forall k: nat :: k != v ==> SameVersion(old(store), store, k)
    {
      if Typed(store) {
        InjectOne(store, m);
      }
      var v := GetVersion(store, LAST);
      v := v + 1;
      var tmp := m;
      if tmp.epoch != v {
        tmp := tmp.(epoch := v);
      }
      store := store[VersionKey(v) := Encoded(tmp)][LATEST := Latest(v, tmp)][LAST := Version(v)];
    }
  }

  function Injected(s: Store, m: MonMap): Store {
    var v := GetVersion(s, LAST) + 1;
    s[VersionKey(v) := Encoded(m.(epoch := v))][LATEST := Latest(v, m.(epoch := v))][LAST := Version(v)]
  }

  function Obtained(s: Store): Option<MonMap>
    requires Typed(s)
  {
    if LAST in s && VersionKey(s[LAST].v) in s then Some(s[VersionKey(s[LAST].v)].m)
    else if (IN_SYNC in s || FORCE_SYNC in s) && BACKUP in s then Some(s[BACKUP].m)
    else if MKFS in s then Some(s[MKFS].m)
    else None
  }

  function InjectAll(s: Store, maps: seq<MonMap>): Store {
    if maps == [] then s else Injected(InjectAll(s, maps[..|maps| - 1]), maps[|maps| - 1])
  }

  /** The store holds the map under the given version, with that epoch. */
  predicate Kept(s: Store, v: nat, m: MonMap) {
    VersionKey(v) in s && s[VersionKey(v)] == Encoded(m.(epoch := v))
  }

  /** `latest` and the version counter agree on this map, and it is the one found next. */
  ghost predicate Current(s: Store, v: nat, m: MonMap) {
    GetVersion(s, LAST) == v && LATEST in s && s[LATEST] == Latest(v, m.(epoch := v)) &&
    Typed(s) && Obtained(s) == Some(m.(epoch := v))
  }

  predicate SameVersion(s: Store, s': Store, v: nat) {
    (VersionKey(v) in s' <==> VersionKey(v) in s) && (VersionKey(v) in s ==> s'[VersionKey(v)] == s[VersionKey(v)])
  }

  /** One injection: the next version is stored and current, all other versions are as before. */
  lemma InjectOne(s: Store, m: MonMap)
    requires Typed(s)
    ensures var v := GetVersion(s, LAST) + 1;
            Kept(Injected(s, m), v, m) && Current(Injected(s, m), v, m) &&
            Typed(Injected(s, m)) && GetVersion(Injected(s, m), LAST) == v && InStep(Injected(s, m))
    ensures forall k: nat :: k != GetVersion(s, LAST) + 1 ==> SameVersion(s, Injected(s, m), k)
  {
    var v := GetVersion(s, LAST) + 1;
    forall k: nat
      ensures VersionKey(k) != LAST && VersionKey(k) != LATEST && (k != v ==> VersionKey(k) != VersionKey(v))
    {
      VersionKeysApart(k, v);
    }
    hide VersionKey;
  }

  lemma SameKeeps(s: Store, s': Store, v: nat, m: MonMap)
    requires SameVersion(s, s', v) && Kept(s, v, m)
    ensures Kept(s', v, m)
  {
  }

  lemma SameTransitive(s: Store, s': Store, s'': Store, v: nat)
    requires SameVersion(s, s', v) && SameVersion(s', s'', v)
    ensures SameVersion(s, s'', v)
  {
  }

  /** Over any sequence of injections the version grows by one each time, every injected map is kept
      under its own version with that epoch, older versions are as before, and the map found next
      is the last one injected, whatever sync and mkfs keys there are. */
  lemma {:induction false} InjectionHistory(s: Store, maps: seq<MonMap>)
    requires Typed(s)
    ensures Typed(InjectAll(s, maps)) && GetVersion(InjectAll(s, maps), LAST) == GetVersion(s, LAST) + |maps|
    ensures forall k: nat :: k <= GetVersion(s, LAST) ==> SameVersion(s, InjectAll(s, maps), k)
    ensures forall i :: 0 <= i < |maps| ==> Kept(InjectAll(s, maps), GetVersion(s, LAST) + i + 1, maps[i])
    ensures maps != [] ==> Current(InjectAll(s, maps), GetVersion(s, LAST) + |maps|, maps[|maps| - 1])
  {
    hide VersionKey, Typed, GetVersion;
    if maps != [] {
      hide Injected, Kept, Current, SameVersion;
      var front := maps[..|maps| - 1];
      var f, v := InjectAll(s, front), GetVersion(s, LAST);
      assert InjectAll(s, maps) == Injected(f, maps[|maps| - 1]);
      InjectionHistory(s, front);
      InjectOne(f, maps[|maps| - 1]);
      forall i | 0 <= i < |front| ensures Kept(InjectAll(s, maps), v + i + 1, maps[i]) {
        SameKeeps(f, InjectAll(s, maps), v + i + 1, front[i]);
      }
      forall k: nat | k <= v ensures SameVersion(s, InjectAll(s, maps), k) {
        SameTransitive(s, f, InjectAll(s, maps), k);
      }
    }
  }
}
