/**
 * Facts about a table from order UID to order, shared by the in-memory cache
 * and by the durable store as the service sees it.
 */
module OrderTable {
  import opened Domain

  /** Every key names the order stored under it. */
  ghost predicate Keyed(m: map<string, Order>)
  {
    forall k :: k in m ==> m[k].orderUID == k
  }

  /** Every entry of `c` is also in `s`, with the same value: the cache is never ahead of the store. */
  ghost predicate Coherent(c: map<string, Order>, s: map<string, Order>)
  {
    forall k :: k in c ==> k in s && s[k] == c[k]
  }

  /** `r` lists every order of `m` exactly once, in no particular order. */
  ghost predicate Enumerates(r: seq<Order>, m: map<string, Order>)
  {
    && |r| == |m|
    && UIDs(r) == m.Keys
    && (forall i :: 0 <= i < |r| ==> r[i].orderUID in m && m[r[i].orderUID] == r[i])
    && (forall i, j :: 0 <= i < j < |r| ==> r[i].orderUID != r[j].orderUID)
  }

  /** The UIDs that occur in a list of orders. */
  function UIDs(os: seq<Order>): set<string>
  {
    set i | 0 <= i < |os| :: os[i].orderUID
  }

  /** No later order in `os` has the UID of `os[i]`. */
  ghost predicate LastWithUID(os: seq<Order>, i: int)
    requires 0 <= i < |os|
  {
    forall j :: i < j < |os| ==> os[j].orderUID != os[i].orderUID
  }

  /** `r` lists, once each, exactly the orders of `m` whose keys are no longer in `rest`. */
  ghost predicate ListedExcept(m: map<string, Order>, r: seq<Order>, rest: set<string>)
  {
    && rest <= m.Keys
    && |r| + |rest| == |m|
    && UIDs(r) == m.Keys - rest
    && (forall i :: 0 <= i < |r| ==> r[i].orderUID in m && m[r[i].orderUID] == r[i])
    && (forall i, j :: 0 <= i < j < |r| ==> r[i].orderUID != r[j].orderUID)
  }

  /** Moving one key from `rest` to the end of the list keeps `ListedExcept`. */
  lemma ListOneMore(m: map<string, Order>, r: seq<Order>, rest: set<string>, k: string)
    requires Keyed(m) && ListedExcept(m, r, rest) && k in rest
    ensures ListedExcept(m, r + [m[k]], rest - {k})
  {
    var r', rest' := r + [m[k]], rest - {k};
    assert |rest'| == |rest| - 1;
    UIDsAppend(r, m[k]);
    assert UIDs(r') == m.Keys - rest';
    forall i | 0 <= i < |r'| ensures r'[i].orderUID in m && m[r'[i].orderUID] == r'[i] {
      if i < |r| { assert r'[i] == r[i]; }
    }
    forall i, j | 0 <= i < j < |r'| ensures r'[i].orderUID != r'[j].orderUID {
      assert r'[i] == r[i];
      if j < |r| {
        assert r'[j] == r[j];
      } else {
        assert r[i].orderUID in UIDs(r);
      }
    }
  }

  /**
   * Collects the values of a table by visiting its keys one at a time, in
   * whatever order the choice picks: `sync.Map.Range` with an append.
   */
  method Enumerate(m: map<string, Order>) returns (r: seq<Order>)
    requires Keyed(m)
    ensures Enumerates(r, m)
  {
    var rest := m.Keys;
    r := [];
    while rest != {}
      invariant ListedExcept(m, r, rest)
      decreases |rest|
    {
      var k :| k in rest;
      ListOneMore(m, r, rest, k);
      r := r + [m[k]];
      rest := rest - {k};
    }
  }

  /** The table after storing each order of `os` under its UID, first to last. */
  function StoreAll(m: map<string, Order>, os: seq<Order>): map<string, Order>
  {
    if os == [] then m
    else
      var last := os[|os| - 1];
      StoreAll(m, os[..|os| - 1])[last.orderUID := last]
  }

  /** Storing orders under their own UIDs keeps a table keyed. */
  lemma {:induction false} StoreAllKeyed(m: map<string, Order>, os: seq<Order>)
    requires Keyed(m)
    ensures Keyed(StoreAll(m, os))
  {
    if os != [] {
      StoreAllKeyed(m, os[..|os| - 1]);
    }
  }

  /** The UIDs of a list are those of all but its last order, plus the last one's. */
  lemma UIDsSnoc(os: seq<Order>)
    requires os != []
    ensures UIDs(os) == UIDs(os[..|os| - 1]) + {os[|os| - 1].orderUID}
  {
    var init := os[..|os| - 1];
    forall u | u in UIDs(os) ensures u in UIDs(init) + {os[|os| - 1].orderUID} {
      var i :| 0 <= i < |os| && os[i].orderUID == u;
      if i < |os| - 1 { assert init[i] == os[i]; }
    }
    forall u | u in UIDs(init) ensures u in UIDs(os) {
      var i :| 0 <= i < |init| && init[i].orderUID == u;
      assert os[i] == init[i];
    }
  }

  /** Appending an order adds its UID. */
  lemma UIDsAppend(os: seq<Order>, o: Order)
    ensures UIDs(os + [o]) == UIDs(os) + {o.orderUID}
  {
    var r := os + [o];
    assert r[..|r| - 1] == os;
    UIDsSnoc(r);
  }

  /** A bulk store keeps every old key and adds exactly the stored UIDs. */
  lemma {:induction false} StoreAllKeys(m: map<string, Order>, os: seq<Order>)
    ensures StoreAll(m, os).Keys == m.Keys + UIDs(os)
  {
    if os != [] {
      StoreAllKeys(m, os[..|os| - 1]);
      UIDsSnoc(os);
    }
  }

  /** A key that no stored order names keeps its old value. */
  lemma {:induction false} StoreAllUntouched(m: map<string, Order>, os: seq<Order>, k: string)
    requires k in m && k !in UIDs(os)
    ensures k in StoreAll(m, os) && StoreAll(m, os)[k] == m[k]
  {
    if os != [] {
      UIDsSnoc(os);
      StoreAllUntouched(m, os[..|os| - 1], k);
    }
  }

  /** For a UID stored more than once, the last write wins. */
  lemma {:induction false} StoreAllLastWins(m: map<string, Order>, os: seq<Order>, i: int)
    requires 0 <= i < |os| && LastWithUID(os, i)
    ensures os[i].orderUID in StoreAll(m, os) && StoreAll(m, os)[os[i].orderUID] == os[i]
  {
    if i < |os| - 1 {
      var init := os[..|os| - 1];
      assert init[i] == os[i];
      assert LastWithUID(init, i);
      StoreAllLastWins(m, init, i);
    }
  }

  /** Where an enumeration lists the order stored under `k`; no later entry shares its UID. */
  lemma IndexOf(s: map<string, Order>, r: seq<Order>, k: string) returns (i: int)
    requires Keyed(s) && Enumerates(r, s) && k in s
    ensures 0 <= i < |r| && r[i] == s[k] && r[i].orderUID == k && LastWithUID(r, i)
  {
    i :| 0 <= i < |r| && r[i].orderUID == k;
  }

  /**
   * Storing a list that enumerates `s` adds exactly `s` to the table: no
   * order of `s` is missed and nothing else is added.
   */
  lemma StoreAllEnumeration(m: map<string, Order>, s: map<string, Order>, r: seq<Order>)
    requires Keyed(s)
    requires Enumerates(r, s)
    ensures StoreAll(m, r) == m + s
  {
    var a, b := StoreAll(m, r), m + s;
    StoreAllKeys(m, r);
    assert a.Keys == b.Keys;
    forall k | k in a ensures a[k] == b[k] {
      StoreAllEnumerationAt(m, s, r, k);
    }
  }

  /** One key of `StoreAllEnumeration`. */
  lemma StoreAllEnumerationAt(m: map<string, Order>, s: map<string, Order>, r: seq<Order>, k: string)
    requires Keyed(s) && Enumerates(r, s)
    requires k in m || k in s
    ensures k in StoreAll(m, r) && StoreAll(m, r)[k] == (m + s)[k]
  {
    if k in s {
      var i := IndexOf(s, r, k);
      StoreAllLastWins(m, r, i);
    } else {
      assert k !in UIDs(r);
      StoreAllUntouched(m, r, k);
    }
  }
}
