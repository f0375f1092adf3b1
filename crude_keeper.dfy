/**
 * The crude module's resource store: resources by id and a resource count
 * stored as 8 big-endian bytes.
 *
 * A resource's store key is an injective function of its id
 * (`GetResourceIDBytes`), so the store is a map from ids. Marshalling a
 * resource to bytes and back is the identity here; the key-prefix constants
 * are a parameter of `GetResourceIDBytes`.
 */
module SetOrder {
  /** A non-empty set of ids has a least element. */
  lemma MinExists(s: set<int>)
    requires s != {}
    ensures exists m :: m in s && forall x :: x in s ==> m <= x
    decreases |s|
  {
    if forall x :: x !in s {
      assert false;
    }
    var y :| y in s;
    var others := s - {y};
    if others == {} {
      assert s == {y};
    } else {
      MinExists(others);
      var m :| m in others && forall x :: x in others ==> m <= x;
      var least := if y < m then y else m;
      forall x | x in s
        ensures least <= x
      {
        if x != y {
          assert x in others;
        }
      }
      assert least in s;
    }
  }
}

module CrudeKeeper {
  import opened SetOrder
  import opened Outcomes
  import opened FixedPoint
  import opened CrudeTypes

  type Byte = x: int | 0 <= x < 256

  const Two64: int := 0x1_0000_0000_0000_0000

  /** The number n in `width` big-endian bytes, most significant first. */
  function EncodeBE(n: nat, width: nat): (bytes: seq<Byte>)
    ensures |bytes| == width
  {
    if width == 0 then [] else EncodeBE(n / 256, width - 1) + [n % 256]
  }

  /** The number that big-endian bytes spell. */
  function DecodeBE(bytes: seq<Byte>): nat
  {
    if |bytes| == 0 then 0 else DecodeBE(bytes[..|bytes| - 1]) * 256 + bytes[|bytes| - 1]
  }

  function Pow256(k: nat): (r: nat)
    ensures r >= 1
  {
    if k == 0 then 1 else 256 * Pow256(k - 1)
  }

  /** Decoding the encoding of a number that fits the width gives the number back. */
  lemma {:induction false} DecodeEncode(n: nat, width: nat)
    requires n < Pow256(width)
    ensures DecodeBE(EncodeBE(n, width)) == n
  {
    if width > 0 {
      var bytes := EncodeBE(n, width);
      assert bytes[..|bytes| - 1] == EncodeBE(n / 256, width - 1);
      DivisionBounds(n, 256);
      assert n / 256 < Pow256(width - 1);
      DecodeEncode(n / 256, width - 1);
    }
  }

  /** Bytes decode to a number that fits their width. */
  lemma {:induction false} DecodeBounded(bytes: seq<Byte>)
    ensures DecodeBE(bytes) < Pow256(|bytes|)
  {
    if |bytes| > 0 {
      var init := bytes[..|bytes| - 1];
      DecodeBounded(init);
      MulLe(DecodeBE(init) + 1, Pow256(|init|), 256);
    }
  }

  /** Encoding decoded bytes gives the bytes back. */
  lemma {:induction false} EncodeDecode(bytes: seq<Byte>)
    ensures EncodeBE(DecodeBE(bytes), |bytes|) == bytes
  {
    if |bytes| > 0 {
      var init, last := bytes[..|bytes| - 1], bytes[|bytes| - 1];
      var n := DecodeBE(bytes);
      ModUnique(n, 256, DecodeBE(init), last);
      EncodeDecode(init);
      assert bytes == init + [last];
    }
  }

  lemma Pow256Of8()
    ensures Pow256(8) == Two64
  {
  }

  /** `binary.BigEndian.PutUint64`. */
  function PutUint64(n: Uint64): (bytes: seq<Byte>)
    ensures |bytes| == 8
    ensures DecodeBE(bytes) == n
  {
    Pow256Of8();
    DecodeEncode(n, 8);
    EncodeBE(n, 8)
  }

  /** `binary.BigEndian.Uint64`: it panics on fewer than 8 bytes. */
  function Uint64Of(bytes: seq<Byte>): (n: Uint64)
    requires |bytes| == 8
    ensures PutUint64(n) == bytes
  {
    Pow256Of8();
    DecodeBounded(bytes);
    EncodeDecode(bytes);
    DecodeBE(bytes)
  }

  /** The separator between the key prefix and the id: the byte of '/'. */
  const Slash: Byte := 47

  /** `GetResourceIDBytes`: the key prefix, a slash, and the id in 8 big-endian bytes. */
  function GetResourceIDBytes(prefix: seq<Byte>, id: Uint64): (key: seq<Byte>)
    ensures |key| == |prefix| + 9
    ensures key[..|prefix| + 1] == prefix + [Slash]
  {
    prefix + [Slash] + PutUint64(id)
  }

  /** Different ids have different keys. */
  lemma IDBytesInjective(prefix: seq<Byte>, id: Uint64, id': Uint64)
    requires GetResourceIDBytes(prefix, id) == GetResourceIDBytes(prefix, id')
    ensures id == id'
  {
    var key, key' := GetResourceIDBytes(prefix, id), GetResourceIDBytes(prefix, id');
    assert key[|prefix| + 1..] == PutUint64(id);
    assert key'[|prefix| + 1..] == PutUint64(id');
  }

  /** `a` comes before `b` in the byte order of store keys. */
  predicate LexLess(a: seq<Byte>, b: seq<Byte>)
  {
    exists k :: 0 <= k < |a| && k < |b| && a[..k] == b[..k] && a[k] < b[k]
  }

  /** Two different byte strings of one length differ first at some position. */
  lemma {:induction false} FirstDifference(a: seq<Byte>, b: seq<Byte>) returns (k: nat)
    requires |a| == |b| && a != b
    ensures k < |a| && a[..k] == b[..k] && a[k] != b[k]
  {
    if a[0] != b[0] {
      return 0;
    }
    assert a == [a[0]] + a[1..] && b == [b[0]] + b[1..];
    var k' := FirstDifference(a[1..], b[1..]);
    k := k' + 1;
    assert a[..k] == [a[0]] + a[1..][..k'];
    assert b[..k] == [b[0]] + b[1..][..k'];
  }

  /** Big-endian bytes that come first in key order spell the smaller number. */
  lemma {:induction false} DecodeRespectsLex(a: seq<Byte>, b: seq<Byte>, k: nat)
    requires |a| == |b| && k < |a| && a[..k] == b[..k] && a[k] < b[k]
    ensures DecodeBE(a) < DecodeBE(b)
  {
    var n := |a| - 1;
    var ia, ib := a[..n], b[..n];
    if k == n {
      assert ia == ib;
    } else {
      assert ia[..k] == a[..k] && ib[..k] == b[..k];
      DecodeRespectsLex(ia, ib, k);
      MulLe(DecodeBE(ia) + 1, DecodeBE(ib), 256);
    }
  }

  /** Keys of ascending ids ascend in the store's byte order. */
  lemma KeysAscendWithIds(prefix: seq<Byte>, id: Uint64, id': Uint64)
    requires id < id'
    ensures LexLess(GetResourceIDBytes(prefix, id), GetResourceIDBytes(prefix, id'))
  {
    var ea, eb := PutUint64(id), PutUint64(id');
    var k := FirstDifference(ea, eb);
    if eb[k] < ea[k] {
      DecodeRespectsLex(eb, ea, k);
    }
    var key, key' := GetResourceIDBytes(prefix, id), GetResourceIDBytes(prefix, id');
    var at := |prefix| + 1 + k;
    assert key[..at] == prefix + [Slash] + ea[..k];
    assert key'[..at] == prefix + [Slash] + eb[..k];
    assert key[at] == ea[k] && key'[at] == eb[k];
  }

  /** The store a keeper opens: the count bytes if any, and the resources by id. */
  class Keeper {
    var countBytes: Option<seq<Byte>>
    var resources: map<Uint64, Resource>

    /** The count is 8 bytes when stored, and every resource is stored under its own id. */
    ghost predicate Valid()
      reads this
    {
      && (countBytes.Some? ==> |countBytes.value| == 8)
      && (forall id :: id in resources ==> resources[id].id == id)
    }

    /** The resource count the stored bytes spell; 0 when none are stored. */
    function Count(): Uint64
      reads this
      requires Valid()
    {
      if countBytes.None? then 0 else Uint64Of(countBytes.value)
    }

    /** An empty store. */
    constructor ()
      ensures Valid()
      ensures countBytes == None && resources == map[]
    {
      countBytes := None;
      resources := map[];
    }

    /** `GetResourceCount`. */
    method GetResourceCount() returns (count: Uint64)
      requires Valid()
      ensures countBytes.None? ==> count == 0
      ensures countBytes.Some? ==> PutUint64(count) == countBytes.value
      ensures count == Count()
    {
      if countBytes.None? {
        return 0;
      }
      return Uint64Of(countBytes.value);
    }

    /** `SetResourceCount`: the count as 8 big-endian bytes. */
    method SetResourceCount(count: Uint64)
      requires Valid()
      modifies this
      ensures Valid()
      ensures countBytes == Some(PutUint64(count)) && resources == old(resources)
      ensures Count() == count
    {
      countBytes := Some(PutUint64(count));
    }

    /**
     * `AppendResource`: stores the resource under the current count as its id and
     * returns that id; the count goes up by one, wrapping around in uint64.
     */
    method AppendResource(resource: Resource) returns (id: Uint64)
      requires Valid()
      modifies this
      ensures Valid()
      ensures id == old(Count())
      ensures resources == old(resources)[id := resource.(id := id)]
      ensures Count() == (old(Count()) + 1) % Two64
    {
      var count := GetResourceCount();
      var appended := resource.(id := count);
      resources := resources[appended.id := appended];
      SetResourceCount((count + 1) % Two64);
      return count;
    }

    /** `SetResource`: stores the resource under its id, replacing what was there. */
    method SetResource(resource: Resource)
      requires Valid()
      modifies this
      ensures Valid()
      ensures resources == old(resources)[resource.id := resource]
      ensures countBytes == old(countBytes)
    {
      resources := resources[resource.id := resource];
    }

    /** `GetResource`: the resource stored under the id, or the zero value and false. */
    method GetResource(id: Uint64) returns (val: Resource, found: bool)
      ensures found <==> id in resources
      ensures found ==> val == resources[id]
      ensures !found ==> val == EmptyResource
    {
      if id !in resources {
        return EmptyResource, false;
      }
      return resources[id], true;
    }

    /** `RemoveResource`: deletes the entry under the id, if any. */
    method RemoveResource(id: Uint64)
      requires Valid()
      modifies this
      ensures Valid()
      ensures resources == old(resources) - {id}
      ensures countBytes == old(countBytes)
    {
      resources := resources - {id};
    }

    /**
     * `GetAllResource`: every stored resource, in the order of their keys, which
     * for big-endian ids of one width is the order of the ids.
     */
    method GetAllResource() returns (list: seq<Resource>)
      requires Valid()
      ensures |list| == |resources|
      ensures forall i, j :: 0 <= i < j < |list| ==> list[i].id < list[j].id
      ensures forall r :: r in list <==> r in resources.Values
    {
      var store: map<int, Resource> := resources;
      list := [];
      var remaining: set<int> := store.Keys;
      ghost var ids: seq<int> := [];
      while remaining != {}
        invariant Listing(store, remaining, ids, list)
        decreases |remaining|
      {
        MinExists(remaining);
        var next: int :| next in remaining && forall x :: x in remaining ==> next <= x;
        ListingStep(store, remaining, ids, list, next);
        list := list + [store[next]];
        ids := ids + [next];
        remaining := remaining - {next};
      }
      ListingDone(store, ids, list);
    }
  }

  /**
   * Part way through listing a store in ascending id order: `ids` are the ids
   * taken so far, ascending and below every id still `remaining`, and `list`
   * holds their resources.
   */
  ghost predicate Listing(store: map<int, Resource>, remaining: set<int>, ids: seq<int>, list: seq<Resource>)
  {
    && remaining <= store.Keys && |remaining| + |ids| == |store|
    && (forall id :: id in store ==> id in remaining || id in ids)
    && |ids| == |list|
    && (forall i :: 0 <= i < |ids| ==> ids[i] in store && list[i] == store[ids[i]])
    && (forall i, j :: 0 <= i < j < |ids| ==> ids[i] < ids[j])
    && (forall i, id :: 0 <= i < |ids| && id in remaining ==> ids[i] < id)
  }

  /** Taking the least remaining id keeps the listing in order. */
  lemma ListingStep(store: map<int, Resource>, remaining: set<int>, ids: seq<int>, list: seq<Resource>, next: int)
    requires Listing(store, remaining, ids, list)
    requires next in remaining && forall x :: x in remaining ==> next <= x
    ensures Listing(store, remaining - {next}, ids + [next], list + [store[next]])
  {
    var ids', list', rest := ids + [next], list + [store[next]], remaining - {next};
    forall i | 0 <= i < |ids'|
      ensures ids'[i] in store && list'[i] == store[ids'[i]]
    {
      if i < |ids| {
        assert ids'[i] == ids[i] && list'[i] == list[i];
      }
    }
    forall i, id | 0 <= i < |ids'| && id in rest
      ensures ids'[i] < id
    {
      if i < |ids| {
        assert ids'[i] == ids[i];
      }
    }
    forall id | id in store
      ensures id in rest || id in ids'
    {
      if id !in rest && id != next {
        assert id in ids;
      }
    }
  }

  /** A finished listing holds every stored resource once, in ascending id order. */
  lemma ListingDone(store: map<int, Resource>, ids: seq<int>, list: seq<Resource>)
    requires Listing(store, {}, ids, list)
    requires forall id :: id in store ==> store[id].id == id
    ensures |list| == |store|
    ensures forall i, j :: 0 <= i < j < |list| ==> list[i].id < list[j].id
    ensures forall r :: r in list <==> r in store.Values
  {
    forall i | 0 <= i < |list|
      ensures list[i].id == ids[i]
    {
    }
    forall r | r in store.Values
      ensures r in list
    {
      if forall id :: id in store ==> store[id] != r {
        assert false;
      }
      var id :| id in store && store[id] == r;
      var i :| 0 <= i < |ids| && ids[i] == id;
      assert list[i] == r;
    }
  }

  /** The store after appending n zero-valued resources from count c: ids c to c + n - 1. */
  function AppendedZeros(store: map<Uint64, Resource>, c: nat, n: nat): map<Uint64, Resource>
    requires c + n <= Two64
  {
    if n == 0 then store
    else AppendedZeros(store, c, n - 1)[c + n - 1 := EmptyResource.(id := c + n - 1)]
  }

  /** Appending from count c adds exactly the ids c to c + n - 1, each with its own id, and keeps the rest. */
  lemma {:induction false} AppendedZerosContents(store: map<Uint64, Resource>, c: nat, n: nat, id: Uint64)
    requires c + n <= Two64
    ensures id in AppendedZeros(store, c, n) <==> id in store || c <= id < c + n
    ensures c <= id < c + n ==> AppendedZeros(store, c, n)[id] == EmptyResource.(id := id)
    ensures id in store && !(c <= id < c + n) ==> AppendedZeros(store, c, n)[id] == store[id]
  {
    if n > 0 {
      AppendedZerosContents(store, c, n - 1, id);
    }
  }

  /**
   * The tests' `createNResource`: appends n zero-valued resources and records
   * each with the id it got. From a count c they get ids c, c + 1, ..., and the
   * count grows by n.
   */
  method CreateNResource(k: Keeper, n: nat) returns (items: seq<Resource>)
    requires k.Valid() && k.Count() + n < Two64
    modifies k
    ensures k.Valid()
    ensures |items| == n
    ensures forall i :: 0 <= i < n ==> items[i] == EmptyResource.(id := old(k.Count()) + i)
    ensures k.resources == AppendedZeros(old(k.resources), old(k.Count()), n)
    ensures k.Count() == old(k.Count()) + n
  {
    ghost var c, before := k.Count(), k.resources;
    items := [];
    var i := 0;
    while i < n
      invariant 0 <= i <= n && |items| == i
      invariant k.Valid() && k.Count() == c + i
      invariant forall j :: 0 <= j < i ==> items[j] == EmptyResource.(id := c + j)
      invariant k.resources == AppendedZeros(before, c, i)
    {
      var id := k.AppendResource(EmptyResource);
      items := items + [EmptyResource.(id := id)];
      i := i + 1;
    }
  }

  /** On a fresh store, n appends give ids 0 to n - 1, each found with its resource, and a count of n. */
  method CreateNResourceFresh(n: nat) returns (k: Keeper, items: seq<Resource>)
    requires n < Two64
    ensures fresh(k) && k.Valid()
    ensures |items| == n && k.Count() == n
    ensures forall i :: 0 <= i < n ==> items[i].id == i && items[i].id in k.resources && k.resources[items[i].id] == items[i]
    ensures forall id: int :: id in k.resources <==> 0 <= id < n
  {
    k := new Keeper();
    items := CreateNResource(k, n);
    forall id: Uint64
      ensures id in k.resources <==> id < n
      ensures id < n ==> k.resources[id] == EmptyResource.(id := id)
    {
      AppendedZerosContents(map[], 0, n, id);
    }
    forall i | 0 <= i < n
      ensures items[i].id in k.resources && k.resources[items[i].id] == items[i]
    {
      AppendedZerosContents(map[], 0, n, items[i].id);
    }
  }
}
