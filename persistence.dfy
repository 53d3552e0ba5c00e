/**
 * The two tables as an in-memory database: Owner and Horse rows keyed by
 * autoincrement ids, with the constraints the schema and the validated DTOs
 * keep, and the on-delete-cascade of the Horse.owner foreign key.
 */
module Persistence {
  import opened Domain

  /** No two owners share an email. */
  ghost predicate EmailsDistinct(owners: map<int, Owner>) {
    forall a, b :: a in owners && b in owners && a != b ==> owners[a].email != owners[b].email
  }

  /** `findUnique({ where: { email } })` finds a row. */
  predicate EmailTaken(owners: map<int, Owner>, email: string) {
    exists id :: id in owners && owners[id].email == email
  }

  /** The horses the cascade keeps when owner `ownerId` is deleted. */
  function CascadeDelete(horses: map<int, Horse>, ownerId: int): (kept: map<int, Horse>)
    ensures kept.Keys == horses.Keys - OwnedBy(horses, ownerId)
    ensures forall id :: id in kept ==> kept[id] == horses[id]
  {
    map id | id in horses && horses[id].owner != ownerId :: horses[id]
  }

  /** The ids of the horses of owner `ownerId`. */
  function OwnedBy(horses: map<int, Horse>, ownerId: int): set<int> {
    set id | id in horses && horses[id].owner == ownerId
  }

  /**
   * The cascade deletes exactly the horses of the deleted owner: none of them
   * remains, every other horse remains as it was, and the counts add up.
   */
  lemma CascadeDeletesExactlyOwnedHorses(horses: map<int, Horse>, ownerId: int)
    ensures forall id :: id in CascadeDelete(horses, ownerId) ==> CascadeDelete(horses, ownerId)[id].owner != ownerId
    ensures forall id :: id in horses && horses[id].owner != ownerId ==>
              id in CascadeDelete(horses, ownerId) && CascadeDelete(horses, ownerId)[id] == horses[id]
    ensures |horses| == |CascadeDelete(horses, ownerId)| + |OwnedBy(horses, ownerId)|
  {
    var rest := CascadeDelete(horses, ownerId);
    var owned := OwnedBy(horses, ownerId);
    assert rest.Keys == horses.Keys - owned;
    assert owned <= horses.Keys;
    DifferenceSize(horses.Keys, owned);
  }

  lemma {:induction false} DifferenceSize<T>(a: set<T>, b: set<T>)
    requires b <= a
    ensures |a - b| == |a| - |b|
  {
    if b != {} {
      var x := Pick(b);
      DifferenceSize(a - {x}, b - {x});
      assert (a - {x}) - (b - {x}) == a - b;
    }
  }

  /** Some element of a non-empty set. */
  lemma Pick<T>(s: set<T>) returns (x: T)
    requires s != {}
    ensures x in s
  {
    if forall y :: y !in s {
      assert false;
    }
    x :| x in s;
  }

  /** A key under which a map stores a given value. */
  lemma KeyOf<K, V>(m: map<K, V>, v: V) returns (k: K)
    requires v in m.Values
    ensures k in m && m[k] == v
  {
    if forall j :: j in m ==> m[j] != v {
      assert false;
    }
    k :| k in m && m[k] == v;
  }

  /** A value stored under no key is not among the map's values. */
  lemma NotAValue<K, V>(m: map<K, V>, v: V)
    requires forall k :: k in m ==> m[k] != v
    ensures v !in m.Values
  {
    if v in m.Values {
      var k := KeyOf(m, v);
      assert false;
    }
  }

  /** A map whose values carry their own key has as many distinct values as keys. */
  lemma {:induction false} KeyedValuesCount<V>(m: map<int, V>, key: V -> int)
    requires forall id :: id in m ==> key(m[id]) == id
    ensures |m.Values| == |m|
  {
    if m.Keys != {} {
      var id := Pick(m.Keys);
      var rest := m - {id};
      KeyedValuesCount(rest, key);
      forall v | v in m.Values ensures v in rest.Values + {m[id]} {
        var k := KeyOf(m, v);
        if k != id {
          assert rest[k] == v;
        }
      }
      assert m.Values == rest.Values + {m[id]};
      forall k | k in rest ensures rest[k] != m[id] {
        assert key(rest[k]) == k;
      }
      NotAValue(rest, m[id]);
      assert |m| == |rest| + 1 by {
        assert m.Keys == rest.Keys + {id};
      }
    }
  }

  class Database {
    var owners: map<int, Owner>
    var horses: map<int, Horse>
    var nextOwnerId: int
    var nextHorseId: int

    /**
     * Rows sit under their own id, ids are below the autoincrement counters,
     * emails are unique, every horse's owner exists and every age is in bounds.
     */
    ghost predicate Valid()
      reads this
    {
      && 1 <= nextOwnerId && 1 <= nextHorseId
      && (forall id :: id in owners ==> 1 <= id < nextOwnerId && owners[id].id == id)
      && (forall id :: id in horses ==> 1 <= id < nextHorseId && horses[id].id == id)
      && EmailsDistinct(owners)
      && (forall id :: id in horses ==> horses[id].owner in owners)
      && (forall id :: id in horses ==> MinAge <= horses[id].age <= MaxAge)
    }

    constructor ()
      ensures Valid()
      ensures owners == map[] && horses == map[]
    {
      owners, horses := map[], map[];
      nextOwnerId, nextHorseId := 1, 1;
    }
  }
}
