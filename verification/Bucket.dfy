/** The bucket: a store with conditional writes (bucket/fake.go) and the signing client every
    caller goes through (bucket/client.go). */
module Bucket {
  import opened Wrappers

  type Party = string

  /** What a chat message says, and what an object's body may be: JSON is an injective codec. */
  datatype Message = Message(room: string, author: string, text: string)

  datatype Body = Letter(m: Message) | Raw(text: string)

  /** A signature covers the key as well as the body; nobody signs for another party. */
  datatype Sig = Sig(signer: Party, key: string, body: Body)

  datatype Object = Object(body: Body, sig: Option<Sig>, etag: nat)

  /** IfNoneMatch creates only; IfMatch replaces only the version with that ETag. */
  datatype Cond = Always | IfNoneMatch | IfMatch(etag: nat)

  datatype Fault = NotFound | Exists | Conflict | BadSignature | Precondition | Unavailable

  predicate Holds(cond: Cond, objects: map<string, Object>, key: string) {
    match cond
    case Always => true
    case IfNoneMatch => key !in objects
    case IfMatch(etag) => key in objects && objects[key].etag == etag
  }

  /** The store. Every write gets an ETag no earlier write had. */
  class Fake {
    var objects: map<string, Object>
    var version: nat
    var classA: nat
    var classB: nat
    /** How many operations did not reach it. */
    ghost var outages: nat

    constructor ()
      ensures Valid() && objects == map[] && classA == classB == outages == 0
    {
      objects, version, classA, classB, outages := map[], 0, 0, 0, 0;
    }

    /** Whether an operation reaches the store. */
    method Reach() returns (ok: bool)
      modifies this`outages
      ensures outages == if ok then old(outages) else old(outages) + 1
    {
      ok := *;
      outages := if ok then outages else outages + 1;
    }

    ghost predicate Valid()
      reads this`objects, this`version
    {
      && (forall k :: k in objects ==> 1 <= objects[k].etag <= version)
      && (forall k, l :: k in objects && l in objects && k != l ==> objects[k].etag != objects[l].etag)
    }

    method Get(key: string) returns (r: Result<Object, Fault>)
      requires Valid()
      modifies this`classB
      ensures classB == old(classB) + 1
      ensures r == if key in objects then Ok(objects[key]) else Err(NotFound)
    {
      classB := classB + 1;
      return if key in objects then Ok(objects[key]) else Err(NotFound);
    }

    method Put(key: string, body: Body, sig: Option<Sig>, cond: Cond) returns (r: Result<nat, Fault>)
      requires Valid()
      modifies this`objects, this`version, this`classA
      ensures Valid() && classA == old(classA) + 1
      ensures r.Ok? <==> Holds(cond, old(objects), key)
      ensures r.Ok? ==> objects == old(objects)[key := Object(body, sig, r.value)]
                        && forall k :: k in old(objects) ==> old(objects)[k].etag < r.value
      ensures r.Err? ==> r.error == Precondition && objects == old(objects)
    {
      classA := classA + 1;
      if cond.IfNoneMatch? && key in objects {
        return Err(Precondition);
      }
      if cond.IfMatch? && (key !in objects || objects[key].etag != cond.etag) {
        return Err(Precondition);
      }
      version := version + 1;
      objects := objects[key := Object(body, sig, version)];
      return Ok(version);
    }
  }

  predicate Verified(key: string, obj: Object, trusted: set<Party>) {
    obj.sig.Some? && obj.sig.value.signer in trusted && obj.sig.value.key == key && obj.sig.value.body == obj.body
  }

  /** What a client wrote is verified by exactly those who trust it, and under this key only. */
  lemma WrittenVerifies(c: Caller, before: map<string, Object>, after: map<string, Object>, key: string, body: Body, etag: nat,
                        trusted: set<Party>, other: string)
    requires c.Wrote(before, after, key, body, etag)
    ensures Verified(key, after[key], trusted) <==> c.me in trusted
    ensures other != key ==> !Verified(other, after[key], trusted)
  {
    assert after[key] == Object(body, Some(Sig(c.me, key, body)), etag);
  }

  /** One party's client: it signs what it writes and drops what it cannot verify. An operation
      may also fail before it reaches the store, with Unavailable, and then changes nothing. */
  class Caller {
    const store: Fake
    const me: Party
    const trusted: set<Party>

    constructor (store: Fake, me: Party, others: set<Party>)
      ensures this.store == store && this.me == me && trusted == others + {me}
    {
      this.store, this.me, trusted := store, me, others + {me};
    }

    method Get(key: string) returns (r: Result<Object, Fault>)
      requires store.Valid()
      modifies store`classB, store`outages
      ensures store.classB <= old(store.classB) + 1
      ensures store.outages == if r == Err(Unavailable) then old(store.outages) + 1 else old(store.outages)
      ensures r.Ok? ==> key in store.objects && r.value == store.objects[key] && Verified(key, r.value, trusted)
      ensures r.Err? ==> match r.error
                         case NotFound => key !in store.objects
                         case BadSignature => key in store.objects && !Verified(key, store.objects[key], trusted)
                         case other => other == Unavailable
    {
      var reached := store.Reach();
      if !reached {
        return Err(Unavailable);
      }
      r := store.Get(key);
      if r.Ok? && !Verified(key, r.value, trusted) {
        return Err(BadSignature);
      }
    }

    method Write(key: string, body: Body, cond: Cond) returns (r: Result<nat, Fault>)
      requires store.Valid()
      modifies store`objects, store`version, store`classA, store`outages
      ensures store.Valid()
      ensures store.outages == if r == Err(Unavailable) then old(store.outages) + 1 else old(store.outages)
      ensures r.Ok? ==> Holds(cond, old(store.objects), key) && Wrote(old(store.objects), store.objects, key, body, r.value)
      ensures r.Err? ==> store.objects == old(store.objects)
                         && (r.error == Unavailable || (r.error == Precondition && !Holds(cond, store.objects, key)))
    {
      var reached := store.Reach();
      if !reached {
        return Err(Unavailable);
      }
      r := store.Put(key, body, Some(Sig(me, key, body)), cond);
    }

    /** key now holds body, signed by this party, under a fresh ETag. */
    ghost predicate Wrote(before: map<string, Object>, after: map<string, Object>, key: string, body: Body, etag: nat) {
      && after == before[key := Object(body, Some(Sig(me, key, body)), etag)]
      && forall k :: k in before ==> before[k].etag < etag
    }

    method Put(key: string, body: Body) returns (r: Result<nat, Fault>)
      requires store.Valid()
      modifies store`objects, store`version, store`classA, store`outages
      ensures store.Valid()
      ensures store.outages == if r == Err(Unavailable) then old(store.outages) + 1 else old(store.outages)
      ensures r.Ok? ==> Wrote(old(store.objects), store.objects, key, body, r.value)
      ensures r.Err? ==> store.objects == old(store.objects) && r.error == Unavailable
    {
      r := Write(key, body, Always);
    }

    /** Writes body only if key does not exist yet. */
    method Create(key: string, body: Body) returns (r: Result<nat, Fault>)
      requires store.Valid()
      modifies store`objects, store`version, store`classA, store`outages
      ensures store.Valid()
      ensures store.outages == if r == Err(Unavailable) then old(store.outages) + 1 else old(store.outages)
      ensures r.Ok? ==> key !in old(store.objects) && Wrote(old(store.objects), store.objects, key, body, r.value)
      ensures r.Err? ==> store.objects == old(store.objects)
                         && (r.error == Unavailable || (r.error == Exists && key in store.objects))
    {
      r := Write(key, body, IfNoneMatch);
      if r.Err? && r.error == Precondition {
        return Err(Exists);
      }
    }

    /** Replaces key only if it is still at etag. */
    method Swap(key: string, body: Body, etag: nat) returns (r: Result<nat, Fault>)
      requires store.Valid()
      modifies store`objects, store`version, store`classA, store`outages
      ensures store.Valid()
      ensures store.outages == if r == Err(Unavailable) then old(store.outages) + 1 else old(store.outages)
      ensures r.Ok? ==> key in old(store.objects) && old(store.objects[key].etag) == etag
                        && Wrote(old(store.objects), store.objects, key, body, r.value)
      ensures r.Err? ==> && store.objects == old(store.objects)
                         && (r.error == Unavailable
                             || (r.error == Conflict && (key !in store.objects || store.objects[key].etag != etag)))
    {
      r := Write(key, body, IfMatch(etag));
      if r.Err? && r.error == Precondition {
        return Err(Conflict);
      }
    }
  }
}
