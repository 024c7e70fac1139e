/**
 * src/patterns/PrototypeRegistry.js: a mutable catalogue of clonable VM
 * templates, kept in a JavaScript `Map` (insertion-ordered, one entry per
 * key). The id a clone receives comes from the caller instead of a
 * generator.
 */
module Prototypes {
  import opened Js
  import opened VirtualMachines

  const NotClonableMessage := "El prototipo debe implementar el método clone()"

  /** The message `clonePrototype` throws for a key without an entry. */
  function NotFoundMessage(key: string): string {
    "Prototipo con clave \"" + key + "\" no encontrado en el registro"
  }

  /** The two changes the registry accepts: an accepted registration and a removal. */
  datatype Op = Register(key: string, prototype: Vm) | Unregister(key: string)

  /** The contents of the `Map`: its entries and the order its keys iterate in. */
  datatype Snapshot = Snapshot(prototypes: map<string, Vm>, order: seq<string>)

  /** No key occurs twice. */
  predicate Distinct(s: seq<string>) {
    forall i, j :: 0 <= i < j < |s| ==> s[i] != s[j]
  }

  /** A `Map`'s key order lists each of its keys exactly once. */
  predicate WellFormed(m: Snapshot) {
    Distinct(m.order) && (forall k :: k in m.order ==> k in m.prototypes)
    && (forall k :: k in m.prototypes ==> k in m.order)
  }

  /** `s` without the occurrences of `k`, the rest in order. */
  function Without(s: seq<string>, k: string): (r: seq<string>)
    ensures forall x :: x in r <==> x in s && x != k
    ensures Distinct(s) ==> Distinct(r)
    ensures k !in s ==> r == s
  {
    if |s| == 0 then []
    else if s[|s| - 1] == k then Without(s[..|s| - 1], k)
    else
      assert Distinct(s) ==> s[|s| - 1] !in s[..|s| - 1];
      Without(s[..|s| - 1], k) + [s[|s| - 1]]
  }

  /** One change applied to a `Map`: `set` keeps an existing key's place, `delete` drops it. */
  function Step(m: Snapshot, op: Op): Snapshot {
    match op
    case Register(k, vm) => Snapshot(m.prototypes[k := vm], if k in m.order then m.order else m.order + [k])
    case Unregister(k) => Snapshot(m.prototypes - {k}, Without(m.order, k))
  }

  /** The `Map` a history of changes leaves, starting from the empty one. */
  function Replay(ops: seq<Op>): Snapshot {
    if |ops| == 0 then Snapshot(map[], [])
    else Step(Replay(ops[..|ops| - 1]), ops[|ops| - 1])
  }

  /** Every `Map` a history leaves lists each of its keys exactly once. */
  lemma {:induction false} ReplayWellFormed(ops: seq<Op>)
    ensures WellFormed(Replay(ops))
  {
    if |ops| > 0 {
      ReplayWellFormed(ops[..|ops| - 1]);
      var m := Replay(ops[..|ops| - 1]);
      match ops[|ops| - 1]
      case Register(k, _) =>
        if k !in m.order {
          assert forall i :: 0 <= i < |m.order| ==> m.order[i] != k;
        }
      case Unregister(_) =>
    }
  }

  /** The last change a history made to key `k`, if any. */
  function LastTouch(ops: seq<Op>, k: string): Option<Op> {
    if |ops| == 0 then None
    else if ops[|ops| - 1].key == k then Some(ops[|ops| - 1])
    else LastTouch(ops[..|ops| - 1], k)
  }

  /**
   * A key has an entry exactly when it was registered and not unregistered
   * since, and the entry is the prototype of its latest registration.
   */
  lemma {:induction false} HasIffLastRegistered(ops: seq<Op>, k: string)
    ensures k in Replay(ops).prototypes <==> LastTouch(ops, k).Some? && LastTouch(ops, k).value.Register?
    ensures k in Replay(ops).prototypes ==> Replay(ops).prototypes[k] == LastTouch(ops, k).value.prototype
  {
    if |ops| > 0 {
      HasIffLastRegistered(ops[..|ops| - 1], k);
    }
  }

  /** The index of the first occurrence of `k` among the keys a history registers. */
  function FirstRegistration(ops: seq<Op>, k: string): (i: nat)
    ensures i <= |ops|
    ensures i < |ops| ==> ops[i].key == k && forall j :: 0 <= j < i ==> ops[j].key != k
    ensures i == |ops| ==> forall j :: 0 <= j < |ops| ==> ops[j].key != k
  {
    if |ops| == 0 then 0
    else if ops[0].key == k then 0
    else 1 + FirstRegistration(ops[1..], k)
  }

  /** Every change in the history is a registration. */
  predicate RegistrationsOnly(ops: seq<Op>) {
    forall i :: 0 <= i < |ops| ==> ops[i].Register?
  }

  /** The keys of `order` come in the order of their first registration in `ops`. */
  predicate InFirstRegistrationOrder(ops: seq<Op>, order: seq<string>) {
    forall i, j :: 0 <= i < j < |order| ==> FirstRegistration(ops, order[i]) < FirstRegistration(ops, order[j])
  }

  /**
   * With registrations only, the keys are listed in the order of their first
   * registration: re-registering a key never moves it.
   */
  lemma {:induction false} KeysInFirstRegistrationOrder(ops: seq<Op>)
    requires RegistrationsOnly(ops)
    ensures InFirstRegistrationOrder(ops, Replay(ops).order)
  {
    if |ops| > 0 {
      var prefix, last := ops[..|ops| - 1], ops[|ops| - 1];
      assert ops == prefix + [last];
      KeysInFirstRegistrationOrder(prefix);
      var before := Replay(prefix).order;
      var after := Replay(ops).order;
      forall k | k in before
        ensures FirstRegistration(ops, k) == FirstRegistration(prefix, k) < |prefix|
      {
        RegisteredKeysListed(prefix, k);
        FirstRegistrationOfExtension(prefix, last, k);
      }
      if last.key in before {
        assert after == before;
      } else {
        assert after == before + [last.key];
        RegisteredKeysListed(prefix, last.key);
        FirstRegistrationOfExtension(prefix, last, last.key);
        assert FirstRegistration(ops, last.key) == |prefix|;
        forall i, j | 0 <= i < j < |after|
          ensures FirstRegistration(ops, after[i]) < FirstRegistration(ops, after[j])
        {
          assert after[i] == before[i];
          if j < |before| {
            assert after[j] == before[j];
          }
        }
      }
    }
  }

  /** With registrations only, a key is listed exactly when some change registered it. */
  lemma {:induction false} RegisteredKeysListed(ops: seq<Op>, k: string)
    requires RegistrationsOnly(ops)
    ensures k in Replay(ops).order <==> FirstRegistration(ops, k) < |ops|
  {
    ReplayWellFormed(ops);
    HasIffLastRegistered(ops, k);
    if FirstRegistration(ops, k) < |ops| {
      LastTouchExists(ops, FirstRegistration(ops, k));
    } else {
      LastTouchOfUntouched(ops, k);
    }
  }

  /** A key no change touched has no last touch. */
  lemma {:induction false} LastTouchOfUntouched(ops: seq<Op>, k: string)
    requires forall j :: 0 <= j < |ops| ==> ops[j].key != k
    ensures LastTouch(ops, k).None?
  {
    if |ops| > 0 {
      LastTouchOfUntouched(ops[..|ops| - 1], k);
    }
  }

  /** The first registration of a key is unaffected by appending, unless the key is new. */
  lemma {:induction false} FirstRegistrationOfExtension(ops: seq<Op>, op: Op, k: string)
    ensures FirstRegistration(ops + [op], k) ==
              if FirstRegistration(ops, k) < |ops| then FirstRegistration(ops, k)
              else if op.key == k then |ops| else |ops| + 1
  {
    if |ops| > 0 {
      assert (ops + [op])[1..] == ops[1..] + [op];
      if ops[0].key != k {
        FirstRegistrationOfExtension(ops[1..], op, k);
      }
    }
  }

  /** A key touched at index `j` has a last touch, which is a registration when all changes are. */
  lemma {:induction false} LastTouchExists(ops: seq<Op>, j: nat)
    requires RegistrationsOnly(ops)
    requires j < |ops|
    ensures LastTouch(ops, ops[j].key).Some? && LastTouch(ops, ops[j].key).value.Register?
  {
    if j < |ops| - 1 && ops[|ops| - 1].key != ops[j].key {
      LastTouchExists(ops[..|ops| - 1], j);
    }
  }

  /** Every stored prototype has a `clone` method. */
  predicate AllClonable(prototypes: map<string, Vm>) {
    forall k :: k in prototypes ==> HasClone(prototypes[k])
  }

  class PrototypeRegistry {
    var prototypes: map<string, Vm>
    var order: seq<string>
    /** The accepted changes so far, oldest first. */
    ghost var history: seq<Op>

    /** The `Map` is the one its history leaves, and holds clonable prototypes only. */
    ghost predicate Valid()
      reads this
    {
      Snapshot(prototypes, order) == Replay(history) && WellFormed(Snapshot(prototypes, order))
      && AllClonable(prototypes)
    }

    /** `new PrototypeRegistry()`: an empty `Map`. */
    constructor()
      ensures Valid() && prototypes == map[] && order == [] && history == []
    {
      prototypes, order := map[], [];
      history := [];
    }

    /**
     * `registerPrototype(key, prototype)`: a missing prototype, or one whose
     * class has no `clone`, is refused and nothing changes; otherwise the
     * entry is set, a new key going last and an existing one keeping its place.
     */
    method RegisterPrototype(key: string, prototype: Option<Vm>) returns (error: Option<string>)
      requires Valid()
      modifies this
      ensures Valid()
      ensures prototype.None? || !HasClone(prototype.value) ==>
                error == Some(NotClonableMessage) && prototypes == old(prototypes) && order == old(order)
                && history == old(history)
      ensures prototype.Some? && HasClone(prototype.value) ==>
                && error.None?
                && prototypes == old(prototypes)[key := prototype.value]
                && order == (if key in old(order) then old(order) else old(order) + [key])
                && history == old(history) + [Register(key, prototype.value)]
    {
      if prototype.None? || !HasClone(prototype.value) {
        return Some(NotClonableMessage);
      }
      history := history + [Register(key, prototype.value)];
      assert history[..|history| - 1] == old(history);
      prototypes := prototypes[key := prototype.value];
      if key !in order {
        order := order + [key];
      }
      ReplayWellFormed(history);
      return None;
    }

    /**
     * `clonePrototype(key)`: the entry's `clone()`, a copy with the fresh id;
     * a key without an entry throws the not-found message.
     */
    method ClonePrototype(key: string, newId: string) returns (r: Result<Vm>)
      requires Valid()
      ensures key !in prototypes ==> r == Failure(NotFoundMessage(key))
      ensures key in prototypes ==> r.Success? && r.value == Clone(prototypes[key], newId)
      ensures key in prototypes ==> HasClone(r.value) && r.value.id == Str(newId)
                                    && ProviderTag(r.value) == ProviderTag(prototypes[key])
    {
      if key !in prototypes {
        return Failure(NotFoundMessage(key));
      }
      var prototype := prototypes[key];
      return Success(Clone(prototype, newId));
    }

    /** `getPrototypeKeys()`: each key once, in `Map` order. */
    method GetPrototypeKeys() returns (keys: seq<string>)
      requires Valid()
      ensures keys == order
      ensures Distinct(keys) && forall k :: k in keys <==> k in prototypes
    {
      keys := order;
    }

    /** `hasPrototype(key)`. */
    method HasPrototype(key: string) returns (b: bool)
      requires Valid()
      ensures b <==> key in prototypes
      ensures b <==> LastTouch(history, key).Some? && LastTouch(history, key).value.Register?
    {
      HasIffLastRegistered(history, key);
      b := key in prototypes;
    }

    /**
     * `unregisterPrototype(key)`: true exactly when the key had an entry;
     * afterwards it has none and every other entry is as it was.
     */
    method UnregisterPrototype(key: string) returns (removed: bool)
      requires Valid()
      modifies this
      ensures Valid()
      ensures removed <==> key in old(prototypes)
      ensures prototypes == old(prototypes) - {key} && key !in prototypes
      ensures order == Without(old(order), key)
      ensures history == old(history) + [Unregister(key)]
    {
      removed := key in prototypes;
      history := history + [Unregister(key)];
      assert history[..|history| - 1] == old(history);
      prototypes := prototypes - {key};
      order := Without(order, key);
      ReplayWellFormed(history);
    }
  }
}
