/** What an address set with derived entries should hold now. */
module Derived {
  import opened Orders
  import opened Host
  import opened Delegation

  /** One entry of a set: written out, or cut from the delegation an interface holds. */
  datatype Entry =
    | Literal(text: string)
    | FromPrefix(interface: string, subnetId: Option<int>, token: Option<nat>)
    | Subnetwork(interface: string, subnetId: Option<int>)

  /** How an address and a network are written. */
  datatype Notation = Notation(address: nat -> string, network: Prefix -> string)

  ghost predicate ValidHeld(held: map<string, seq<Prefix>>) {
    forall i :: i in held ==> forall p :: p in held[i] ==> Valid(p)
  }

  function HeldOn(held: map<string, seq<Prefix>>, interface: string): seq<Prefix> {
    if interface in held then held[interface] else []
  }

  /** The element an entry is now, or what it waits for. */
  function ElementOf(e: Entry, held: map<string, seq<Prefix>>, notation: Notation): Resolution<string>
    requires ValidHeld(held)
  {
    match e
    case Literal(text) => Found(text)
    case FromPrefix(i, id, token) =>
      (match AddressOf(HeldOn(held, i), id, token)
       case Found(r) => Found(notation.address(r.address))
       case Waits(reason) => Waits(reason))
    case Subnetwork(i, id) =>
      (match SubnetOf(HeldOn(held, i), id)
       case Found(s) => Found(notation.network(s))
       case Waits(reason) => Waits(reason))
  }

  /** What an entry is written as: a literal as it is, an address cut from what its interface holds,
      or the network it lies in. */
  ghost predicate Yields(e: Entry, held: map<string, seq<Prefix>>, notation: Notation, text: string)
    requires ValidHeld(held)
  {
    match e
    case Literal(written) => text == written
    case FromPrefix(i, id, token) =>
      exists r :: i in held && AddressOf(held[i], id, token) == Found(r) && text == notation.address(r.address)
    case Subnetwork(i, id) =>
      exists s :: i in held && SubnetOf(held[i], id) == Found(s) && text == notation.network(s)
  }

  lemma {:induction false} YieldsIs(e: Entry, held: map<string, seq<Prefix>>, notation: Notation, text: string)
    requires ValidHeld(held)
    ensures Yields(e, held, notation, text) <==> ElementOf(e, held, notation) == Found(text)
  {}

  lemma {:induction false} EachYields(entries: seq<Entry>, elements: seq<string>, waiting: seq<nat>,
      held: map<string, seq<Prefix>>, notation: Notation)
    requires ValidHeld(held)
    requires forall t :: t in elements <==>
        exists i :: 0 <= i < |entries| && ElementOf(entries[i], held, notation) == Found(t)
    requires forall i: nat :: i in waiting <==> i < |entries| && ElementOf(entries[i], held, notation).Waits?
    ensures forall t :: t in elements <==> exists i :: 0 <= i < |entries| && Yields(entries[i], held, notation, t)
    ensures forall i: nat :: i in waiting <==> i < |entries| && forall t :: !Yields(entries[i], held, notation, t)
  {
    forall i: nat, t | i < |entries|
      ensures Yields(entries[i], held, notation, t) <==> ElementOf(entries[i], held, notation) == Found(t)
    {
      YieldsIs(entries[i], held, notation, t);
    }
    forall i: nat ensures i in waiting <==> i < |entries| && forall t :: !Yields(entries[i], held, notation, t) {
      if i < |entries| && ElementOf(entries[i], held, notation).Found? {
        assert Yields(entries[i], held, notation, ElementOf(entries[i], held, notation).value);
      }
    }
  }

  /** The set holds each entry that resolves, once, in the order it is read back in, and waits
      for exactly the others: so what it is compared with never differs for its order. */
  method ElementsOf(entries: seq<Entry>, held: map<string, seq<Prefix>>, notation: Notation)
      returns (elements: seq<string>, waiting: seq<nat>)
    requires ValidHeld(held)
    ensures StrictlyIncreasing(elements) && Canonical(elements) == elements
    ensures forall t :: t in elements <==> exists i :: 0 <= i < |entries| && Yields(entries[i], held, notation, t)
    ensures forall i: nat :: i in waiting <==> i < |entries| && forall t :: !Yields(entries[i], held, notation, t)
  {
    var found: seq<string> := [];
    waiting := [];
    for i := 0 to |entries|
      invariant forall t :: t in found <==> exists k :: 0 <= k < i && ElementOf(entries[k], held, notation) == Found(t)
      invariant forall k: nat :: k in waiting <==> k < i && ElementOf(entries[k], held, notation).Waits?
    {
      match ElementOf(entries[i], held, notation)
      case Found(text) => found := found + [text];
      case Waits(_) => waiting := waiting + [i];
    }
    elements := Compact(Sort(found, TextLe));
    CanonicalIncreasing(found);
    CanonicalFixedPoint(elements);
    EachYields(entries, elements, waiting, held, notation);
  }
}
