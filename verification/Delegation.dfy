/** Subnets and addresses cut from a delegated prefix, and how a downstream host finds the
    delegation again from the addresses it was advertised. */
module Delegation {
  import opened Host
  import opened Powers

  /** An IPv6 prefix; the address is its 128-bit number. */
  datatype Prefix = Prefix(address: nat, length: nat)

  predicate Valid(p: Prefix) { p.length <= 128 && p.address < WORD * WORD }

  /** What clearing the bits below a power of two leaves of a number. */
  function Kept(n: nat, q: nat): nat
    requires q > 0
  {
    n - n % q
  }

  /** The prefix with every bit beyond its length cleared. */
  function Masked(p: Prefix): Prefix
    requires p.length <= 128
  {
    Prefix(Kept(p.address, Pow2(128 - p.length)), p.length)
  }

  datatype Reason = NothingHeld | SeveralHeld(count: nat) | TooLong(length: nat) | NoRoom(id: int) | BadToken

  datatype Resolution<T> = Found(value: T) | Waits(reason: Reason)

  const SUBNET_BITS := 64

  // ----- what a derived value resolves to --------------------------------------------

  function Held(prefixes: seq<Prefix>): Resolution<Prefix>
    requires forall p :: p in prefixes ==> Valid(p)
  {
    if |prefixes| == 0 then Waits(NothingHeld)
    else if |prefixes| == 1 then assert Valid(prefixes[0]); Found(Masked(prefixes[0]))
    else Waits(SeveralHeld(|prefixes|))
  }

  predicate Fits(id: int, length: nat)
    requires length <= SUBNET_BITS
  {
    id >= 0 && (SUBNET_BITS - length < 63 ==> id < Pow2(SUBNET_BITS - length))
  }

  /** The /64 with the subnet ID in the bits between the delegation's length and 64. */
  function SubnetOf(prefixes: seq<Prefix>, subnetId: Option<int>): Resolution<Prefix>
    requires forall p :: p in prefixes ==> Valid(p)
  {
    var id := if subnetId.Some? then subnetId.value else 0;
    match Held(prefixes)
    case Waits(reason) => Waits(reason)
    case Found(d) =>
      if d.length > SUBNET_BITS then Waits(TooLong(d.length))
      else if !Fits(id, d.length) then Waits(NoRoom(id))
      else Found(Prefix((d.address / WORD + id) * WORD + d.address % WORD, SUBNET_BITS))
  }

  datatype Resolved = Resolved(address: nat, delegation: Prefix)

  function AddressOf(prefixes: seq<Prefix>, subnetId: Option<int>, token: Option<nat>): Resolution<Resolved>
    requires forall p :: p in prefixes ==> Valid(p)
  {
    match SubnetOf(prefixes, subnetId)
    case Waits(reason) => Waits(reason)
    case Found(s) =>
      if token.None? then Waits(BadToken)
      else Found(Resolved(s.address / WORD * WORD + token.value % WORD, Masked(prefixes[0])))
  }

  // ----- the arithmetic, byte by byte ------------------------------------------------

  function Shifted(upper: nat, b: nat): nat { Or(upper * 256 % WORD, b) }

  lemma {:induction false} ShiftIn(upper: nat, b: nat)
    requires upper * 256 + b < WORD && b < 256
    ensures Shifted(upper, b) == upper * 256 + b
  {
    assert Pow2(8) == 256;
    DivIs(upper * 256, 256, upper, 0);
    DivIs(upper * 256, WORD, 0, upper * 256);
    OrIsSum(upper * 256, b, 8);
  }

  lemma {:induction false} NumberFits(bytes: seq<nat>)
    requires forall i :: 0 <= i < |bytes| ==> bytes[i] < 256
    ensures Number(bytes) < Pow256(|bytes|)
  {
    if bytes != [] { NumberFits(bytes[..|bytes| - 1]); }
  }

  /** The upper half of an address: its first eight bytes, shifted in one by one. */
  method UpperHalf(bytes: array<nat>) returns (upper: nat)
    requires bytes.Length == 16 && forall i :: 0 <= i < 16 ==> bytes[i] < 256
    ensures upper == Number(bytes[..8]) && upper < WORD
  {
    upper := 0;
    for i := 0 to 8
      invariant upper == Number(bytes[..i])
    {
      assert bytes[..i + 1] == bytes[..i] + [bytes[i]];
      NumberFits(bytes[..i + 1]);
      Pow256Add(i + 1, 7 - i);
      Pow256Word();
      assert Pow256(i + 1) <= WORD by { AtLeastOne(Pow256(7 - i), Pow256(i + 1)); }
      ShiftIn(upper, bytes[i]);
      upper := Shifted(upper, bytes[i]);
    }
    NumberFits(bytes[..8]);
    Pow256Word();
  }

  /** Writes the upper half back, least significant byte first. */
  method WriteUpper(bytes: array<nat>, upper: nat)
    requires bytes.Length == 16
    modifies bytes
    ensures bytes[..] == Digits(upper, 8) + old(bytes[8..])
  {
    var rest, i := upper, 7;
    while i >= 0
      invariant -1 <= i <= 7 && rest == upper / Pow256(7 - i)
      invariant forall j :: i < j < 8 ==> bytes[j] == Digits(upper, 8)[j]
      invariant forall j :: 8 <= j < 16 ==> bytes[j] == old(bytes[j])
    {
      DigitAt(upper, 8, i);
      bytes[i] := rest % 256;
      DivDiv(upper, Pow256(7 - i), 256);
      rest := rest / 256;
      i := i - 1;
    }
  }

  lemma {:induction false} HalvesOf(n: nat)
    requires n < WORD * WORD
    ensures Digits(n, 16)[..8] == Digits(n / WORD, 8) && Digits(n, 16)[8..] == Digits(n, 8)
    ensures Number(Digits(n, 16)[..8]) == n / WORD && Number(Digits(n, 16)[8..]) == n % WORD
    ensures n / WORD < WORD
  {
    Pow256Word();
    DigitsSplit(n, 8, 8);
    NumberOfDigits(n / WORD, 8);
    NumberOfDigits(n, 8);
  }

  // ----- masks -----------------------------------------------------------------------

  /** The bits between a delegation's length and 64, as a number. */
  function Room(length: nat): nat
    requires length <= SUBNET_BITS
  {
    Pow2(SUBNET_BITS - length)
  }

  lemma {:induction false} KeptIs(hi: nat, q: nat)
    requires q > 0
    ensures Kept(hi, q) == hi / q * q && Kept(hi, q) % q == 0 && Kept(hi, q) / q == hi / q && Kept(hi, q) <= hi
  {
    DivIs(Kept(hi, q), q, hi / q, 0);
  }

  lemma {:induction false} Halves(hi: nat, lo: nat, w: nat)
    requires lo < w
    ensures (hi * w + lo) / w == hi && (hi * w + lo) % w == lo
  {
    DivIs(hi * w + lo, w, hi, lo);
  }

  lemma {:induction false} ClearLow(n: nat, w: nat, q: nat)
    requires w > 0 && q > 0
    ensures w * q > 0 && n - n % (w * q) == Kept(n / w, q) * w
  {
    DivDiv(n, w, q);
    Spread(n / w, n / w % q, w);
  }

  lemma {:induction false} RoomOf(length: nat)
    requires length <= SUBNET_BITS
    ensures Pow2(128 - length) == WORD * Room(length) && Pow2(length) * Room(length) == WORD
  {
    Pow2Add(64, SUBNET_BITS - length);
    Pow2Add(length, SUBNET_BITS - length);
    Pow2Word();
  }

  lemma {:induction false} MaskedIs(p: Prefix)
    requires Valid(p) && p.length <= SUBNET_BITS
    ensures var m := Masked(p).address; var k := Kept(p.address / WORD, Room(p.length));
            && m == k * WORD && m % WORD == 0 && m / WORD == k && k % Room(p.length) == 0
            && k < WORD && Masked(p).length == p.length && m <= p.address
  {
    var hi, q := p.address / WORD, Room(p.length);
    RoomOf(p.length);
    ClearLow(p.address, WORD, q);
    KeptIs(hi, q);
    Halves(Kept(hi, q), 0, WORD);
  }

  lemma {:induction false} NoOverflow(k: nat, q: nat, m: nat, id: nat)
    requires k * q < m * q && id < q
    ensures k * q + id < m * q
  {
    if k >= m {
      Spread(k, m, q);
      Product(k - m, q);
    }
    Spread(m, k, q);
    AtLeastOne(m - k, q);
  }

  lemma {:induction false} FreeBits(upper: nat, id: nat, q: nat, m: nat)
    requires q > 0 && upper < m * q && upper % q == 0 && id < q
    ensures upper + id < m * q && (upper + id) % q == id && Kept(upper + id, q) == upper
  {
    var k := upper / q;
    assert upper == k * q;
    DivIs(upper + id, q, k, id);
    NoOverflow(k, q, m, id);
  }

  /** A subnet ID within the room fills bits the delegation has not set. */
  lemma {:induction false} RoomIsFree(upper: nat, id: nat, length: nat)
    requires length <= SUBNET_BITS && upper < WORD && upper % Room(length) == 0 && id < Room(length)
    ensures Or(upper, id) == upper + id && upper + id < WORD
    ensures (upper + id) % Room(length) == id && Kept(upper + id, Room(length)) == upper
  {
    OrIsSum(upper, id, SUBNET_BITS - length);
    RoomOf(length);
    FreeBits(upper, id, Room(length), Pow2(length));
  }

  lemma {:induction false} FitsIs(id: int, length: nat)
    requires length <= SUBNET_BITS && id < WORD / 2
    ensures Fits(id, length) <==> 0 <= id < Room(length)
  {
    if SUBNET_BITS - length >= 63 {
      Pow2Word();
      Pow2Grows(63, SUBNET_BITS - length);
    }
  }

  // ----- subnet IDs and the /64s inside ----------------------------------------------

  /** A /64 that lies inside a delegation. */
  predicate Inside(s: Prefix, d: Prefix) {
    && s.length == SUBNET_BITS && s.address < WORD * WORD && s.address % WORD == 0
    && d.length <= SUBNET_BITS && Masked(Prefix(s.address, d.length)) == d
  }

  /** The subnet a fitting ID gives, in halves. */
  lemma {:induction false} SubnetIs(p: Prefix, id: int)
    requires Valid(p) && p.length <= SUBNET_BITS && 0 <= id < Room(p.length)
    ensures var hi := Kept(p.address / WORD, Room(p.length));
            && SubnetOf([p], Some(id)) == Found(Prefix((hi + id) * WORD, SUBNET_BITS))
            && (hi + id) * WORD < WORD * WORD && (hi + id) * WORD / WORD == hi + id && (hi + id) * WORD % WORD == 0
            && (hi + id) % Room(p.length) == id && Kept(hi + id, Room(p.length)) == hi
  {
    var hi := Kept(p.address / WORD, Room(p.length));
    MaskedIs(p);
    RoomIsFree(hi, id, p.length);
    Halves(hi + id, 0, WORD);
    Spread(WORD, hi + id, WORD);
    AtLeastOne(WORD - (hi + id), WORD);
  }

  /** A subnet ID that fits gives a /64 inside the delegation; any other is refused. */
  lemma {:induction false} SubnetIsInside(p: Prefix, id: int)
    requires Valid(p) && id < WORD / 2
    ensures var r := SubnetOf([p], Some(id));
            && (r.Found? <==> p.length <= SUBNET_BITS && 0 <= id < Pow2(SUBNET_BITS - p.length))
            && (r.Found? ==> Inside(r.value, Masked(p)) && r.value.address / WORD % Room(p.length) == id)
  {
    if p.length <= SUBNET_BITS {
      FitsIs(id, p.length);
      if 0 <= id < Room(p.length) {
        SubnetIs(p, id);
        MaskedIs(p);
        MaskedIs(Prefix(SubnetOf([p], Some(id)).value.address, p.length));
      }
    }
  }

  /** What a derived network waits for, exactly: for a delegation, for there to be only one, for one
      of at most 64 bits, for room for its subnet ID, which is zero when it is left out. */
  lemma {:induction false} WaitsExactly(prefixes: seq<Prefix>, subnetId: Option<int>)
    requires (forall p :: p in prefixes ==> Valid(p)) && IdOf(subnetId) < WORD / 2
    ensures var r, id := SubnetOf(prefixes, subnetId), if subnetId.Some? then subnetId.value else 0;
            if prefixes == [] then r == Waits(NothingHeld)
            else if |prefixes| > 1 then r == Waits(SeveralHeld(|prefixes|))
            else if prefixes[0].length > 64 then r == Waits(TooLong(prefixes[0].length))
            else if !(0 <= id < Pow2(64 - prefixes[0].length)) then r == Waits(NoRoom(id))
            else r.Found? && r == SubnetOf([prefixes[0]], Some(id))
  {
    if |prefixes| == 1 {
      assert prefixes == [prefixes[0]];
      if prefixes[0].length <= SUBNET_BITS { FitsIs(IdOf(subnetId), prefixes[0].length); }
    }
  }

  /** A derived address waits for what its network waits for, and then for a token there is. */
  lemma {:induction false} AddressWaits(prefixes: seq<Prefix>, subnetId: Option<int>, token: Option<nat>)
    requires forall p :: p in prefixes ==> Valid(p)
    ensures var r, s := AddressOf(prefixes, subnetId, token), SubnetOf(prefixes, subnetId);
            && (s.Waits? ==> r == Waits(s.reason))
            && (s.Found? && token.None? ==> r == Waits(BadToken))
            && (s.Found? && token.Some? ==> r.Found? && |prefixes| == 1 && r.value.delegation == Masked(prefixes[0]))
  {}

  lemma {:induction false} KeptAlike(p: Prefix, s: Prefix)
    requires Valid(p) && p.length <= SUBNET_BITS && Inside(s, Masked(p))
    ensures Kept(s.address / WORD, Room(p.length)) == Kept(p.address / WORD, Room(p.length))
  {
    MaskedIs(p);
    MaskedIs(Prefix(s.address, p.length));
  }

  lemma {:induction false} SubnetHasId(p: Prefix, s: Prefix)
    requires Valid(p) && p.length <= SUBNET_BITS && Inside(s, Masked(p))
    ensures SubnetOf([p], Some(s.address / WORD % Room(p.length))) == Found(s)
  {
    var q, hi := Room(p.length), s.address / WORD;
    KeptAlike(p, s);
    SubnetIs(p, hi % q);
    assert SubnetOf([p], Some(hi % q)) == Found(Prefix((Kept(hi, q) + hi % q) * WORD, SUBNET_BITS));
    assert Kept(hi, q) + hi % q == hi;
    assert s.address == hi * WORD;
  }

  /** Subnet IDs below 2^(64 - length) and the /64s inside a delegation answer to each other,
      one to one. */
  lemma {:induction false} SubnetsAreOneToOne(p: Prefix, s: Prefix)
    requires Valid(p) && 1 <= p.length <= SUBNET_BITS && Inside(s, Masked(p))
    ensures var id := s.address / WORD % Room(p.length);
            && 0 <= id < Pow2(SUBNET_BITS - p.length) && SubnetOf([p], Some(id)) == Found(s)
            && forall other: int :: other < WORD / 2 && SubnetOf([p], Some(other)) == Found(s) ==> other == id
  {
    SubnetHasId(p, s);
    forall other: int | other < WORD / 2 && SubnetOf([p], Some(other)) == Found(s)
      ensures other == s.address / WORD % Room(p.length)
    { SubnetIsInside(p, other); }
  }

  function IdOf(subnetId: Option<int>): int { if subnetId.Some? then subnetId.value else 0 }

  lemma {:induction false} BothHalves(hi: nat, lo: nat, w: nat)
    requires hi < w && lo < w
    ensures hi * w + lo < w * w && (hi * w + lo) / w == hi && (hi * w + lo) % w == lo
  {
    Halves(hi, lo, w);
    Below(hi, w, w, lo);
  }

  /** Cut back to the delegation's length, an address resolved from it gives it again. */
  lemma {:induction false} AddressIsInside(p: Prefix, subnetId: Option<int>, token: nat)
    requires Valid(p) && IdOf(subnetId) < WORD / 2
    ensures var r := AddressOf([p], subnetId, Some(token));
            r.Found? ==>
              && r.value.delegation == Masked(p) && r.value.address < WORD * WORD
              && r.value.address % WORD == token % WORD
              && SubnetOf([p], subnetId) == Found(Prefix(r.value.address / WORD * WORD, SUBNET_BITS))
              && p.length <= SUBNET_BITS && Masked(Prefix(r.value.address, p.length)) == Masked(p)
  {
    var id, r := IdOf(subnetId), AddressOf([p], subnetId, Some(token));
    AddressIs(p, subnetId, token);
    if r.Found? {
      var hi := Kept(p.address / WORD, Room(p.length)) + id;
      RoomIsFreeOf(p, id);
      BothHalves(hi, token % WORD, WORD);
      SameDelegation(p, r.value.address, id);
    }
  }

  lemma {:induction false} AddressIs(p: Prefix, subnetId: Option<int>, token: nat)
    requires Valid(p) && IdOf(subnetId) < WORD / 2
    ensures var id, r := IdOf(subnetId), AddressOf([p], subnetId, Some(token));
            r.Found? ==>
              && p.length <= SUBNET_BITS && 0 <= id < Room(p.length)
              && SubnetOf([p], subnetId) == 
                   Found(Prefix((Kept(p.address / WORD, Room(p.length)) + id) * WORD, SUBNET_BITS))
              && r.value == Resolved((Kept(p.address / WORD, Room(p.length)) + id) * WORD + token % WORD, Masked(p))
  {
    var id := IdOf(subnetId);
    SubnetIsInside(p, id);
    assert SubnetOf([p], subnetId) == SubnetOf([p], Some(id));
    if SubnetOf([p], subnetId).Found? { SubnetIs(p, id); }
  }

  lemma {:induction false} SameDelegation(p: Prefix, address: nat, id: nat)
    requires Valid(p) && p.length <= SUBNET_BITS && address < WORD * WORD && id < Room(p.length)
    requires address / WORD == Kept(p.address / WORD, Room(p.length)) + id
    ensures Masked(Prefix(address, p.length)) == Masked(p)
  {
    MaskedIs(Prefix(address, p.length));
    MaskedIs(p);
    RoomIsFree(Kept(p.address / WORD, Room(p.length)), id, p.length);
  }

  lemma {:induction false} RoomIsFreeOf(p: Prefix, id: nat)
    requires Valid(p) && p.length <= SUBNET_BITS && id < Room(p.length)
    ensures Kept(p.address / WORD, Room(p.length)) + id < WORD
  {
    MaskedIs(p);
    RoomIsFree(Kept(p.address / WORD, Room(p.length)), id, p.length);
  }

  // ----- byte by byte ----------------------------------------------------------------

  lemma {:induction false} JoinedAt(upper: nat, low: seq<nat>, k: nat, w: nat)
    requires w == Pow256(k) && upper < w && |low| == k
    ensures Number(Digits(upper, k) + low) == upper * w + Number(low)
  {
    NumberJoin(Digits(upper, k), low);
    NumberOfDigits(upper, k);
    SmallMod(upper, w);
  }

  lemma {:induction false} SmallMod(n: nat, w: nat)
    requires n < w
    ensures n % w == n
  {}

  lemma {:induction false} JoinedHalves(upper: nat, low: seq<nat>)
    requires upper < WORD && |low| == 8
    ensures Number(Digits(upper, 8) + low) == upper * WORD + Number(low)
  {
    Pow256Word();
    JoinedAt(upper, low, 8, WORD);
  }

  /** Sets the subnet ID in the upper half of sixteen bytes. */
  method SetUpper(bytes: array<nat>, id: nat)
    requires bytes.Length == 16 && forall i :: 0 <= i < 16 ==> bytes[i] < 256
    requires Or(Number(bytes[..8]), id) < WORD
    modifies bytes
    ensures Number(bytes[..]) == Or(old(Number(bytes[..8])), id) * WORD + old(Number(bytes[8..]))
  {
    var upper := UpperHalf(bytes);
    upper := Or(upper, id);
    ghost var low := bytes[8..];
    WriteUpper(bytes, upper);
    JoinedHalves(upper, low);
  }

  /** The /64 a derived address names, computed as the code computes it. */
  method Subnet(prefixes: seq<Prefix>, subnetId: Option<int>) returns (r: Resolution<Prefix>)
    requires forall p :: p in prefixes ==> Valid(p)
    requires -(WORD / 2) <= IdOf(subnetId) < WORD / 2
    ensures r == SubnetOf(prefixes, subnetId)
  {
    var held := Held(prefixes);
    if held.Waits? { return Waits(held.reason); }
    var d, id := held.value, 0;
    if subnetId.Some? { id := subnetId.value; }
    var bits := SUBNET_BITS - d.length;
    if bits < 0 { return Waits(TooLong(d.length)); }
    if id < 0 || (bits < 63 && id >= Pow2(bits)) { return Waits(NoRoom(id)); }
    assert Valid(prefixes[0]);
    MaskedTwice(prefixes[0]);
    var address := CutOut(d, id);
    r := Found(Prefix(address, SUBNET_BITS));
  }

  /** The sixteen bytes of the delegation, with the subnet ID in the upper half of them. */
  method CutOut(d: Prefix, id: nat) returns (address: nat)
    requires Valid(d) && d.length <= SUBNET_BITS && id < WORD / 2 && Fits(id, d.length) && Masked(d) == d
    ensures address == (d.address / WORD + id) * WORD + d.address % WORD
  {
    MaskedIs(d);
    FitsIs(id, d.length);
    RoomIsFree(d.address / WORD, id, d.length);
    var bytes := new nat[16](i requires 0 <= i < 16 => Digits(d.address, 16)[i]);
    assert bytes[..8] == Digits(d.address, 16)[..8] && bytes[8..] == Digits(d.address, 16)[8..];
    HalvesOf(d.address);
    SetUpper(bytes, id);
    address := Number(bytes[..]);
  }

  lemma {:induction false} MaskedTwice(p: Prefix)
    requires Valid(p) && p.length <= SUBNET_BITS
    ensures Valid(Masked(p)) && Masked(Masked(p)) == Masked(p)
  {
    MaskedIs(p);
    MaskedIs(Masked(p));
    KeptIs(p.address / WORD, Room(p.length));
  }

  lemma {:induction false} HostHalf(s: nat, token: nat)
    requires s < WORD * WORD && token < WORD * WORD
    ensures Number(Digits(s, 16)[..8] + Digits(token, 16)[8..]) == s / WORD * WORD + token % WORD
  {
    HalvesOf(s);
    HalvesOf(token);
    JoinedHalves(s / WORD, Digits(token, 16)[8..]);
  }

  lemma {:induction false} SubnetFits(prefixes: seq<Prefix>, subnetId: Option<int>)
    requires (forall p :: p in prefixes ==> Valid(p)) && IdOf(subnetId) < WORD / 2
    ensures SubnetOf(prefixes, subnetId).Found? ==>
        |prefixes| == 1 && SubnetOf(prefixes, subnetId).value.address < WORD * WORD
  {
    if |prefixes| == 1 {
      assert prefixes == [prefixes[0]] && Valid(prefixes[0]);
      SubnetIsInside(prefixes[0], IdOf(subnetId));
    }
  }

  /** The address with the token in its host half. */
  method Address(prefixes: seq<Prefix>, subnetId: Option<int>, token: Option<nat>) returns (r: Resolution<Resolved>)
    requires forall p :: p in prefixes ==> Valid(p)
    requires -(WORD / 2) <= IdOf(subnetId) < WORD / 2
    requires token.Some? ==> token.value < WORD * WORD
    ensures r == AddressOf(prefixes, subnetId, token)
  {
    var subnet := Subnet(prefixes, subnetId);
    if subnet.Waits? { return Waits(subnet.reason); }
    if token.None? { return Waits(BadToken); }
    SubnetFits(prefixes, subnetId);
    var address := CutIn(subnet.value.address, token.value);
    assert Valid(prefixes[0]);
    r := Found(Resolved(address, Masked(prefixes[0])));
  }

  /** The sixteen bytes of the subnet, with the token's in the lower half of them. */
  method CutIn(subnet: nat, token: nat) returns (address: nat)
    requires subnet < WORD * WORD && token < WORD * WORD
    ensures address == subnet / WORD * WORD + token % WORD
  {
    var bytes := Digits(subnet, 16)[..8] + Digits(token, 16)[8..];
    HostHalf(subnet, token);
    address := Number(bytes);
  }
}
