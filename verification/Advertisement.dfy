/** Which of the addresses a link was advertised is the delegation, or the address, it holds. */
module Advertisement {
  import opened Orders
  import opened Host
  import opened Powers
  import opened Delegation

  datatype Ip = V4(value: nat) | V6(value: nat)

  datatype Advertised = Advertised(address: Ip, until: nat)

  // ----- which addresses count -------------------------------------------------------

  /** The scopes of RFC 4291, section 2.4, and RFC 4193: neither the unspecified nor the
      loopback address, not multicast, not link-local, not unique local, and no IPv4 address
      written as IPv6. */
  predicate IsGlobal(v: nat) {
    && v != 0 && v != 1
    && v / TOP_BYTE != 0xff && v / TOP_BYTE != 0xfc && v / TOP_BYTE != 0xfd
    && v / (TOP_BYTE / 4) != 0x3fa
    && v / 0x1_0000_0000 != 0xffff
  }

  const TOP_BYTE := 0x1_00_0000_0000_0000_0000_0000_0000_0000

  /** In ranges: all but ::, ::1, the multicast ff00::/8, the link-local fe80::/10, the unique local
      fc00::/7, and ::ffff:0:0/96. */
  lemma {:induction false} GlobalIs(v: nat)
    requires v < WORD * WORD
    ensures IsGlobal(v) <==>
              !(|| v == 0 || v == 1
                || 0xff00_0000_0000_0000_0000_0000_0000_0000 <= v
                || 0xfe80_0000_0000_0000_0000_0000_0000_0000 <= v < 0xfec0_0000_0000_0000_0000_0000_0000_0000
                || 0xfc00_0000_0000_0000_0000_0000_0000_0000 <= v < 0xfe00_0000_0000_0000_0000_0000_0000_0000
                || 0xffff_0000_0000 <= v < 0x1_0000_0000_0000)
  {}

  predicate HasHost(a: Advertised, host: nat) {
    a.address.V6? && IsGlobal(a.address.value) && a.address.value % WORD == host
  }

  predicate Carries(a: Advertised, token: Option<nat>) { token.Some? && HasHost(a, token.value % WORD) }

  function Carrying(addresses: seq<Advertised>, token: Option<nat>): seq<Advertised> {
    if addresses == [] then []
    else (if Carries(addresses[0], token) then [addresses[0]] else []) + Carrying(addresses[1..], token)
  }

  method WithToken(addresses: seq<Advertised>, token: Option<nat>) returns (kept: seq<Advertised>)
    ensures kept == Carrying(addresses, token)
  {
    kept := [];
    if token.None? {
      NoneCarry(addresses);
      return;
    }
    for i := 0 to |addresses|
      invariant kept + Carrying(addresses[i..], token) == Carrying(addresses, token)
    {
      assert addresses[i..][0] == addresses[i] && addresses[i..][1..] == addresses[i + 1..];
      var a := addresses[i];
      if HasHost(a, token.value % WORD) { kept := kept + [a]; }
    }
  }

  lemma {:induction false} NoneCarry(addresses: seq<Advertised>)
    ensures Carrying(addresses, None) == []
  {
    if addresses != [] { NoneCarry(addresses[1..]); }
  }

  lemma {:induction false} CarryingMembers(addresses: seq<Advertised>, token: Option<nat>)
    ensures forall a :: a in Carrying(addresses, token) <==> a in addresses && Carries(a, token)
  {
    if addresses != [] {
      CarryingMembers(addresses[1..], token);
      assert addresses == [addresses[0]] + addresses[1..];
    }
  }

  // ----- the one preferred longest ---------------------------------------------------

  function Until(preferred: map<nat, nat>, k: nat): nat { if k in preferred then preferred[k] else 0 }

  predicate Longer(preferred: map<nat, nat>, a: nat, b: nat) {
    Until(preferred, a) > Until(preferred, b) || (Until(preferred, a) == Until(preferred, b) && a <= b)
  }

  function ByPreference(preferred: map<nat, nat>): (nat, nat) -> bool { (a: nat, b: nat) => Longer(preferred, a, b) }

  function ByAddress(): (nat, nat) -> bool { (a: nat, b: nat) => a <= b }

  predicate Leads(preferred: map<nat, nat>, k: nat) {
    k in preferred && forall j :: j in preferred && j != k ==> preferred[j] < preferred[k]
  }

  ghost predicate NoDuplicates(s: seq<nat>) { forall i, j :: 0 <= i < j < |s| ==> s[i] != s[j] }

  /** Every candidate is held or passed over, once; one alone is held exactly when it is
      preferred longer than every other, and otherwise all are, in the order of the addresses. */
  ghost predicate Chosen(preferred: map<nat, nat>, held: seq<nat>, passed: seq<nat>) {
    && NoDuplicates(held + passed)
    && (forall k :: k in held + passed <==> k in preferred)
    && (|held| == 1 <==> exists k :: Leads(preferred, k))
    && (|held| == 1 ==> Leads(preferred, held[0]) && Sorted(passed, ByPreference(preferred)))
    && (|held| != 1 ==> passed == [] && Sorted(held, ByAddress()))
  }

  lemma {:induction false} PreferenceOrder(preferred: map<nat, nat>)
    ensures TotalPreorder(ByPreference(preferred)) && TotalPreorder(ByAddress())
    ensures forall a: nat, b: nat :: ByPreference(preferred)(a, b) && ByPreference(preferred)(b, a) ==> a == b
    ensures forall a: nat, b: nat :: ByAddress()(a, b) && ByAddress()(b, a) ==> a == b
  {}

  /** The keys of a map in no order one can count on. */
  method AnyOrder(preferred: map<nat, nat>) returns (keys: seq<nat>)
    ensures NoDuplicates(keys) && forall k :: k in keys <==> k in preferred
  {
    keys := [];
    var rest := preferred.Keys;
    while rest != {}
      invariant rest <= preferred.Keys && NoDuplicates(keys)
      invariant forall k :: k in keys <==> k in preferred && k !in rest
      decreases |rest|
    {
      var k :| k in rest;
      keys := keys + [k];
      rest := rest - {k};
    }
  }

  lemma {:induction false} SortedNoDuplicates(s: seq<nat>, le: (nat, nat) -> bool)
    requires NoDuplicates(s)
    ensures NoDuplicates(Sort(s, le)) && forall k :: k in Sort(s, le) <==> k in s
  {
    SortKeeps(s, le);
    SortedDistinct(s, le);
  }

  /** Orders the candidates; the result is the same whatever order they were taken in. */
  method PreferredLongest(preferred: map<nat, nat>) returns (held: seq<nat>, passed: seq<nat>)
    ensures Chosen(preferred, held, passed)
  {
    var keys := AnyOrder(preferred);
    PreferenceOrder(preferred);
    var candidates := Sort(keys, ByPreference(preferred));
    SortSorted(keys, ByPreference(preferred));
    SortedNoDuplicates(keys, ByPreference(preferred));
    FirstLeads(preferred, candidates);
    if |candidates| <= 1 {
      held, passed := candidates, [];
    } else if preferred[candidates[0]] == preferred[candidates[1]] {
      held, passed := Sort(candidates, ByAddress()), [];
      SortSorted(candidates, ByAddress());
      SortedNoDuplicates(candidates, ByAddress());
    } else {
      held, passed := candidates[..1], candidates[1..];
      assert held + passed == candidates;
    }
  }

  lemma {:induction false} FirstLeads(preferred: map<nat, nat>, candidates: seq<nat>)
    requires NoDuplicates(candidates) && Sorted(candidates, ByPreference(preferred))
    requires forall k :: k in candidates <==> k in preferred
    ensures forall k :: Leads(preferred, k) ==> candidates != [] && k == candidates[0]
    ensures |candidates| == 1 ==> Leads(preferred, candidates[0])
    ensures |candidates| > 1 ==>
        (Leads(preferred, candidates[0]) <==> preferred[candidates[0]] != preferred[candidates[1]])
  {
    forall k | Leads(preferred, k) ensures candidates != [] && k == candidates[0] {
      var i :| 0 <= i < |candidates| && candidates[i] == k;
    }
    if |candidates| > 1 {
      assert candidates[0] in candidates && candidates[1] in candidates;
      assert ByPreference(preferred)(candidates[0], candidates[1]);
      forall j | j in preferred && j != candidates[0] ensures preferred[j] <= preferred[candidates[1]] {
        var i :| 0 <= i < |candidates| && candidates[i] == j;
        if i > 1 { assert ByPreference(preferred)(candidates[1], candidates[i]); }
      }
    } else if |candidates| == 1 {
      assert candidates[0] in candidates;
    }
  }

  lemma {:induction false} LeaderIsOne(preferred: map<nat, nat>, a: nat, b: nat)
    requires Leads(preferred, a) && Leads(preferred, b)
    ensures a == b
  {}

  /** The candidates and how long each is preferred decide what is held and what is passed over. */
  lemma {:induction false} ChoiceIsOne(preferred: map<nat, nat>, held: seq<nat>, passed: seq<nat>, held': seq<nat>,
      passed': seq<nat>)
    requires Chosen(preferred, held, passed) && Chosen(preferred, held', passed')
    ensures held == held' && passed == passed'
  {
    PreferenceOrder(preferred);
    if |held| == 1 {
      LeaderIsOne(preferred, held[0], held'[0]);
      assert held == [held[0]] && held' == [held[0]];
      forall k ensures k in passed <==> k in passed' {
        assert (held + passed)[0] == held[0] && (held' + passed')[0] == held[0];
        PassedAreOthers(held, passed, k);
        PassedAreOthers(held', passed', k);
      }
      NoDuplicatesParts(held, passed);
      NoDuplicatesParts(held', passed');
      DistinctSameCounts(passed, passed');
      SortedUnique(passed, passed', ByPreference(preferred));
    } else {
      assert held + passed == held && held' + passed' == held';
      DistinctSameCounts(held, held');
      SortedUnique(held, held', ByAddress());
    }
  }

  lemma {:induction false} NoDuplicatesParts(held: seq<nat>, passed: seq<nat>)
    requires NoDuplicates(held + passed)
    ensures NoDuplicates(held) && NoDuplicates(passed)
  {
    forall i, j | 0 <= i < j < |held| ensures held[i] != held[j] {
      assert (held + passed)[i] == held[i] && (held + passed)[j] == held[j];
    }
    forall i, j | 0 <= i < j < |passed| ensures passed[i] != passed[j] {
      assert (held + passed)[|held| + i] == passed[i] && (held + passed)[|held| + j] == passed[j];
    }
  }

  lemma {:induction false} PassedAreOthers(held: seq<nat>, passed: seq<nat>, k: nat)
    requires NoDuplicates(held + passed) && |held| == 1
    ensures k in passed <==> k in held + passed && k != held[0]
  {
    if k in passed {
      var j :| 0 <= j < |passed| && passed[j] == k;
      assert (held + passed)[1 + j] == k && (held + passed)[0] == held[0];
    }
  }

  // ----- from the advertised addresses -----------------------------------------------

  /** What one address counts for: the delegation it lies in, when there is such a prefix. */
  function Candidate(a: Advertised, length: int): Option<nat>
  {
    if 0 <= length <= 128 then Some(Masked(Prefix(a.address.value, length)).address) else None
  }

  /** For each candidate, the longest it is preferred by any address that counts for it. */
  ghost predicate Gathered(preferred: map<nat, nat>, kept: seq<Advertised>, i: nat, length: int)
    requires i <= |kept|
  {
    && (forall k :: 0 <= k < i && Candidate(kept[k], length).Some? ==>
          Candidate(kept[k], length).value in preferred && kept[k].until <= preferred[Candidate(kept[k], length).value])
    && (forall d :: d in preferred ==>
          exists k :: 0 <= k < i && Candidate(kept[k], length) == Some(d) && kept[k].until == preferred[d])
  }

  /** Gathered, of addresses that count for these candidates and these lifetimes. */
  ghost predicate Longest(longest: map<nat, nat>, candidates: seq<Option<nat>>, until: seq<nat>, i: nat)
    requires i <= |candidates| == |until|
  {
    && (forall k :: 0 <= k < i && candidates[k].Some? ==>
          candidates[k].value in longest && until[k] <= longest[candidates[k].value])
    && (forall d :: d in longest ==> exists k :: 0 <= k < i && candidates[k] == Some(d) && until[k] == longest[d])
  }

  lemma {:induction false} LongestOne(before: map<nat, nat>, after: map<nat, nat>, candidates: seq<Option<nat>>,
      until: seq<nat>, i: nat)
    requires i < |candidates| == |until| && Longest(before, candidates, until, i)
    requires after == if candidates[i].Some?
                         && (candidates[i].value !in before || until[i] > before[candidates[i].value])
                      then before[candidates[i].value := until[i]] else before
    ensures Longest(after, candidates, until, i + 1)
  {
    forall d | d in after ensures exists k :: 0 <= k < i + 1 && candidates[k] == Some(d) && until[k] == after[d] {
      if d in before && after[d] == before[d] {
        var k :| 0 <= k < i && candidates[k] == Some(d) && until[k] == before[d];
        assert candidates[k] == Some(d) && until[k] == after[d];
      } else {
        assert candidates[i] == Some(d);
      }
    }
  }

  lemma {:induction false} GatheredIs(preferred: map<nat, nat>, kept: seq<Advertised>, i: nat, length: int,
      candidates: seq<Option<nat>>, until: seq<nat>)
    requires i <= |kept| == |candidates| == |until|
    requires forall k :: 0 <= k < |kept| ==> candidates[k] == Candidate(kept[k], length) && until[k] == kept[k].until
    ensures Gathered(preferred, kept, i, length) <==> Longest(preferred, candidates, until, i)
  {
    if Longest(preferred, candidates, until, i) {
      forall d | d in preferred
        ensures exists k :: 0 <= k < i && Candidate(kept[k], length) == Some(d) && kept[k].until == preferred[d]
      {
        var k :| 0 <= k < i && candidates[k] == Some(d) && until[k] == preferred[d];
        assert Candidate(kept[k], length) == Some(d);
      }
    }
    if Gathered(preferred, kept, i, length) {
      forall d | d in preferred
        ensures exists k :: 0 <= k < i && candidates[k] == Some(d) && until[k] == preferred[d]
      {
        var k :| 0 <= k < i && Candidate(kept[k], length) == Some(d) && kept[k].until == preferred[d];
        assert candidates[k] == Some(d);
      }
    }
  }

  method Gather(kept: seq<Advertised>, length: int) returns (preferred: map<nat, nat>)
    ensures Gathered(preferred, kept, |kept|, length)
  {
    preferred := map[];
    ghost var candidates := seq(|kept|, i requires 0 <= i < |kept| => Candidate(kept[i], length));
    ghost var until := seq(|kept|, i requires 0 <= i < |kept| => kept[i].until);
    for i := 0 to |kept|
      invariant Longest(preferred, candidates, until, i)
    {
      ghost var before := preferred;
      var candidate := Candidate(kept[i], length);
      if candidate.Some? && (candidate.value !in preferred || kept[i].until > preferred[candidate.value]) {
        preferred := preferred[candidate.value := kept[i].until];
      }
      LongestOne(before, preferred, candidates, until, i);
    }
    GatheredIs(preferred, kept, |kept|, length, candidates, until);
  }

  /** What the addresses a link was advertised say it holds. */
  ghost predicate Answer(addresses: seq<Advertised>, token: Option<nat>, length: int, held: seq<nat>,
      passed: seq<nat>) {
    var kept := Carrying(addresses, token);
    exists preferred: map<nat, nat> :: Gathered(preferred, kept, |kept|, length) && Chosen(preferred, held, passed)
  }

  /** The delegation a downstream host knows from its own addresses; the address itself when
      the length is 128. */
  method FromAdvertisement(addresses: seq<Advertised>, token: Option<nat>, length: int)
      returns (held: seq<nat>, passed: seq<nat>)
    ensures Answer(addresses, token, length, held, passed)
  {
    var kept := WithToken(addresses, token);
    var preferred := Gather(kept, length);
    held, passed := PreferredLongest(preferred);
  }

  lemma {:induction false} GatheredIsOne(a: seq<Advertised>, b: seq<Advertised>, length: int, p: map<nat, nat>,
      q: map<nat, nat>)
    requires (forall x :: x in a <==> x in b) && Gathered(p, a, |a|, length) && Gathered(q, b, |b|, length)
    ensures p == q
  {
    GatheredWithin(a, b, length, p, q);
    GatheredWithin(b, a, length, q, p);
  }

  lemma {:induction false} GatheredWithin(a: seq<Advertised>, b: seq<Advertised>, length: int, p: map<nat, nat>,
      q: map<nat, nat>)
    requires (forall x :: x in a ==> x in b) && Gathered(p, a, |a|, length) && Gathered(q, b, |b|, length)
    ensures forall d :: d in p ==> d in q && p[d] <= q[d]
  {
    forall d | d in p ensures d in q && p[d] <= q[d] {
      var k :| 0 <= k < |a| && Candidate(a[k], length) == Some(d) && a[k].until == p[d];
      assert a[k] in b;
      var j :| 0 <= j < |b| && b[j] == a[k];
      assert Candidate(b[j], length).Some?;
    }
  }

  /** Neither the order of the addresses, nor one being listed twice, nor the order a map is
      gone through in changes what is held or what is passed over. */
  lemma {:induction false} AnswerIsOne(a: seq<Advertised>, b: seq<Advertised>, token: Option<nat>, length: int,
      held: seq<nat>, passed: seq<nat>, held': seq<nat>, passed': seq<nat>)
    requires forall x :: x in a <==> x in b
    requires Answer(a, token, length, held, passed) && Answer(b, token, length, held', passed')
    ensures held == held' && passed == passed'
  {
    var ka, kb := Carrying(a, token), Carrying(b, token);
    CarryingMembers(a, token);
    CarryingMembers(b, token);
    var p: map<nat, nat> :| Gathered(p, ka, |ka|, length) && Chosen(p, held, passed);
    var q: map<nat, nat> :| Gathered(q, kb, |kb|, length) && Chosen(q, held', passed');
    GatheredIsOne(ka, kb, length, p, q);
    ChoiceIsOne(p, held, passed, held', passed');
  }

  // ----- the router and the host behind it -------------------------------------------

  predicate LiesIn(a: Advertised, length: int, d: nat) { Candidate(a, length) == Some(d) }

  /** One of the addresses in a delegation is preferred longer than every one outside it. */
  ghost predicate Outlasts(addresses: seq<Advertised>, length: int, d: nat) {
    exists a :: a in addresses && LiesIn(a, length, d)
      && (forall b :: b in addresses && !LiesIn(b, length, d) ==> b.until < a.until)
  }

  lemma {:induction false} LeadsWhenOutlasting(preferred: map<nat, nat>, kept: seq<Advertised>, length: int, d: nat)
    requires Gathered(preferred, kept, |kept|, length) && 0 <= length <= 128
    ensures Leads(preferred, d) <==> Outlasts(kept, length, d)
  {
    if Leads(preferred, d) {
      var k :| 0 <= k < |kept| && Candidate(kept[k], length) == Some(d) && kept[k].until == preferred[d];
      forall b | b in kept && !LiesIn(b, length, d) ensures b.until < kept[k].until {
        var i :| 0 <= i < |kept| && kept[i] == b;
        assert Candidate(kept[i], length).value in preferred;
      }
      assert kept[k] in kept && LiesIn(kept[k], length, d);
    }
    if Outlasts(kept, length, d) {
      var a :| a in kept && LiesIn(a, length, d)
        && (forall b :: b in kept && !LiesIn(b, length, d) ==> b.until < a.until);
      var i :| 0 <= i < |kept| && kept[i] == a;
      assert Candidate(kept[i], length).Some?;
      forall j | j in preferred && j != d ensures preferred[j] < preferred[d] {
        var k :| 0 <= k < |kept| && Candidate(kept[k], length) == Some(j) && kept[k].until == preferred[j];
        assert kept[k] in kept && !LiesIn(kept[k], length, d);
      }
    }
  }

  lemma {:induction false} HeldWhenLeading(preferred: map<nat, nat>, held: seq<nat>, passed: seq<nat>, d: nat)
    requires Chosen(preferred, held, passed)
    ensures held == [d] <==> Leads(preferred, d)
    ensures held == [d] ==> forall k :: k in passed <==> k in preferred && k != d
  {
    if Leads(preferred, d) { LeaderIsOne(preferred, held[0], d); }
    if held == [d] {
      forall k ensures k in passed <==> k in preferred && k != d { PassedAreOthers(held, passed, k); }
    }
  }

  lemma {:induction false} CandidatesAre(preferred: map<nat, nat>, kept: seq<Advertised>, length: int)
    requires Gathered(preferred, kept, |kept|, length)
    ensures forall k :: k in preferred <==> exists a :: a in kept && LiesIn(a, length, k)
  {
    forall k ensures k in preferred <==> exists a :: a in kept && LiesIn(a, length, k) {
      if k in preferred {
        var i :| 0 <= i < |kept| && Candidate(kept[i], length) == Some(k) && kept[i].until == preferred[k];
        assert kept[i] in kept && LiesIn(kept[i], length, k);
      }
      if a :| a in kept && LiesIn(a, length, k) {
        var i :| 0 <= i < |kept| && kept[i] == a;
        assert Candidate(kept[i], length).Some?;
      }
    }
  }

  /** What a global address with the token's host half lies in at a length: itself at 128. */
  predicate Counts(a: Advertised, token: Option<nat>, length: int, k: nat) {
    && token.Some? && 0 <= length <= 128 && a.address.V6? && IsGlobal(a.address.value)
    && a.address.value % WORD == token.value % WORD
    && k == a.address.value - a.address.value % Pow2(128 - length)
  }

  lemma {:induction false} CountsIs(a: Advertised, token: Option<nat>, length: int, k: nat)
    ensures Counts(a, token, length, k) <==> Carries(a, token) && LiesIn(a, length, k)
  {}

  lemma {:induction false} SomeCounts(addresses: seq<Advertised>, kept: seq<Advertised>, token: Option<nat>,
      length: int, k: nat)
    requires forall a :: a in kept <==> a in addresses && Carries(a, token)
    ensures (exists a :: a in kept && LiesIn(a, length, k)) <==>
              exists a :: a in addresses && Counts(a, token, length, k)
  {
    if a :| a in kept && LiesIn(a, length, k) { CountsIs(a, token, length, k); }
    if a :| a in addresses && Counts(a, token, length, k) { CountsIs(a, token, length, k); }
  }

  /** What is held or passed over is what such addresses lie in, and nothing at a length that is
      none. */
  lemma {:induction false} AnswersAre(addresses: seq<Advertised>, token: Option<nat>, length: int, held: seq<nat>,
      passed: seq<nat>, k: nat)
    requires Answer(addresses, token, length, held, passed)
    ensures k in held + passed <==> exists a :: a in addresses && Counts(a, token, length, k)
  {
    var kept := Carrying(addresses, token);
    CarryingMembers(addresses, token);
    var preferred: map<nat, nat> :| Gathered(preferred, kept, |kept|, length) && Chosen(preferred, held, passed);
    CandidatesAre(preferred, kept, length);
    SomeCounts(addresses, kept, token, length, k);
  }

  /** What a host holds of any delegation: it alone, exactly when it outlasts every other one
      advertised beside it; and then it passes over exactly the others. */
  lemma {:induction false} HeldExactly(addresses: seq<Advertised>, token: Option<nat>, length: int, held: seq<nat>,
      passed: seq<nat>, d: nat)
    requires Answer(addresses, token, length, held, passed) && 0 <= length <= 128
    ensures held == [d] <==> Outlasts(Carrying(addresses, token), length, d)
    ensures held == [d] ==> forall k :: k in passed <==>
        k != d && exists a :: a in addresses && Carries(a, token) && LiesIn(a, length, k)
  {
    var kept := Carrying(addresses, token);
    CarryingMembers(addresses, token);
    var preferred: map<nat, nat> :| Gathered(preferred, kept, |kept|, length) && Chosen(preferred, held, passed);
    LeadsWhenOutlasting(preferred, kept, length, d);
    HeldWhenLeading(preferred, held, passed, d);
    CandidatesAre(preferred, kept, length);
  }

  /** A host advertised an address the router resolved from its delegation, given the same
      token and length, holds exactly that delegation exactly when no other delegation
      advertised beside it is preferred as long. */
  lemma {:induction false} HostRecoversDelegation(p: Prefix, subnetId: Option<int>, token: nat,
      addresses: seq<Advertised>, until: nat, held: seq<nat>, passed: seq<nat>)
    requires Valid(p) && 1 <= p.length <= SUBNET_BITS && IdOf(subnetId) < WORD / 2
    requires AddressOf([p], subnetId, Some(token)).Found?
        && IsGlobal(AddressOf([p], subnetId, Some(token)).value.address)
    requires Advertised(V6(AddressOf([p], subnetId, Some(token)).value.address), until) in addresses
    requires Answer(addresses, Some(token), p.length, held, passed)
    ensures held == [Masked(p).address] <==> Outlasts(Carrying(addresses, Some(token)), p.length, Masked(p).address)
    ensures (forall a :: a in addresses && Carries(a, Some(token)) ==> LiesIn(a, p.length, Masked(p).address)) ==>
              held == [Masked(p).address] && passed == []
  {
    var d := Masked(p).address;
    var entry := Advertised(V6(AddressOf([p], subnetId, Some(token)).value.address), until);
    AddressIsInside(p, subnetId, token);
    CarryingMembers(addresses, Some(token));
    assert entry in Carrying(addresses, Some(token)) && LiesIn(entry, p.length, d);
    HeldExactly(addresses, Some(token), p.length, held, passed, d);
    if forall a :: a in addresses && Carries(a, Some(token)) ==> LiesIn(a, p.length, d) {
      assert Outlasts(Carrying(addresses, Some(token)), p.length, d);
      NonePassed(addresses, Some(token), p.length, passed, d);
    }
  }

  lemma {:induction false} NonePassed(addresses: seq<Advertised>, token: Option<nat>, length: int, passed: seq<nat>,
      d: nat)
    requires forall a :: a in addresses && Carries(a, token) ==> LiesIn(a, length, d)
    requires forall k :: k in passed <==>
        k != d && exists a :: a in addresses && Carries(a, token) && LiesIn(a, length, k)
    ensures passed == []
  {
    if passed != [] { HeadOf(passed); }
  }

  lemma {:induction false} HeadOf(s: seq<nat>)
    requires s != []
    ensures exists k :: k in s
  {
    assert s[0] in s;
  }

  lemma {:induction false} HeldAlone(p: Prefix)
    requires Valid(p)
    ensures Held([p]) == Found(Masked(p))
  {
    assert [p][0] == p;
  }

  lemma {:induction false} SubnetsAlike(a: seq<Prefix>, b: seq<Prefix>, subnetId: Option<int>)
    requires (forall p :: p in a ==> Valid(p)) && (forall p :: p in b ==> Valid(p)) && Held(a) == Held(b)
    ensures SubnetOf(a, subnetId) == SubnetOf(b, subnetId)
  {}

  /** Whatever else is derived, the router and that host resolve it alike. */
  lemma {:induction false} BothResolveAlike(p: Prefix, subnetId: Option<int>, token: Option<nat>)
    requires Valid(p) && p.length <= SUBNET_BITS
    ensures Valid(Masked(p)) && SubnetOf([p], subnetId) == SubnetOf([Masked(p)], subnetId)
    ensures AddressOf([p], subnetId, token) == AddressOf([Masked(p)], subnetId, token)
  {
    MaskedTwice(p);
    HeldAlone(p);
    HeldAlone(Masked(p));
    SubnetsAlike([p], [Masked(p)], subnetId);
  }
}
