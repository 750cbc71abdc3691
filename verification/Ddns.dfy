/** The writer of DNS records: what it remembers, and what the provider holds. */
module Ddns {
  import opened Host
  import opened Planning

  // ----- the provider ----------------------------------------------------------------

  /** A record as the provider keeps it, under an identifier it never gives out twice. */
  datatype Entry = Entry(id: nat, zone: nat, record: Record)

  datatype Provider = Provider(zones: map<string, nat>, entries: seq<Entry>, next: nat)

  /** What the writer remembers: identifiers it was told, and what it last put there. */
  datatype Memory = Memory(zones: map<string, nat>, ids: map<RecordId, nat>, written: map<RecordId, Record>)

  /** A call is answered, refused without effect, or has its effect and the answer is lost. */
  datatype Call = Answered | Denied | Lost

  datatype Calls = Calls(zone: Call, lookup: Call, create: Call, update: Call)

  /** The first record the provider lists for a name and type in a zone. */
  function Find(entries: seq<Entry>, zone: nat, id: RecordId): Option<nat> {
    if entries == [] then None
    else if entries[0].zone == zone && entries[0].record.id.name == id.name && entries[0].record.id.kind == id.kind
    then Some(entries[0].id)
    else Find(entries[1..], zone, id)
  }

  predicate Known(entries: seq<Entry>, zone: nat, id: nat) {
    entries != [] && ((entries[0].zone == zone && entries[0].id == id) || Known(entries[1..], zone, id))
  }

  /** An update changes the content, the proxy flag and the TTL, and not which record it is. */
  function Patched(e: Entry, r: Record): Entry { e.(record := Record(e.record.id, r.content, r.proxied, r.ttl)) }

  function Patch(entries: seq<Entry>, zone: nat, id: nat, r: Record): seq<Entry> {
    if entries == [] then []
    else [if entries[0].zone == zone && entries[0].id == id then Patched(entries[0], r) else entries[0]]
         + Patch(entries[1..], zone, id, r)
  }

  /** What the provider holds for a record. */
  function Held(entries: seq<Entry>, id: RecordId): Option<Record> {
    if entries == [] then None
    else if entries[0].record.id == id then Some(entries[0].record)
    else Held(entries[1..], id)
  }

  // ----- one write -------------------------------------------------------------------

  datatype State = State(provider: Provider, memory: Memory)

  function ZoneOf(s: State, zone: string, call: Call): Option<nat> {
    if zone in s.memory.zones then Some(s.memory.zones[zone])
    else if call == Answered && zone in s.provider.zones then Some(s.provider.zones[zone])
    else None
  }

  function Created(p: Provider, zone: nat, r: Record): Provider {
    p.(entries := p.entries + [Entry(p.next, zone, r)], next := p.next + 1)
  }

  function CreateRecord(s: State, zone: nat, r: Record, call: Call): (State, bool) {
    if call == Denied then (s, false)
    else
      var p := Created(s.provider, zone, r);
      if call == Lost then (s.(provider := p), false)
      else (State(p, s.memory.(ids := s.memory.ids[r.id := s.provider.next], written := s.memory.written[r.id := r])),
          true)
  }

  function UpdateRecord(s: State, zone: nat, id: nat, r: Record, call: Call): (State, bool) {
    var forgetting := s.memory.(ids := s.memory.ids - {r.id});
    if call == Denied || !Known(s.provider.entries, zone, id) then (s.(memory := forgetting), false)
    else
      var p := s.provider.(entries := Patch(s.provider.entries, zone, id, r));
      if call == Lost then (State(p, forgetting), false)
      else (State(p, s.memory.(written := s.memory.written[r.id := r])), true)
  }

  function WriteOnce(s: State, r: Record, calls: Calls): (State, bool) {
    var zone := ZoneOf(s, r.id.zone, calls.zone);
    if zone.None? then (s, false)
    else
      var t := s.(memory := s.memory.(zones := s.memory.zones[r.id.zone := zone.value]));
      if r.id in t.memory.ids then UpdateRecord(t, zone.value, t.memory.ids[r.id], r, calls.update)
      else if calls.lookup != Answered then (t, false)
      else
        var found := Find(t.provider.entries, zone.value, r.id);
        if found.None? then CreateRecord(t, zone.value, r, calls.create)
        else
          var u := t.(memory := t.memory.(ids := t.memory.ids[r.id := found.value]));
          UpdateRecord(u, zone.value, found.value, r, calls.update)
  }

  // ----- the writer ------------------------------------------------------------------

  class Cloud {
    var provider: Provider

    constructor (p: Provider) ensures provider == p { provider := p; }

    method ZoneId(zone: string, call: Call) returns (id: Option<nat>)
      ensures id == if call == Answered && zone in provider.zones then Some(provider.zones[zone]) else None
    {
      id := if call == Answered && zone in provider.zones then Some(provider.zones[zone]) else None;
    }

    method Create(zone: nat, r: Record, call: Call) returns (id: Option<nat>)
      modifies this
      ensures provider == (if call == Denied then old(provider) else Created(old(provider), zone, r))
      ensures id == (if call == Answered then Some(old(provider).next) else None)
    {
      id := None;
      if call != Denied {
        if call == Answered { id := Some(provider.next); }
        provider := Created(provider, zone, r);
      }
    }

    method Update(zone: nat, id: nat, r: Record, call: Call) returns (ok: bool)
      modifies this
      ensures var found := Known(old(provider).entries, zone, id);
              && provider == (if found && call != Denied
                              then old(provider).(entries := Patch(old(provider).entries, zone, id, r))
                              else old(provider))
              && ok == (found && call == Answered)
    {
      var found := Known(provider.entries, zone, id);
      if found && call != Denied { provider := provider.(entries := Patch(provider.entries, zone, id, r)); }
      ok := found && call == Answered;
    }
  }

  class Writer {
    const cloud: Cloud
    var zones: map<string, nat>
    var ids: map<RecordId, nat>
    var written: map<RecordId, Record>

    constructor (cloud: Cloud)
      ensures this.cloud == cloud && zones == map[] && ids == map[] && written == map[]
    {
      this.cloud, zones, ids, written := cloud, map[], map[], map[];
    }

    function View(): State
      reads this, cloud
    {
      State(cloud.provider, Memory(zones, ids, written))
    }

    method Last(r: Record) returns (last: Option<Record>)
      ensures last == if r.id in written then Some(written[r.id]) else None
    {
      last := if r.id in written then Some(written[r.id]) else None;
    }

    /** Whether this process has already put exactly this record at the provider. */
    method Holds(r: Record) returns (holds: bool)
      ensures holds == !MustWrite(r, written)
    {
      var last := Last(r);
      holds := last == Some(r);
    }

    /** Puts one record at the provider, creating it if it is not there. */
    method Write(r: Record, calls: Calls) returns (ok: bool)
      modifies this, cloud
      ensures (View(), ok) == WriteOnce(old(View()), r, calls)
    {
      if r.id.zone !in zones {
        var found := cloud.ZoneId(r.id.zone, calls.zone);
        if found.None? { return false; }
        zones := zones[r.id.zone := found.value];
      }
      var zone := zones[r.id.zone];
      assert zones == old(zones)[r.id.zone := zone];
      if r.id !in ids {
        if calls.lookup != Answered { return false; }
        var found := Find(cloud.provider.entries, zone, r.id);
        if found.None? {
          var id := cloud.Create(zone, r, calls.create);
          if id.Some? {
            ids := ids[r.id := id.value];
            written := written[r.id := r];
          }
          return id.Some?;
        }
        ids := ids[r.id := found.value];
      }
      ok := cloud.Update(zone, ids[r.id], r, calls.update);
      if ok {
        written := written[r.id := r];
      } else {
        ids := ids - {r.id};
      }
    }
  }

  // ----- what always holds -----------------------------------------------------------

  ghost predicate OneEach(entries: seq<Entry>) {
    forall i, j :: 0 <= i < j < |entries| ==>
      entries[i].record.id != entries[j].record.id && entries[i].id != entries[j].id
  }

  ghost predicate EntryOk(p: Provider, e: Entry) {
    e.id < p.next && e.record.id.zone in p.zones && p.zones[e.record.id.zone] == e.zone
  }

  /** The provider keeps one record for a zone, name and type, and a zone per identifier. */
  ghost predicate ProviderOk(p: Provider) {
    && OneEach(p.entries)
    && (forall e :: e in p.entries ==> EntryOk(p, e))
    && forall a, b :: a in p.zones && b in p.zones && p.zones[a] == p.zones[b] ==> a == b
  }

  ghost predicate IdOk(p: Provider, id: RecordId, n: nat) {
    n < p.next && forall e :: e in p.entries && e.id == n ==> e.record.id == id
  }

  /** An identifier remembered is never another record's. */
  ghost predicate Sane(s: State) {
    && ProviderOk(s.provider)
    && (forall z :: z in s.memory.zones ==> z in s.provider.zones && s.provider.zones[z] == s.memory.zones[z])
    && forall id :: id in s.memory.ids ==> IdOk(s.provider, id, s.memory.ids[id])
  }

  lemma {:induction false} FindIs(p: Provider, entries: seq<Entry>, zone: nat, id: RecordId)
    requires (forall e :: e in entries ==> EntryOk(p, e)) && id.zone in p.zones && p.zones[id.zone] == zone
    requires forall a, b :: a in p.zones && b in p.zones && p.zones[a] == p.zones[b] ==> a == b
    ensures Find(entries, zone, id).None? <==> forall e :: e in entries ==> e.record.id != id
    ensures Find(entries, zone, id).Some? ==>
        exists e :: e in entries && e.record.id == id && e.zone == zone && e.id == Find(entries, zone, id).value
  {
    if entries != [] {
      assert entries == [entries[0]] + entries[1..];
      var e := entries[0];
      assert EntryOk(p, e);
      assert e.zone == zone && e.record.id.name == id.name && e.record.id.kind == id.kind <==> e.record.id == id;
      FindIs(p, entries[1..], zone, id);
    }
  }

  lemma {:induction false} KnownIs(entries: seq<Entry>, zone: nat, id: nat)
    ensures Known(entries, zone, id) <==> exists e :: e in entries && e.zone == zone && e.id == id
  {
    if entries != [] {
      assert entries == [entries[0]] + entries[1..];
      KnownIs(entries[1..], zone, id);
    }
  }

  lemma {:induction false} PatchIs(entries: seq<Entry>, zone: nat, id: nat, r: Record)
    ensures |Patch(entries, zone, id, r)| == |entries|
    ensures forall i :: 0 <= i < |entries| ==>
              Patch(entries, zone, id, r)[i] ==
                if entries[i].zone == zone && entries[i].id == id then Patched(entries[i], r) else entries[i]
  {
    if entries != [] { PatchIs(entries[1..], zone, id, r); }
  }

  lemma {:induction false} HeldIs(entries: seq<Entry>, id: RecordId)
    requires OneEach(entries)
    ensures Held(entries, id).None? <==> forall e :: e in entries ==> e.record.id != id
    ensures forall e :: e in entries && e.record.id == id ==> Held(entries, id) == Some(e.record)
  {
    if entries != [] {
      assert entries == [entries[0]] + entries[1..];
      assert OneEach(entries[1..]);
      HeldIs(entries[1..], id);
      forall e | e in entries[1..] ensures e.record.id != entries[0].record.id {
        var j :| 0 <= j < |entries[1..]| && entries[1..][j] == e;
        assert entries[j + 1] == e;
      }
    }
  }

  lemma {:induction false} HeldSome(entries: seq<Entry>, id: RecordId) returns (e: Entry)
    requires Held(entries, id).Some?
    ensures e in entries && e.record == Held(entries, id).value && e.record.id == id
  {
    if entries[0].record.id == id { e := entries[0]; } else { e := HeldSome(entries[1..], id); }
  }

  // ----- creating --------------------------------------------------------------------

  lemma {:induction false} CreatedOk(p: Provider, zone: nat, r: Record)
    requires ProviderOk(p) && r.id.zone in p.zones && p.zones[r.id.zone] == zone
    requires forall e :: e in p.entries ==> e.record.id != r.id
    ensures ProviderOk(Created(p, zone, r))
    ensures Held(Created(p, zone, r).entries, r.id) == Some(r)
    ensures forall id :: id != r.id ==> Held(Created(p, zone, r).entries, id) == Held(p.entries, id)
    ensures forall id, n: nat :: IdOk(p, id, n) ==> IdOk(Created(p, zone, r), id, n)
    ensures IdOk(Created(p, zone, r), r.id, p.next)
  {
    var q := Created(p, zone, r);
    var e := Entry(p.next, zone, r);
    assert forall x :: x in q.entries <==> x in p.entries || x == e;
    assert forall x :: x in p.entries ==> EntryOk(p, x);
    assert forall k :: 0 <= k < |p.entries| ==> p.entries[k] in p.entries;
    assert ProviderOk(q);
    HeldIs(q.entries, r.id);
    forall id | id != r.id ensures Held(q.entries, id) == Held(p.entries, id) { HeldAppend(p.entries, e, id); }
  }

  lemma {:induction false} HeldAppend(entries: seq<Entry>, e: Entry, id: RecordId)
    requires e.record.id != id
    ensures Held(entries + [e], id) == Held(entries, id)
  {
    if entries != [] {
      assert (entries + [e])[1..] == entries[1..] + [e];
      HeldAppend(entries[1..], e, id);
    } else {
      assert [e][1..] == [];
    }
  }

  // ----- updating --------------------------------------------------------------------

  lemma {:induction false} PatchedOk(p: Provider, zone: nat, n: nat, r: Record)
    requires ProviderOk(p) && IdOk(p, r.id, n)
    ensures var q := p.(entries := Patch(p.entries, zone, n, r));
            ProviderOk(q) && forall id, m: nat :: IdOk(p, id, m) ==> IdOk(q, id, m)
  {
    var q := p.(entries := Patch(p.entries, zone, n, r));
    PatchIs(p.entries, zone, n, r);
    assert forall i :: 0 <= i < |p.entries| ==> p.entries[i] in p.entries;
    assert forall i :: 0 <= i < |p.entries| ==>
      q.entries[i].id == p.entries[i].id && q.entries[i].zone == p.entries[i].zone
      && q.entries[i].record.id == p.entries[i].record.id;
    forall e | e in q.entries ensures EntryOk(q, e) {
      var i :| 0 <= i < |q.entries| && q.entries[i] == e;
      assert EntryOk(p, p.entries[i]);
    }
    forall id, m: nat | IdOk(p, id, m) ensures IdOk(q, id, m) {
      forall e | e in q.entries && e.id == m ensures e.record.id == id {
        var i :| 0 <= i < |q.entries| && q.entries[i] == e;
      }
    }
  }

  lemma {:induction false} PatchedHolds(p: Provider, zone: nat, n: nat, r: Record)
    requires ProviderOk(p) && IdOk(p, r.id, n) && Known(p.entries, zone, n)
    ensures var q := p.(entries := Patch(p.entries, zone, n, r));
            Held(q.entries, r.id) == Some(r) && forall id :: id != r.id ==> Held(q.entries, id) == Held(p.entries, id)
  {
    var q := p.(entries := Patch(p.entries, zone, n, r));
    PatchIs(p.entries, zone, n, r);
    KnownIs(p.entries, zone, n);
    PatchedOk(p, zone, n, r);
    var e :| e in p.entries && e.zone == zone && e.id == n;
    var i :| 0 <= i < |p.entries| && p.entries[i] == e;
    assert q.entries[i].record == r && q.entries[i] in q.entries;
    HeldIs(q.entries, r.id);
    forall id | id != r.id ensures Held(q.entries, id) == Held(p.entries, id) { HeldPatch(p.entries, zone, n, r, id); }
  }

  lemma {:induction false} HeldPatch(entries: seq<Entry>, zone: nat, n: nat, r: Record, id: RecordId)
    requires id != r.id && forall e :: e in entries && e.id == n ==> e.record.id == r.id
    ensures Held(Patch(entries, zone, n, r), id) == Held(entries, id)
  {
    if entries != [] {
      assert entries == [entries[0]] + entries[1..];
      HeldPatch(entries[1..], zone, n, r, id);
    }
  }

  // ----- one write, whatever fails ---------------------------------------------------

  /** Whether a write gets as far as an update or a creation. */
  predicate Reaches(s: State, r: Record, calls: Calls) {
    ZoneOf(s, r.id.zone, calls.zone).Some? && (r.id in s.memory.ids || calls.lookup == Answered)
  }

  ghost predicate OnlyOn(s: State, t: State, id: RecordId) {
    forall other :: other != id ==>
      && Held(t.provider.entries, other) == Held(s.provider.entries, other)
      && (other in t.memory.written <==> other in s.memory.written)
      && (other in s.memory.written ==> t.memory.written[other] == s.memory.written[other])
  }

  /** What a write can leave: nothing done, done but not known, or done and known. */
  ghost predicate WriteOutcome(s: State, t: State, ok: bool, r: Record) {
    && Sane(t) && OnlyOn(s, t, r.id) && t.provider.zones == s.provider.zones
    && if ok then Held(t.provider.entries, r.id) == Some(r) && r.id in t.memory.written && t.memory.written[r.id] == r
       else
         && t.memory.written == s.memory.written
         && (Held(t.provider.entries, r.id) == Held(s.provider.entries, r.id)
             || Held(t.provider.entries, r.id) == Some(r))
  }

  lemma {:induction false} UpdateOutcome(s: State, zone: nat, n: nat, r: Record, call: Call)
    requires Sane(s) && IdOk(s.provider, r.id, n)
    ensures var (t, ok) := UpdateRecord(s, zone, n, r, call);
            && WriteOutcome(s, t, ok, r)
            && (call != Lost && !ok ==> t.provider == s.provider)
            && (call == Lost && Known(s.provider.entries, zone, n) ==> Held(t.provider.entries, r.id) == Some(r))
            && (ok <==> call == Answered && Known(s.provider.entries, zone, n))
  {
    if Known(s.provider.entries, zone, n) {
      PatchedOk(s.provider, zone, n, r);
      PatchedHolds(s.provider, zone, n, r);
    }
  }

  lemma {:induction false} CreateOutcome(s: State, zone: nat, r: Record, call: Call)
    requires Sane(s) && r.id.zone in s.provider.zones && s.provider.zones[r.id.zone] == zone
    requires forall e :: e in s.provider.entries ==> e.record.id != r.id
    ensures var (t, ok) := CreateRecord(s, zone, r, call);
            && WriteOutcome(s, t, ok, r) && (call == Denied ==> t == s) && (ok <==> call == Answered)
            && (call == Lost ==> Held(t.provider.entries, r.id) == Some(r))
  {
    CreatedOk(s.provider, zone, r);
  }

  lemma {:induction false} FoundIsRight(s: State, zone: nat, id: RecordId)
    requires Sane(s) && id.zone in s.provider.zones && s.provider.zones[id.zone] == zone
    ensures var found := Find(s.provider.entries, zone, id);
            if found.None?
            then Held(s.provider.entries, id).None? && (forall e :: e in s.provider.entries ==> e.record.id != id)
            else
              IdOk(s.provider, id, found.value) && Known(s.provider.entries, zone, found.value)
              && Held(s.provider.entries, id).Some?
  {
    var p := s.provider;
    FindIs(p, p.entries, zone, id);
    HeldIs(p.entries, id);
    var found := Find(p.entries, zone, id);
    if found.Some? {
      var e :| e in p.entries && e.record.id == id && e.zone == zone && e.id == found.value;
      KnownIs(p.entries, zone, found.value);
      forall x | x in p.entries && x.id == e.id ensures x.record.id == id { SameEntry(p.entries, x, e); }
      assert EntryOk(p, e);
    }
  }

  lemma {:induction false} SameEntry(entries: seq<Entry>, x: Entry, e: Entry)
    requires OneEach(entries) && x in entries && e in entries && x.id == e.id
    ensures x == e
  {
    var i :| 0 <= i < |entries| && entries[i] == x;
    var j :| 0 <= j < |entries| && entries[j] == e;
    assert i == j;
  }

  /** Whatever calls fail, with or without effect: a write touches its own record alone, never
      makes a second one, holds what it reports done, and forgets nothing it had written. */
  lemma {:induction false} WriteIsSafe(s: State, r: Record, calls: Calls)
    requires Sane(s)
    ensures var (t, ok) := WriteOnce(s, r, calls); WriteOutcome(s, t, ok, r)
  {
    var zone := ZoneOf(s, r.id.zone, calls.zone);
    if zone.Some? {
      var t := s.(memory := s.memory.(zones := s.memory.zones[r.id.zone := zone.value]));
      FoundIsRight(t, zone.value, r.id);
      if r.id in t.memory.ids {
        UpdateOutcome(t, zone.value, t.memory.ids[r.id], r, calls.update);
      } else if calls.lookup == Answered {
        var found := Find(t.provider.entries, zone.value, r.id);
        if found.None? {
          CreateOutcome(t, zone.value, r, calls.create);
        } else {
          var u := t.(memory := t.memory.(ids := t.memory.ids[r.id := found.value]));
          assert Sane(u);
          UpdateOutcome(u, zone.value, found.value, r, calls.update);
        }
      }
    }
  }

  predicate Remembers(entries: seq<Entry>, zone: nat, id: RecordId, n: nat) {
    exists e :: e in entries && e.id == n && e.zone == zone && e.record.id == id
  }

  /** Whether the record's zone is known, or is told. */
  predicate KnowsZone(s: State, r: Record, calls: Calls) {
    r.id.zone in s.memory.zones || (calls.zone == Answered && r.id.zone in s.provider.zones)
  }

  ghost predicate IsThere(s: State, r: Record) { exists e :: e in s.provider.entries && e.record.id == r.id }

  /** What the writer remembers of identifiers and zones after a write, done or not; `updating`
      says that it came to an update. */
  ghost predicate RemembersAfter(s: State, t: State, ok: bool, r: Record, zone: nat, updating: bool) {
    && (ok ==> r.id in t.memory.ids && Remembers(t.provider.entries, zone, r.id, t.memory.ids[r.id]))
    && (!ok && updating ==> r.id !in t.memory.ids)
    && (forall other :: other != r.id ==>
          && (other in t.memory.ids <==> other in s.memory.ids)
          && (other in s.memory.ids ==> t.memory.ids[other] == s.memory.ids[other]))
    && t.memory.zones == s.memory.zones[r.id.zone := zone]
  }

  /** Which calls a write needs, and what it then remembers. The zone is asked for once. A record
      whose identifier is remembered is updated; any other is looked up, and updated if it is
      there and created if it is not. When it is done its identifier is remembered; when an
      update is not, none is, so that the next attempt looks it up. */
  lemma {:induction false} WriteNeeds(s: State, r: Record, calls: Calls)
    requires Sane(s)
    ensures var (t, ok) := WriteOnce(s, r, calls);
            if !KnowsZone(s, r, calls) then t == s && !ok
            else
              && r.id.zone in s.provider.zones
              && var zone := s.provider.zones[r.id.zone];
                 var updates := calls.update == Answered;
                 if r.id in s.memory.ids then
                   && (ok <==> updates && Remembers(s.provider.entries, zone, r.id, s.memory.ids[r.id]))
                   && RemembersAfter(s, t, ok, r, zone, true)
                 else
                   && (ok <==> calls.lookup == Answered
                               && (if IsThere(s, r) then updates else calls.create == Answered))
                   && RemembersAfter(s, t, ok, r, zone, calls.lookup == Answered && IsThere(s, r))
  {
    var zone := ZoneOf(s, r.id.zone, calls.zone);
    if zone.Some? {
      var t := s.(memory := s.memory.(zones := s.memory.zones[r.id.zone := zone.value]));
      assert t.memory.zones[r.id.zone := zone.value] == t.memory.zones;
      assert t.(memory := t.memory.(zones := t.memory.zones[r.id.zone := zone.value])) == t;
      assert WriteOnce(s, r, calls) == WriteOnce(t, r, calls);
      ByIdentifier(t, zone.value, r, calls);
      if r.id !in t.memory.ids && calls.lookup == Answered { LookedUp(t, zone.value, r, calls); }
    }
  }

  lemma {:induction false} ByIdentifier(t: State, zone: nat, r: Record, calls: Calls)
    requires Sane(t) && r.id.zone in t.memory.zones && t.memory.zones[r.id.zone] == zone
    ensures var (u, ok) := WriteOnce(t, r, calls);
            && (r.id in t.memory.ids ==>
                  && (ok <==> calls.update == Answered && Remembers(t.provider.entries, zone, r.id, t.memory.ids[r.id]))
                  && RemembersAfter(t, u, ok, r, zone, true))
            && (r.id !in t.memory.ids && calls.lookup != Answered ==>
                  u == t && !ok && RemembersAfter(t, u, ok, r, zone, false))
  {
    assert t.(memory := t.memory.(zones := t.memory.zones[r.id.zone := zone])) == t;
    if r.id in t.memory.ids { UpdateNeeds(t, zone, t.memory.ids[r.id], r, calls.update); }
  }

  lemma {:induction false} LookedUp(t: State, zone: nat, r: Record, calls: Calls)
    requires Sane(t) && r.id !in t.memory.ids && r.id.zone in t.memory.zones && t.memory.zones[r.id.zone] == zone
    requires calls.lookup == Answered
    ensures var (u, ok) := WriteOnce(t, r, calls);
            && (ok <==> (if IsThere(t, r) then calls.update == Answered else calls.create == Answered))
            && RemembersAfter(t, u, ok, r, zone, IsThere(t, r))
  {
    assert t.(memory := t.memory.(zones := t.memory.zones[r.id.zone := zone])) == t;
    FoundIsRight(t, zone, r.id);
    HeldIs(t.provider.entries, r.id);
    var found := Find(t.provider.entries, zone, r.id);
    if found.None? {
      CreateNeeds(t, zone, r, calls.create);
    } else {
      var u := t.(memory := t.memory.(ids := t.memory.ids[r.id := found.value]));
      assert Sane(u);
      UpdateNeeds(u, zone, found.value, r, calls.update);
      KnownRemembers(u, zone, found.value, r.id);
    }
  }

  lemma {:induction false} KnownRemembers(s: State, zone: nat, n: nat, id: RecordId)
    requires Sane(s) && IdOk(s.provider, id, n)
    ensures Known(s.provider.entries, zone, n) <==> Remembers(s.provider.entries, zone, id, n)
  {
    KnownIs(s.provider.entries, zone, n);
  }

  lemma {:induction false} UpdateNeeds(s: State, zone: nat, n: nat, r: Record, call: Call)
    requires Sane(s) && IdOk(s.provider, r.id, n) && r.id in s.memory.ids && s.memory.ids[r.id] == n
    ensures var (t, ok) := UpdateRecord(s, zone, n, r, call);
            && (ok <==> call == Answered && Remembers(s.provider.entries, zone, r.id, n))
            && (ok ==> r.id in t.memory.ids && t.memory.ids[r.id] == n && Remembers(t.provider.entries, zone, r.id, n))
            && (!ok ==> r.id !in t.memory.ids)
            && t.memory.zones == s.memory.zones && t.provider.zones == s.provider.zones
  {
    KnownRemembers(s, zone, n, r.id);
    if e :| e in s.provider.entries && e.id == n && e.zone == zone && e.record.id == r.id {
      var i :| 0 <= i < |s.provider.entries| && s.provider.entries[i] == e;
      PatchIs(s.provider.entries, zone, n, r);
      var after := Patch(s.provider.entries, zone, n, r);
      assert after[i] in after && after[i].record.id == r.id;
    }
  }

  lemma {:induction false} CreateNeeds(s: State, zone: nat, r: Record, call: Call)
    requires r.id !in s.memory.ids
    ensures var (t, ok) := CreateRecord(s, zone, r, call);
            && (ok <==> call == Answered)
            && (ok ==> r.id in t.memory.ids && Remembers(t.provider.entries, zone, r.id, t.memory.ids[r.id]))
            && t.memory.zones == s.memory.zones && t.provider.zones == s.provider.zones
  {
    if call == Answered {
      var entry := Entry(s.provider.next, zone, r);
      assert entry in Created(s.provider, zone, r).entries;
    }
  }

  // ----- agreement -------------------------------------------------------------------

  /** What the writer remembers writing for a record, if anything, is what the provider holds. */
  ghost predicate AgreesOn(s: State, id: RecordId) {
    id in s.memory.written ==> Held(s.provider.entries, id) == Some(s.memory.written[id])
  }

  ghost predicate Agrees(s: State) { forall id :: AgreesOn(s, id) }

  /** An update whose answer is lost is the one thing that breaks the agreement, when it
      changed a record this process had written before. */
  predicate Breaks(s: State, r: Record, calls: Calls) {
    calls.update == Lost && Reaches(s, r, calls) && KnownThen(s, r, calls)
        && r.id in s.memory.written && s.memory.written[r.id] != r
  }

  /** Whether the identifier the update would use is still there. */
  predicate KnownThen(s: State, r: Record, calls: Calls) {
    var zone := ZoneOf(s, r.id.zone, calls.zone);
    zone.Some? && (r.id in s.memory.ids ==> Known(s.provider.entries, zone.value, s.memory.ids[r.id]))
  }

  lemma {:induction false} AgreementKept(s: State, r: Record, calls: Calls)
    requires Sane(s) && AgreesOn(s, r.id)
    ensures AgreesOn(WriteOnce(s, r, calls).0, r.id) <==> !Breaks(s, r, calls)
  {
    var zone := ZoneOf(s, r.id.zone, calls.zone);
    if zone.Some? {
      var t := s.(memory := s.memory.(zones := s.memory.zones[r.id.zone := zone.value]));
      FoundIsRight(t, zone.value, r.id);
      if r.id in t.memory.ids {
        UpdateOutcome(t, zone.value, t.memory.ids[r.id], r, calls.update);
      } else if calls.lookup == Answered {
        var found := Find(t.provider.entries, zone.value, r.id);
        if found.None? {
          CreateOutcome(t, zone.value, r, calls.create);
        } else {
          var u := t.(memory := t.memory.(ids := t.memory.ids[r.id := found.value]));
          assert Sane(u);
          UpdateOutcome(u, zone.value, found.value, r, calls.update);
        }
      }
    }
  }

  /** A write that its memory lets the caller skip would not have changed the provider. */
  lemma {:induction false} SkippingIsRight(s: State, r: Record)
    requires Agrees(s) && !MustWrite(r, s.memory.written)
    ensures Held(s.provider.entries, r.id) == Some(r)
  {
    assert AgreesOn(s, r.id);
  }

  // ----- over a whole life of the process --------------------------------------------

  datatype Event =
    | Attempt(record: Record, calls: Calls)
    | Deleted(id: RecordId)                       // somebody else took the record away
    | Changed(id: RecordId, record: Record)           // somebody else changed what it says

  function Without(entries: seq<Entry>, id: RecordId): seq<Entry> {
    if entries == [] then [] else (if entries[0].record.id == id then [] else [entries[0]]) + Without(entries[1..], id)
  }

  function Altered(entries: seq<Entry>, id: RecordId, r: Record): seq<Entry> {
    if entries == [] then []
    else [if entries[0].record.id == id then Patched(entries[0], r) else entries[0]] + Altered(entries[1..], id, r)
  }

  function After(s: State, e: Event): State {
    match e
    case Attempt(r, calls) => WriteOnce(s, r, calls).0
    case Deleted(id) => s.(provider := s.provider.(entries := Without(s.provider.entries, id)))
    case Changed(id, r) => s.(provider := s.provider.(entries := Altered(s.provider.entries, id, r)))
  }

  ghost predicate Life(states: seq<State>, events: seq<Event>) {
    && |states| == |events| + 1
    && forall i :: 0 <= i < |events| ==> states[i + 1] == After(states[i], events[i])
  }

  lemma {:induction false} WithoutIs(entries: seq<Entry>, id: RecordId)
    requires OneEach(entries)
    ensures forall e :: e in Without(entries, id) <==> e in entries && e.record.id != id
    ensures OneEach(Without(entries, id))
  {
    if entries != [] {
      assert entries == [entries[0]] + entries[1..];
      assert OneEach(entries[1..]);
      WithoutIs(entries[1..], id);
      var rest := Without(entries[1..], id);
      forall j | 0 <= j < |rest| ensures rest[j].record.id != entries[0].record.id && rest[j].id != entries[0].id {
        assert rest[j] in rest;
        var k :| 0 <= k < |entries[1..]| && entries[1..][k] == rest[j];
        assert entries[k + 1] == rest[j];
      }
    }
  }

  lemma {:induction false} AlteredIs(entries: seq<Entry>, id: RecordId, r: Record)
    ensures |Altered(entries, id, r)| == |entries|
    ensures forall i :: 0 <= i < |entries| ==>
        Altered(entries, id, r)[i] == if entries[i].record.id == id then Patched(entries[i], r) else entries[i]
  {
    if entries != [] { AlteredIs(entries[1..], id, r); }
  }

  lemma {:induction false} DeletedIsSane(s: State, id: RecordId)
    requires Sane(s)
    ensures Sane(After(s, Deleted(id)))
  {
    var p, q := s.provider, After(s, Deleted(id)).provider;
    WithoutIs(p.entries, id);
    assert forall x :: x in q.entries ==> EntryOk(p, x);
    forall k, n: nat | IdOk(p, k, n) ensures IdOk(q, k, n) {}
  }

  lemma {:induction false} ChangedIsSane(s: State, id: RecordId, r: Record)
    requires Sane(s)
    ensures Sane(After(s, Changed(id, r)))
  {
    var p, q := s.provider, After(s, Changed(id, r)).provider;
    AlteredIs(p.entries, id, r);
    assert forall i :: 0 <= i < |p.entries| ==> p.entries[i] in p.entries;
    assert forall i :: 0 <= i < |p.entries| ==>
      q.entries[i].id == p.entries[i].id && q.entries[i].zone == p.entries[i].zone
      && q.entries[i].record.id == p.entries[i].record.id;
    assert OneEach(q.entries);
    forall x | x in q.entries ensures EntryOk(q, x) {
      var i :| 0 <= i < |q.entries| && q.entries[i] == x;
      assert EntryOk(p, p.entries[i]);
    }
    forall k, n: nat | IdOk(p, k, n) ensures IdOk(q, k, n) {
      forall x | x in q.entries && x.id == n ensures x.record.id == k {
        var i :| 0 <= i < |q.entries| && q.entries[i] == x;
      }
    }
  }

  /** No life of the process ever makes two records of one: whatever calls fail and however,
      and whatever somebody else deletes or changes. */
  lemma {:induction false} NeverTwo(states: seq<State>, events: seq<Event>, i: nat)
    requires Life(states, events) && Sane(states[0]) && i < |states|
    ensures Sane(states[i])
  {
    if i > 0 {
      NeverTwo(states, events, i - 1);
      if events[i - 1].Attempt? { WriteIsSafe(states[i - 1], events[i - 1].record, events[i - 1].calls); }
      else if events[i - 1].Deleted? { DeletedIsSane(states[i - 1], events[i - 1].id); }
      else { ChangedIsSane(states[i - 1], events[i - 1].id, events[i - 1].record); }
    }
  }

  // ----- when memory and provider part -----------------------------------------------

  lemma {:induction false} HeldWithout(entries: seq<Entry>, id: RecordId, other: RecordId)
    ensures Held(Without(entries, id), other) == if other == id then None else Held(entries, other)
  {
    if entries != [] {
      HeldWithout(entries[1..], id, other);
      var rest := Without(entries[1..], id);
      assert ([entries[0]] + rest)[1..] == rest && [] + rest == rest;
    }
  }

  /** A record as somebody else changes it to say what another says. */
  function Says(id: RecordId, r: Record): Record { Record(id, r.content, r.proxied, r.ttl) }

  lemma {:induction false} HeldAltered(entries: seq<Entry>, id: RecordId, r: Record, other: RecordId)
    ensures Held(Altered(entries, id, r), other) ==
              if other == id && Held(entries, id).Some? then Some(Says(id, r)) else Held(entries, other)
  {
    if entries != [] {
      HeldAltered(entries[1..], id, r, other);
      var first := if entries[0].record.id == id then Patched(entries[0], r) else entries[0];
      assert ([first] + Altered(entries[1..], id, r))[1..] == Altered(entries[1..], id, r);
    }
  }

  /** What parts memory and provider: an update of a record written before whose answer is
      lost, or somebody else taking a record away that was written, or making it say
      something else. */
  predicate Spoils(s: State, e: Event) {
    match e
    case Attempt(r, calls) => Breaks(s, r, calls)
    case Deleted(id) => id in s.memory.written
    case Changed(id, r) => id in s.memory.written && Says(id, r) != s.memory.written[id]
  }

  lemma {:induction false} AgreesAfter(s: State, e: Event)
    requires Sane(s) && Agrees(s)
    ensures Agrees(After(s, e)) <==> !Spoils(s, e)
  {
    var t := After(s, e);
    var own := if e.Attempt? then e.record.id else e.id;
    assert AgreesOn(s, own);
    match e {
      case Attempt(r, calls) =>
        WriteIsSafe(s, r, calls);
        AgreementKept(s, r, calls);
      case Deleted(id) =>
        forall other
          ensures Held(t.provider.entries, other) == if other == id then None else Held(s.provider.entries, other)
        {
          HeldWithout(s.provider.entries, id, other);
        }
      case Changed(id, r) =>
        forall other
          ensures Held(t.provider.entries, other) ==
                    if other == id && Held(s.provider.entries, id).Some? then Some(Says(id, r))
                    else Held(s.provider.entries, other)
        {
          HeldAltered(s.provider.entries, id, r, other);
        }
    }
    forall id | id != own ensures AgreesOn(t, id) { assert AgreesOn(s, id); }
    assert AgreesOn(t, own) <==> !Spoils(s, e);
  }

  /** Over a whole life, whoever else is at the provider: memory and provider agree throughout
      exactly if they did to begin with and nothing that happens parts them. */
  lemma {:induction false} AlwaysAgrees(states: seq<State>, events: seq<Event>)
    requires Life(states, events) && Sane(states[0])
    ensures (forall i :: 0 <= i < |states| ==> Agrees(states[i]))
            <==> Agrees(states[0]) && forall k :: 0 <= k < |events| ==> !Spoils(states[k], events[k])
  {
    if forall i :: 0 <= i < |states| ==> Agrees(states[i]) {
      forall k | 0 <= k < |events| ensures !Spoils(states[k], events[k]) {
        NeverTwo(states, events, k);
        AgreesAfter(states[k], events[k]);
        assert Agrees(states[k + 1]);
      }
    } else if Agrees(states[0]) && forall k :: 0 <= k < |events| ==> !Spoils(states[k], events[k]) {
      forall i | 0 <= i < |states| ensures Agrees(states[i]) { AgreesUpTo(states, events, i); }
    }
  }

  lemma {:induction false} AgreesUpTo(states: seq<State>, events: seq<Event>, i: nat)
    requires Life(states, events) && Sane(states[0]) && Agrees(states[0]) && i < |states|
    requires forall k :: 0 <= k < |events| ==> !Spoils(states[k], events[k])
    ensures Agrees(states[i])
  {
    if i > 0 {
      AgreesUpTo(states, events, i - 1);
      NeverTwo(states, events, i - 1);
      AgreesAfter(states[i - 1], events[i - 1]);
    }
  }

  /** So a record asked for unchanged is skipped rightly at every moment of such a life. */
  lemma {:induction false} SkippedRightly(states: seq<State>, events: seq<Event>, i: nat, r: Record)
    requires Life(states, events) && Sane(states[0]) && Agrees(states[0]) && i < |states|
    requires forall k :: 0 <= k < |events| ==> !Spoils(states[k], events[k])
    requires !MustWrite(r, states[i].memory.written)
    ensures Held(states[i].provider.entries, r.id) == Some(r)
  {
    AgreesUpTo(states, events, i);
    SkippingIsRight(states[i], r);
  }

  const ANSWERED := Calls(Answered, Answered, Answered, Answered)

  /** However the state came about, two attempts that the provider answers put the record
      there; one is enough unless an identifier was remembered of a record that is gone. */
  lemma {:induction false} TwoAttemptsRestore(s: State, r: Record)
    requires Sane(s) && r.id.zone in s.provider.zones
    ensures var (t, ok) := WriteOnce(s, r, ANSWERED);
            var (u, again) := WriteOnce(t, r, ANSWERED);
            && (ok <==>
                  r.id !in s.memory.ids || Known(s.provider.entries, s.provider.zones[r.id.zone], s.memory.ids[r.id]))
            && (ok || again) && Held((if ok then t else u).provider.entries, r.id) == Some(r)
  {
    var (t, ok) := WriteOnce(s, r, ANSWERED);
    WriteIsSafe(s, r, ANSWERED);
    OneAttempt(s, r);
    if !ok {
      assert r.id !in t.memory.ids;
      OneAttempt(t, r);
      WriteIsSafe(t, r, ANSWERED);
    }
  }

  lemma {:induction false} OneAttempt(s: State, r: Record)
    requires Sane(s) && r.id.zone in s.provider.zones
    ensures WriteOnce(s, r, ANSWERED).1 <==>
        r.id !in s.memory.ids || Known(s.provider.entries, s.provider.zones[r.id.zone], s.memory.ids[r.id])
  {
    var zone := ZoneOf(s, r.id.zone, Answered).value;
    FoundIsRight(s, zone, r.id);
  }

  /** The memory is of what this process wrote, not of what is there: a record somebody else
      deletes is skipped for as long as it is asked for unchanged, and one whose update was
      applied but not answered is skipped when what is asked for moves back. */
  lemma {:induction false} SkippingCanBeWrong(zone: string, a: Record, b: Record)
    requires a.id == b.id && a != b && a.id.zone == zone
    ensures var s := State(Provider(map[zone := 0], [Entry(0, 0, a)], 1),
        Memory(map[zone := 0], map[a.id := 0], map[a.id := a]));
            var gone := After(s, Deleted(a.id));
            var lost := After(s, Attempt(b, Calls(Answered, Answered, Answered, Lost)));
            && Sane(s) && Agrees(s)
            && !MustWrite(a, gone.memory.written) && Held(gone.provider.entries, a.id) == None
            && !MustWrite(a, lost.memory.written) && Held(lost.provider.entries, a.id) == Some(b)
  {
    var entries := [Entry(0, 0, a)];
    assert entries[1..] == [];
    assert Without(entries, a.id) == [];
    assert Patch(entries[1..], 0, 0, b) == [];
    assert Patch(entries, 0, 0, b) == [Patched(entries[0], b)];
  }
}
