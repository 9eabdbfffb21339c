/**
  The append-only audit chain (src/audit/chain.py).

  Each record carries its position, the hash of its predecessor and a payload; the chain keeps
  the record hashes beside the records. SHA-256 and JSON rendering are arbitrary functions here
  (a Crypto value); what a theorem needs of them it asks for.
 */
module Audit {
  import opened References
  import opened Wrappers

  datatype Json = Text(text: string) | Number(number: int) | Null

  type Payload = map<string, Json>

  datatype Record = Record(
    sequence: int,
    previousHash: string,
    eventType: string,
    actor: string,
    timestamp: string,
    payload: Payload)

  datatype Crypto = Crypto(sha256: string -> string, dumps: Payload -> string)

  // Hex digests, so that every chain head is acceptable as a previous hash.
  ghost predicate HexDigests(c: Crypto) {
    forall s :: |c.sha256(s)| == 64
  }

  // A hex digest is 64 characters; the text of an object starts with a brace and determines the object.
  ghost predicate Standard(c: Crypto) {
    && HexDigests(c)
    && (forall p :: c.dumps(p) != "" && c.dumps(p)[0] == '{')
    && (forall p, q :: c.dumps(p) == c.dumps(q) ==> p == q)
  }

  // Redaction

  function LowerChar(c: char): char {
    if 'A' <= c <= 'Z' then c + 32 as char else c
  }

  function Lower(s: string): string {
    seq(|s|, i requires 0 <= i < |s| => LowerChar(s[i]))
  }

  const SENSITIVE_KEYS: set<string> := {"password", "secret", "token", "key", "credential", "auth"}
  const REDACTED: Json := Text("[REDACTED]")

  predicate Sensitive(field: string) {
    Lower(field) in SENSITIVE_KEYS
  }

  function Redact(payload: Payload): Payload {
    map field | field in payload :: if Sensitive(field) then REDACTED else payload[field]
  }

  // Construction of a record: the checks of its initialiser, then redaction.

  predicate HashText(s: string) {
    |s| == 71 && s[..7] == "sha256:"
  }

  function NewRecord(sequence: int, previousHash: string, eventType: string, actor: string,
                     timestamp: string, payload: Payload): (r: Option<Record>)
    ensures r.Some? <==> sequence > 0 && HashText(previousHash)
    ensures r.Some? ==> r.value.payload.Keys == payload.Keys
    ensures r.Some? ==> forall field :: field in payload ==>
      r.value.payload[field] == (if Sensitive(field) then REDACTED else payload[field])
  {
    if sequence > 0 && HashText(previousHash)
    then Some(Record(sequence, previousHash, eventType, actor, timestamp, Redact(payload)))
    else None
  }

  // Redacting again changes nothing, and payloads that differ only in sensitive fields become one.
  lemma {:induction false} RedactionForgets(p: Payload, q: Payload)
    ensures Redact(Redact(p)) == Redact(p)
    ensures Redact(p) == Redact(q) <==>
      p.Keys == q.Keys && forall field :: field in p && !Sensitive(field) ==> p[field] == q[field]
  {
    if Redact(p) == Redact(q) {
      assert Redact(p).Keys == p.Keys && Redact(q).Keys == q.Keys;
      forall field | field in p && !Sensitive(field)
        ensures p[field] == q[field]
      {
        assert Redact(p)[field] == p[field] && Redact(q)[field] == q[field];
      }
    }
  }

  // Hashing

  const GENESIS: string := "sha256:" + Zeros(64)

  function Material(c: Crypto, r: Record): string {
    IntText(r.sequence) + ":" + r.previousHash + ":" + r.eventType + ":" + r.actor + ":" +
    r.timestamp + ":" + c.dumps(r.payload)
  }

  function IntText(n: int): string {
    if n >= 0 then Digits(n) else "-" + Digits(-n)
  }

  function RecordHash(c: Crypto, r: Record): string {
    "sha256:" + c.sha256(Material(c, r))
  }

  // The chain

  datatype Chain = Chain(records: seq<Record>, hashes: seq<string>)

  const EMPTY_CHAIN: Chain := Chain([], [])

  function HeadHash(ch: Chain): string {
    if ch.hashes == [] then GENESIS else ch.hashes[|ch.hashes| - 1]
  }

  // A record is accepted exactly when it continues the chain.
  predicate Continues(ch: Chain, r: Record) {
    r.sequence == |ch.records| + 1 && r.previousHash == HeadHash(ch)
  }

  function Extend(c: Crypto, ch: Chain, r: Record): Chain {
    Chain(ch.records + [r], ch.hashes + [RecordHash(c, r)])
  }

  predicate VerifiedAt(c: Crypto, ch: Chain, i: nat)
    requires |ch.records| == |ch.hashes| && i < |ch.records|
  {
    && ch.records[i].sequence == i + 1
    && ch.records[i].previousHash == (if i > 0 then ch.hashes[i - 1] else GENESIS)
    && RecordHash(c, ch.records[i]) == ch.hashes[i]
  }

  predicate Verified(c: Crypto, ch: Chain) {
    && |ch.records| == |ch.hashes|
    && forall i :: 0 <= i < |ch.records| ==> VerifiedAt(c, ch, i)
  }

  lemma {:induction false} HeadIsHashText(c: Crypto, ch: Chain)
    requires HexDigests(c) && Verified(c, ch)
    ensures HashText(HeadHash(ch))
  {
    if ch.hashes != [] {
      var last := |ch.records| - 1;
      assert VerifiedAt(c, ch, last);
      assert RecordHash(c, ch.records[last])[..7] == "sha256:";
    } else {
      assert GENESIS[..7] == "sha256:";
    }
  }

  lemma {:induction false} ExtendVerifies(c: Crypto, ch: Chain, r: Record)
    requires |ch.records| == |ch.hashes|
    ensures Verified(c, Extend(c, ch, r)) <==> Verified(c, ch) && Continues(ch, r)
  {
    var longer := Extend(c, ch, r);
    if Verified(c, longer) {
      forall i | 0 <= i < |ch.records|
        ensures VerifiedAt(c, ch, i)
      {
        assert VerifiedAt(c, longer, i);
      }
      assert VerifiedAt(c, longer, |ch.records|);
    }
    if Verified(c, ch) && Continues(ch, r) {
      forall i | 0 <= i < |longer.records|
        ensures VerifiedAt(c, longer, i)
      {
        if i < |ch.records| {
          assert VerifiedAt(c, ch, i);
        }
      }
    }
  }

  // Offering records one after another: those that do not continue the chain are refused.
  function AppendAll(c: Crypto, ch: Chain, rs: seq<Record>): Chain
    decreases |rs|
  {
    if rs == [] then ch
    else AppendAll(c, if Continues(ch, rs[0]) then Extend(c, ch, rs[0]) else ch, rs[1..])
  }

  lemma {:induction false} AppendAllVerifies(c: Crypto, ch: Chain, rs: seq<Record>)
    requires Verified(c, ch)
    ensures Verified(c, AppendAll(c, ch, rs))
    ensures ch.records <= AppendAll(c, ch, rs).records
    decreases |rs|
  {
    if rs != [] {
      var next := if Continues(ch, rs[0]) then Extend(c, ch, rs[0]) else ch;
      ExtendVerifies(c, ch, rs[0]);
      AppendAllVerifies(c, next, rs[1..]);
    }
  }

  // Every chain built by append verifies.
  lemma {:induction false} EveryBuiltChainVerifies(c: Crypto, rs: seq<Record>)
    ensures Verified(c, AppendAll(c, EMPTY_CHAIN, rs))
  {
    AppendAllVerifies(c, EMPTY_CHAIN, rs);
  }

  // Unambiguity of the joined material

  // What the fields of a record look like: the joints are then visible in the joined text.
  predicate WellFormed(r: Record) {
    && r.sequence > 0
    && HashText(r.previousHash)
    && ':' !in r.eventType && ':' !in r.actor && '{' !in r.timestamp
  }

  lemma {:induction false} SplitAtColon(a: string, s: string, b: string, t: string)
    requires ':' !in a && ':' !in b
    requires a + ":" + s == b + ":" + t
    ensures a == b && s == t
  {
    var x, y := a + ":" + s, b + ":" + t;
    assert x[|a|] == ':' && y[|b|] == ':';
    assert |a| == |b|;
    assert a == x[..|a|] && b == y[..|b|];
    assert s == x[|a| + 1..] && t == y[|b| + 1..];
  }

  // A timestamp has colons of its own; the first brace marks where the payload starts.
  lemma {:induction false} SplitAtBrace(a: string, s: string, b: string, t: string)
    requires '{' !in a && '{' !in b
    requires s != "" && s[0] == '{' && t != "" && t[0] == '{'
    requires a + ":" + s == b + ":" + t
    ensures a == b && s == t
  {
    var x, y := a + ":" + s, b + ":" + t;
    assert x[|a| + 1] == '{' && y[|b| + 1] == '{';
    assert |a| == |b|;
    assert a == x[..|a|] && b == y[..|b|];
    assert s == x[|a| + 1..] && t == y[|b| + 1..];
  }

  // The material from the event type on, and from the previous hash on.
  function EventTail(c: Crypto, r: Record): string {
    r.eventType + ":" + (r.actor + ":" + (r.timestamp + ":" + c.dumps(r.payload)))
  }

  lemma {:induction false} MaterialNested(c: Crypto, r: Record)
    ensures Material(c, r) == IntText(r.sequence) + ":" + (r.previousHash + ":" + EventTail(c, r))
  {
  }

  lemma {:induction false} EventTailUnambiguous(c: Crypto, r: Record, s: Record)
    requires Standard(c) && WellFormed(r) && WellFormed(s)
    requires EventTail(c, r) == EventTail(c, s)
    ensures r.eventType == s.eventType && r.actor == s.actor && r.timestamp == s.timestamp && r.payload == s.payload
  {
    var x, y := c.dumps(r.payload), c.dumps(s.payload);
    SplitAtColon(r.eventType, r.actor + ":" + (r.timestamp + ":" + x), s.eventType, s.actor + ":" + (s.timestamp + ":" + y));
    SplitAtColon(r.actor, r.timestamp + ":" + x, s.actor, s.timestamp + ":" + y);
    SplitAtBrace(r.timestamp, x, s.timestamp, y);
  }

  lemma {:induction false} SplitAtLength(a: string, s: string, b: string, t: string)
    requires |a| == |b| && a + ":" + s == b + ":" + t
    ensures a == b && s == t
  {
    var x, y := a + ":" + s, b + ":" + t;
    assert a == x[..|a|] && b == y[..|b|];
    assert s == x[|a| + 1..] && t == y[|b| + 1..];
  }

  lemma {:induction false} MaterialUnambiguous(c: Crypto, r: Record, s: Record)
    requires Standard(c) && WellFormed(r) && WellFormed(s)
    requires Material(c, r) == Material(c, s)
    ensures r == s
  {
    MaterialNested(c, r);
    MaterialNested(c, s);
    SplitAtColon(Digits(r.sequence), r.previousHash + ":" + EventTail(c, r), Digits(s.sequence), s.previousHash + ":" + EventTail(c, s));
    NumberOfDigits(r.sequence);
    NumberOfDigits(s.sequence);
    SplitAtLength(r.previousHash, EventTail(c, r), s.previousHash, EventTail(c, s));
    EventTailUnambiguous(c, r, s);
  }

  // Tamper evidence

  predicate Collision(c: Crypto, a: string, b: string) {
    a != b && c.sha256(a) == c.sha256(b)
  }

  predicate Collide(c: Crypto, x: Chain, y: Chain) {
    exists i, j :: 0 <= i < |x.records| && 0 <= j < |y.records| &&
      Collision(c, Material(c, x.records[i]), Material(c, y.records[j]))
  }

  predicate AllWellFormed(ch: Chain) {
    forall i :: 0 <= i < |ch.records| ==> WellFormed(ch.records[i])
  }

  function Front(ch: Chain): Chain
    requires ch.records != [] && ch.hashes != []
  {
    Chain(ch.records[..|ch.records| - 1], ch.hashes[..|ch.hashes| - 1])
  }

  lemma {:induction false} FrontVerifies(c: Crypto, ch: Chain)
    requires Verified(c, ch) && ch.records != []
    ensures Verified(c, Front(ch))
    ensures HeadHash(Front(ch)) == ch.records[|ch.records| - 1].previousHash
  {
    var last := |ch.records| - 1;
    assert VerifiedAt(c, ch, last);
    forall i | 0 <= i < last
      ensures VerifiedAt(c, Front(ch), i)
    {
      assert VerifiedAt(c, ch, i);
    }
  }

  lemma {:induction false} SameHeadSameLast(c: Crypto, x: Chain, y: Chain)
    requires Standard(c)
    requires Verified(c, x) && Verified(c, y) && AllWellFormed(x) && AllWellFormed(y)
    requires x.records != [] && y.records != [] && HeadHash(x) == HeadHash(y)
    ensures var r, s := x.records[|x.records| - 1], y.records[|y.records| - 1];
      (r == s && |x.records| == |y.records|) || Collision(c, Material(c, r), Material(c, s))
  {
    var m, n := |x.records| - 1, |y.records| - 1;
    var r, s := x.records[m], y.records[n];
    assert VerifiedAt(c, x, m) && VerifiedAt(c, y, n);
    var p, q := Material(c, r), Material(c, s);
    assert c.sha256(p) == RecordHash(c, r)[7..] && c.sha256(q) == RecordHash(c, s)[7..];
    if p == q {
      MaterialUnambiguous(c, r, s);
    }
  }

  lemma {:induction false} CollideWiden(c: Crypto, x: Chain, y: Chain, x': Chain, y': Chain)
    requires Collide(c, x, y) && x.records <= x'.records && y.records <= y'.records
    ensures Collide(c, x', y')
  {
    var i, j :| 0 <= i < |x.records| && 0 <= j < |y.records| &&
      Collision(c, Material(c, x.records[i]), Material(c, y.records[j]));
    assert x'.records[i] == x.records[i] && y'.records[j] == y.records[j];
  }

  // Two verifying chains with one head hash hold the same records, unless SHA-256 collides on them.
  lemma {:induction false} SameHeadSameRecords(c: Crypto, x: Chain, y: Chain)
    requires Standard(c)
    requires Verified(c, x) && Verified(c, y) && AllWellFormed(x) && AllWellFormed(y)
    requires x.records != [] && y.records != [] && HeadHash(x) == HeadHash(y)
    ensures x.records == y.records || Collide(c, x, y)
    decreases |x.records|
  {
    var r, s := x.records[|x.records| - 1], y.records[|y.records| - 1];
    SameHeadSameLast(c, x, y);
    if r == s && |x.records| == |y.records| {
      FrontVerifies(c, x);
      FrontVerifies(c, y);
      assert x.records == Front(x).records + [r] && y.records == Front(y).records + [s];
      if |x.records| > 1 {
        SameHeadSameRecords(c, Front(x), Front(y));
        if Collide(c, Front(x), Front(y)) {
          CollideWiden(c, Front(x), Front(y), x, y);
        }
      }
    }
  }

  // The class

  datatype AppendResult = Appended(hash: string) | AppendFailed | BadSequence | BadPreviousHash

  class AuditChain {
    const crypto: Crypto
    var records: seq<Record>
    var hashes: seq<string>
    var failNextAppend: bool

    constructor (crypto: Crypto)
      ensures this.crypto == crypto && Model() == EMPTY_CHAIN && !failNextAppend && Valid()
    {
      this.crypto := crypto;
      records, hashes, failNextAppend := [], [], false;
    }

    function Model(): Chain
      reads this
    {
      Chain(records, hashes)
    }

    ghost predicate Valid()
      reads this
    {
      Verified(crypto, Model())
    }

    // An armed failure is consumed by the append it fails; otherwise exactly the records that
    // continue the chain are pushed, and the chain still verifies.
    method Append(record: Record) returns (r: AppendResult)
      requires Valid()
      modifies this
      ensures Valid() && !failNextAppend
      ensures r.AppendFailed? <==> old(failNextAppend)
      ensures r.Appended? <==> !old(failNextAppend) && Continues(old(Model()), record)
      ensures r.BadSequence? <==> !old(failNextAppend) && record.sequence != |old(records)| + 1
      ensures r.Appended? ==> Model() == Extend(crypto, old(Model()), record) && r.hash == HeadHash(Model())
      ensures !r.Appended? ==> Model() == old(Model())
    {
      if failNextAppend {
        failNextAppend := false;
        return AppendFailed;
      }
      if record.sequence != |records| + 1 {
        return BadSequence;
      }
      if record.previousHash != HeadHash(Model()) {
        return BadPreviousHash;
      }
      ExtendVerifies(crypto, Model(), record);
      var recordHash := RecordHash(crypto, record);
      records := records + [record];
      hashes := hashes + [recordHash];
      return Appended(recordHash);
    }

    method Verify() returns (ok: bool)
      requires |records| == |hashes|
      ensures ok <==> Verified(crypto, Model())
    {
      var i := 0;
      while i < |records|
        invariant 0 <= i <= |records|
        invariant forall j :: 0 <= j < i ==> VerifiedAt(crypto, Model(), j)
      {
        var expectedPrevious := if i > 0 then hashes[i - 1] else GENESIS;
        if records[i].sequence != i + 1 || records[i].previousHash != expectedPrevious
           || RecordHash(crypto, records[i]) != hashes[i] {
          assert !VerifiedAt(crypto, Model(), i);
          return false;
        }
        i := i + 1;
      }
      return true;
    }
  }
}
