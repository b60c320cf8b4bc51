// Opaque references to credential records: an HMAC over length-prefixed parts.
//
// The MAC is taken to be injective in key and material: a token is the pair.
module CredentialReferences {
  import opened Basics

  newtype byte = x: int | 0 <= x < 256

  type Bytes = seq<byte>

  const LENGTH_LIMIT: nat := 0x1_0000_0000
  const METHODS: set<string> := {"keypad_pin", "fingerprint", "ic_card", "fob"}

  datatype Token = Hmac(key: Bytes, material: Bytes)

  // ---- Text as UTF-8 ------------------------------------------------------

  function Tail(n: nat): byte {
    (0x80 + n % 0x40) as byte
  }

  function Utf8Char(c: char): Bytes {
    var n := c as int;
    if n < 0x80 then [n as byte]
    else if n < 0x800 then [(0xC0 + n / 0x40) as byte, Tail(n)]
    else if n < 0x1_0000 then [(0xE0 + n / 0x1000) as byte, Tail(n / 0x40), Tail(n)]
    else [(0xF0 + n / 0x4_0000) as byte, Tail(n / 0x1000), Tail(n / 0x40), Tail(n)]
  }

  function Utf8(s: string): Bytes {
    if s == "" then [] else Utf8Char(s[0]) + Utf8(s[1..])
  }

  // The scalar value at the head of encoded text.
  function FirstScalar(b: Bytes): int
    requires b != []
  {
    if b[0] < 0x80 then b[0] as int
    else if b[0] < 0xE0 && |b| >= 2 then (b[0] as int - 0xC0) * 0x40 + (b[1] as int - 0x80)
    else if b[0] < 0xF0 && |b| >= 3 then
      (b[0] as int - 0xE0) * 0x1000 + (b[1] as int - 0x80) * 0x40 + (b[2] as int - 0x80)
    else if |b| >= 4 then
      (b[0] as int - 0xF0) * 0x4_0000 + (b[1] as int - 0x80) * 0x1000
      + (b[2] as int - 0x80) * 0x40 + (b[3] as int - 0x80)
    else 0
  }

  lemma Digits(n: nat)
    ensures n == n / 0x40 * 0x40 + n % 0x40
    ensures n / 0x40 / 0x40 == n / 0x1000 && n / 0x1000 / 0x40 == n / 0x4_0000
  {
  }

  lemma ShortScalar(c: char, rest: Bytes)
    requires c as int < 0x800
    ensures FirstScalar(Utf8Char(c) + rest) == c as int
  {
  }

  lemma LongScalar(c: char, rest: Bytes)
    requires 0x800 <= c as int < 0x1_0000
    ensures FirstScalar(Utf8Char(c) + rest) == c as int
  {
    var n := c as int;
    var b := Utf8Char(c) + rest;
    Digits(n);
    Digits(n / 0x40);
    assert b[0] as int == 0xE0 + n / 0x1000;
    assert b[1] as int == 0x80 + n / 0x40 % 0x40 && b[2] as int == 0x80 + n % 0x40;
  }

  lemma WideScalar(c: char, rest: Bytes)
    requires 0x1_0000 <= c as int
    ensures FirstScalar(Utf8Char(c) + rest) == c as int
  {
    var n := c as int;
    var b := Utf8Char(c) + rest;
    Digits(n);
    Digits(n / 0x40);
    Digits(n / 0x1000);
    assert b[0] as int == 0xF0 + n / 0x4_0000;
    assert b[1] as int == 0x80 + n / 0x1000 % 0x40;
    assert b[2] as int == 0x80 + n / 0x40 % 0x40 && b[3] as int == 0x80 + n % 0x40;
  }

  lemma FirstScalarOf(c: char, rest: Bytes)
    ensures FirstScalar(Utf8Char(c) + rest) == c as int
  {
    hide FirstScalar, Utf8Char;
    if c as int < 0x800 {
      ShortScalar(c, rest);
    } else if c as int < 0x1_0000 {
      LongScalar(c, rest);
    } else {
      WideScalar(c, rest);
    }
  }

  lemma {:induction false} Utf8Injective(s: string, t: string)
    requires Utf8(s) == Utf8(t)
    ensures s == t
    decreases |s|
  {
    if s == "" || t == "" {
    } else {
      FirstScalarOf(s[0], Utf8(s[1..]));
      FirstScalarOf(t[0], Utf8(t[1..]));
      var n := |Utf8Char(s[0])|;
      assert Utf8(s)[n..] == Utf8(s[1..]) && Utf8(t)[n..] == Utf8(t[1..]);
      Utf8Injective(s[1..], t[1..]);
      assert s == [s[0]] + s[1..] && t == [t[0]] + t[1..];
    }
  }

  // ---- Length-prefixed material -------------------------------------------

  function BigEndian(n: nat): Bytes
    requires n < LENGTH_LIMIT
  {
    [(n / 0x100_0000) as byte, (n / 0x1_0000 % 0x100) as byte, (n / 0x100 % 0x100) as byte, (n % 0x100) as byte]
  }

  function Length(b: Bytes): nat
    requires |b| >= 4
  {
    b[0] as nat * 0x100_0000 + b[1] as nat * 0x1_0000 + b[2] as nat * 0x100 + b[3] as nat
  }

  lemma LengthOf(n: nat, rest: Bytes)
    requires n < LENGTH_LIMIT
    ensures Length(BigEndian(n) + rest) == n
  {
  }

  ghost predicate Encodable(parts: seq<Bytes>) {
    forall i :: 0 <= i < |parts| ==> |parts[i]| < LENGTH_LIMIT
  }

  function Material(parts: seq<Bytes>): Bytes
    requires Encodable(parts)
  {
    if parts == [] then []
    else BigEndian(|parts[0]|) + parts[0] + Material(parts[1..])
  }

  function Parts(material: Bytes): Option<seq<Bytes>>
    decreases |material|
  {
    if material == [] then Some([])
    else if |material| < 4 || |material| < 4 + Length(material) then None
    else
      var n := 4 + Length(material);
      var rest := Parts(material[n..]);
      if rest.None? then None else Some([material[4..n]] + rest.value)
  }

  // Any list of parts is recovered from its material.
  lemma {:induction false} MaterialDecodes(parts: seq<Bytes>)
    requires Encodable(parts)
    ensures Parts(Material(parts)) == Some(parts)
  {
    if parts != [] {
      var rest := Material(parts[1..]);
      var n := |parts[0]|;
      assert Material(parts) == BigEndian(n) + (parts[0] + rest);
      LengthOf(n, parts[0] + rest);
      assert Material(parts)[4..4 + n] == parts[0] && Material(parts)[4 + n..] == rest;
      MaterialDecodes(parts[1..]);
      assert parts == [parts[0]] + parts[1..];
    }
  }

  function RecordParts(lock: string, method_: string, epoch: string, identifier: Bytes): seq<Bytes> {
    [Utf8(lock), Utf8(method_), Utf8(epoch), identifier]
  }

  predicate Derivable(key: Option<Bytes>, lock: string, method_: string, epoch: string, identifier: Bytes) {
    && key.Some? && method_ in METHODS && epoch != "" && identifier != []
    && |Utf8(lock)| < LENGTH_LIMIT && |Utf8(method_)| < LENGTH_LIMIT
    && |Utf8(epoch)| < LENGTH_LIMIT && |identifier| < LENGTH_LIMIT
  }

  // The handle of one record, or None for the inputs the source rejects.
  function FromVerifiedRecord(key: Option<Bytes>, lock: string, method_: string, epoch: string, identifier: Bytes)
    : (token: Option<Token>)
    ensures token.Some? <==> Derivable(key, lock, method_, epoch, identifier)
  {
    if Derivable(key, lock, method_, epoch, identifier) then
      Some(Hmac(key.value, Material(RecordParts(lock, method_, epoch, identifier))))
    else None
  }

  // A handle is derived exactly for a known method, a key, an epoch and an
  // identifier, of parts that fit their length prefix; and what was hashed is
  // those parts, in this order.
  lemma HandleDecodes(key: Option<Bytes>, lock: string, method_: string, epoch: string, identifier: Bytes)
    ensures var token := FromVerifiedRecord(key, lock, method_, epoch, identifier);
            && (token.Some? <==>
                  && key.Some? && epoch != "" && identifier != []
                  && (method_ == "keypad_pin" || method_ == "fingerprint" || method_ == "ic_card" || method_ == "fob")
                  && |Utf8(lock)| < 0x1_0000_0000 && |Utf8(epoch)| < 0x1_0000_0000 && |identifier| < 0x1_0000_0000)
            && (token.Some? ==>
                  && Some(token.value.key) == key
                  && Parts(token.value.material) == Some([Utf8(lock), Utf8(method_), Utf8(epoch), identifier]))
  {
    if Derivable(key, lock, method_, epoch, identifier) {
      MaterialDecodes(RecordParts(lock, method_, epoch, identifier));
    } else if method_ in METHODS {
      Utf8Short(method_);
    }
  }

  lemma {:induction false} Utf8Short(s: string)
    ensures |Utf8(s)| <= 4 * |s|
  {
    if s != "" {
      Utf8Short(s[1..]);
    }
  }

  // Under one key two records share a handle exactly when all inputs agree.
  lemma HandleIdentifies(
    key: Option<Bytes>,
    lock: string, method_: string, epoch: string, identifier: Bytes,
    lock': string, method': string, epoch': string, identifier': Bytes)
    requires Derivable(key, lock, method_, epoch, identifier)
    requires Derivable(key, lock', method', epoch', identifier')
    ensures FromVerifiedRecord(key, lock, method_, epoch, identifier)
            == FromVerifiedRecord(key, lock', method', epoch', identifier')
            <==> lock == lock' && method_ == method' && epoch == epoch' && identifier == identifier'
  {
    var parts := RecordParts(lock, method_, epoch, identifier);
    var parts' := RecordParts(lock', method', epoch', identifier');
    if Material(parts) == Material(parts') {
      MaterialDecodes(parts);
      MaterialDecodes(parts');
      assert parts[0] == parts'[0] && parts[1] == parts'[1] && parts[2] == parts'[2] && parts[3] == parts'[3];
      Utf8Injective(lock, lock');
      Utf8Injective(method_, method');
      Utf8Injective(epoch, epoch');
    }
  }

  // ---- Joined text --------------------------------------------------------

  lemma FirstSlashSplits(a: string, b: string, a': string, b': string)
    requires '/' !in a && '/' !in a'
    requires a + "/" + b == a' + "/" + b'
    ensures a == a' && b == b'
  {
    var s := a + "/" + b;
    assert s[|a|] == '/' && s[|a'|] == '/';
    assert forall k :: 0 <= k < |a| ==> s[k] == a[k];
    assert forall k :: 0 <= k < |a'| ==> s[k] == a'[k];
    assert |a| == |a'|;
    assert a == s[..|a|] && b == s[|a| + 1..] && b' == s[|a'| + 1..];
  }

  lemma LastSlashSplits(a: string, b: string, a': string, b': string)
    requires '/' !in b && '/' !in b'
    requires a + "/" + b == a' + "/" + b'
    ensures a == a' && b == b'
  {
    var s := a + "/" + b;
    assert s[|a|] == '/' && s[|a'|] == '/';
    assert forall k :: |a| < k < |s| ==> s[k] == b[k - |a| - 1];
    assert forall k :: |a'| < k < |s| ==> s[k] == b'[k - |a'| - 1];
    assert |a| == |a'|;
    assert a == s[..|a|] && b == s[|a| + 1..] && b' == s[|a'| + 1..];
  }
}
