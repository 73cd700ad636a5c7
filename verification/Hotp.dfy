/** The HOTP trusted application (hotp/ta/hotp_ta.c): a shared key, an eight-byte
    big-endian moving factor, and one-time codes truncated as section 5.3 of RFC 4226
    prescribes. */
module Hotp {
  import opened Bits
  import opened Common

  // The TEE crypto service is a parameter: HMAC-SHA1 is an arbitrary function into twenty
  // bytes, and each request carries the outcome of the TEE calls together with the bytes an
  // unsuccessful computation leaves in the caller's buffer.

  type Digest = d: seq<byte> | |d| == 20 witness seq(20, _ => 0)

  const MAX_KEY_SIZE := 64
  const MIN_KEY_SIZE := 10
  const COUNTER_SIZE := 8
  const DBC2_MODULO := 1000000
  const COUNTER_PERIOD := 0x1_0000_0000_0000_0000

  datatype TeeResult = Success | BadParameters | TeeFailure

  /** What the TEE does during one MAC computation: `result` is the first failing call's
      code, and `garbage` is what the uninitialised buffer holds if nothing is written. */
  datatype Crypto = Crypto(result: TeeResult, garbage: Digest)

  /** The value of a byte string read most significant byte first. */
  ghost function BigEndian(s: seq<byte>): nat {
    if s == [] then 0 else 256 * BigEndian(s[..|s| - 1]) + s[|s| - 1]
  }

  function Pow256(n: nat): nat {
    if n == 0 then 1 else 256 * Pow256(n - 1)
  }

  /** Section 5.3 of RFC 4226: the last 31 bits of the four bytes that start at the
      offset named by the low nibble of the last byte, reduced to six digits. */
  ghost function RfcCode(mac: Digest): nat {
    var offset := mac[19] % 16;
    BigEndian(mac[offset..offset + 4]) % 0x8000_0000 % DBC2_MODULO
  }

  lemma {:induction false} BigEndianBound(s: seq<byte>)
    ensures BigEndian(s) < Pow256(|s|)
  {
    if s != [] {
      BigEndianBound(s[..|s| - 1]);
    }
  }

  /** Splitting a big-endian number: the high part is scaled by the width of the low one. */
  lemma {:induction false} BigEndianAppend(hi: seq<byte>, lo: seq<byte>)
    ensures BigEndian(hi + lo) == BigEndian(hi) * Pow256(|lo|) + BigEndian(lo)
  {
    if lo == [] {
      assert hi + lo == hi;
    } else {
      var init := lo[..|lo| - 1];
      assert (hi + lo)[..|hi + lo| - 1] == hi + init;
      BigEndianAppend(hi, init);
      Rescale(BigEndian(hi), Pow256(|init|));
      assert BigEndian(hi + lo) == 256 * BigEndian(hi + init) + lo[|lo| - 1];
    }
  }

  lemma Rescale(a: nat, p: nat)
    ensures a * (256 * p) == 256 * (a * p)
  {
  }

  /** A counter all of whose bytes after `i` have just rolled over, and whose byte `i`
      has been bumped without rolling over, is the old counter plus one. */
  lemma {:induction false} CarryStops(hi: seq<byte>, b: byte, bumped: byte, ones: seq<byte>, zeros: seq<byte>)
    requires var before: int := b; bumped == before + 1
    requires |ones| == |zeros|
    requires forall k :: 0 <= k < |ones| ==> ones[k] == 255 && zeros[k] == 0
    ensures BigEndian(hi + [bumped] + zeros) == BigEndian(hi + [b] + ones) + 1
  {
    RolledOver(ones, zeros);
    BigEndianAppend(hi + [b], ones);
    BigEndianAppend(hi + [bumped], zeros);
    LastByte(hi, b);
    LastByte(hi, bumped);
    Distribute(BigEndian(hi + [b]), Pow256(|ones|));
  }

  /** The two ways the carry loop of an eight-byte counter ends. */
  lemma Carried(before: seq<byte>, after: seq<byte>, i: int)
    requires |before| == |after| == COUNTER_SIZE && -1 <= i < COUNTER_SIZE
    requires i >= 0 ==> before[..i] == after[..i]
    requires i >= 0 ==> var b: int := before[i]; after[i] == b + 1
    requires forall k :: i < k < COUNTER_SIZE ==> before[k] == 255 && after[k] == 0
    ensures BigEndian(after) == (BigEndian(before) + 1) % COUNTER_PERIOD
  {
    CounterWidth(before);
    CounterWidth(after);
    if i < 0 {
      RolledOver(before, after);
    } else {
      assert before == before[..i] + [before[i]] + before[i + 1..];
      assert after == before[..i] + [after[i]] + after[i + 1..];
      CarryStops(before[..i], before[i], after[i], before[i + 1..], after[i + 1..]);
    }
  }

  lemma CounterWidth(s: seq<byte>)
    requires |s| == COUNTER_SIZE
    ensures Pow256(|s|) == COUNTER_PERIOD && BigEndian(s) < COUNTER_PERIOD
  {
    assert Pow256(4) == 0x1_0000_0000;
    BigEndianBound(s);
  }

  lemma LastByte(hi: seq<byte>, b: byte)
    ensures BigEndian(hi + [b]) == 256 * BigEndian(hi) + b
  {
    assert (hi + [b])[..|hi + [b]| - 1] == hi;
  }

  lemma Distribute(a: nat, p: nat)
    ensures (a + 1) * p == a * p + p
  {
  }

  lemma {:induction false} RolledOver(ones: seq<byte>, zeros: seq<byte>)
    requires |ones| == |zeros|
    requires forall k :: 0 <= k < |ones| ==> ones[k] == 255 && zeros[k] == 0
    ensures BigEndian(zeros) == 0 && BigEndian(ones) + 1 == Pow256(|ones|)
  {
    if ones != [] {
      RolledOver(ones[..|ones| - 1], zeros[..|zeros| - 1]);
    }
  }

  /** The four bytes as hotp_ta.c puts them together. */
  function Joined(x0: nat, x1: nat, x2: nat, x3: nat): nat {
    Or(Or(Or(Shl(x0, 24), Shl(x1, 16)), Shl(x2, 8)), x3)
  }

  function Packed(b0: byte, b1: byte, b2: byte, b3: byte): nat {
    Joined(And(b0, 0x7f), And(b1, 0xff), And(b2, 0xff), And(b3, 0xff))
  }

  /** That is the 31-bit big-endian word of the RFC. */
  lemma DynamicTruncation(b0: byte, b1: byte, b2: byte, b3: byte)
    ensures Packed(b0, b1, b2, b3) == BigEndian([b0, b1, b2, b3]) % 0x8000_0000
  {
    PackedSum(b0, b1, b2, b3);
    WordSum(b0, b1, b2, b3);
  }

  lemma PackedSum(b0: byte, b1: byte, b2: byte, b3: byte)
    ensures Packed(b0, b1, b2, b3) == (b0 % 0x80) * 0x100_0000 + b1 * 0x1_0000 + b2 * 0x100 + b3
  {
    LowBits(b0);
    WholeByte(b1);
    WholeByte(b2);
    WholeByte(b3);
    JoinedSum(b0 % 0x80, b1, b2, b3);
  }

  lemma PowersOfTwo()
    ensures Pow2(4) == 0x10 && Pow2(7) == 0x80 && Pow2(8) == 0x100 && Pow2(16) == 0x1_0000 && Pow2(24) == 0x100_0000
  {
    assert Pow2(12) == 0x1000;
    assert Pow2(20) == 0x10_0000;
  }

  lemma LowBits(b: byte)
    ensures And(b, 0xf) == b % 0x10
    ensures And(b, 0x7f) == b % 0x80
  {
    PowersOfTwo();
    AndMask(b, 4, 0xf);
    AndMask(b, 7, 0x7f);
  }

  lemma WholeByte(b: byte)
    ensures And(b, 0xff) == b
  {
    PowersOfTwo();
    AndAll(b, 8, 0xff);
  }

  lemma JoinedSum(x0: nat, x1: nat, x2: nat, x3: nat)
    requires x0 < 0x80 && x1 < 0x100 && x2 < 0x100 && x3 < 0x100
    ensures Joined(x0, x1, x2, x3)
         == x0 * 0x100_0000 + x1 * 0x1_0000 + x2 * 0x100 + x3
  {
    PowersOfTwo();
    ShlIsProduct(x0, 24);
    ShlIsProduct(x1, 16);
    ShlIsProduct(x2, 8);
    OrDisjoint(x0, Shl(x1, 16), 24);
    ShlIsProduct(0x100 * x0 + x1, 16);
    OrDisjoint(0x100 * x0 + x1, Shl(x2, 8), 16);
    ShlIsProduct(0x1_0000 * x0 + 0x100 * x1 + x2, 8);
    OrDisjoint(0x1_0000 * x0 + 0x100 * x1 + x2, x3, 8);
  }

  lemma WordSum(b0: byte, b1: byte, b2: byte, b3: byte)
    ensures BigEndian([b0, b1, b2, b3]) % 0x8000_0000
         == (b0 % 0x80) * 0x100_0000 + b1 * 0x1_0000 + b2 * 0x100 + b3
  {
    assert [b0, b1, b2, b3][..3] == [b0, b1, b2];
    assert [b0, b1, b2][..2] == [b0, b1];
    assert [b0, b1][..1] == [b0];
    assert [b0][..0] == [];
    assert BigEndian([b0]) == b0;
    assert BigEndian([b0, b1]) == 256 * b0 + b1;
    assert BigEndian([b0, b1, b2]) == 256 * (256 * b0 + b1) + b2;
    assert b0 == b0 / 0x80 * 0x80 + b0 % 0x80;
  }

  method Truncate(mac: Digest) returns (code: nat)
    ensures code == RfcCode(mac)
    ensures code < DBC2_MODULO
  {
    var offset := And(mac[19], 0xf);
    LowBits(mac[19]);
    // Every index read lies in 0..18: the nibble is at most 15.
    assert 0 <= offset && offset + 3 <= 18;
    code := Packed(mac[offset], mac[offset + 1], mac[offset + 2], mac[offset + 3]);
    DynamicTruncation(mac[offset], mac[offset + 1], mac[offset + 2], mac[offset + 3]);
    assert mac[offset..offset + 4] == [mac[offset], mac[offset + 1], mac[offset + 2], mac[offset + 3]];
    code := code % DBC2_MODULO;
  }

  /** One invocation of the trusted application; `wellTyped` says whether the parameter
      types are the ones the command expects. */
  datatype Command =
    | RegisterSharedKey(wellTyped: bool, key: seq<byte>)
    | GetHotp(wellTyped: bool, crypto: Crypto)
    | Unknown

  datatype Reply = Reply(result: TeeResult, code: nat)

  /** Whether a command moves the counter. */
  predicate Moves(c: Command) {
    c.GetHotp? && c.wellTyped
  }

  /** How many commands in a run move the counter. */
  function WellTypedGets(run: seq<Command>): nat {
    if run == [] then 0
    else WellTypedGets(run[..|run| - 1]) + (if Moves(run[|run| - 1]) then 1 else 0)
  }

  /** The key a run leaves installed, starting from none. */
  function InstalledKey(run: seq<Command>): seq<byte> {
    if run == [] then []
    else
      var last := run[|run| - 1];
      if Installs(last) then last.key else InstalledKey(run[..|run| - 1])
  }

  predicate Installs(c: Command) {
    c.RegisterSharedKey? && c.wellTyped && |c.key| <= MAX_KEY_SIZE
  }

  class Session {
    /** HMAC-SHA1 of a key and a message. */
    const hmac: (seq<byte>, seq<byte>) -> Digest
    const K: array<byte>
    const counter: array<byte>
    var K_len: nat

    ghost predicate Valid()
      reads this, K, counter
    {
      && K.Length == MAX_KEY_SIZE
      && counter.Length == COUNTER_SIZE
      && K != counter
      && K_len <= MAX_KEY_SIZE
    }

    ghost function Moving(): nat
      reads this, counter
    {
      BigEndian(counter[..])
    }

    ghost function Key(): seq<byte>
      reads this, K
      requires K_len <= K.Length
    {
      K[..K_len]
    }

    /** The session state is allocated zero-filled. */
    constructor (hmac: (seq<byte>, seq<byte>) -> Digest)
      ensures Valid() && fresh(K) && fresh(counter)
      ensures Key() == [] && Moving() == 0
      ensures this.hmac == hmac
    {
      this.hmac := hmac;
      K := new byte[MAX_KEY_SIZE](_ => 0);
      counter := new byte[COUNTER_SIZE](_ => 0);
      K_len := 0;
      new;
      ZeroCounter(counter[..]);
    }

    method RegisterKey(wellTyped: bool, key: seq<byte>) returns (result: TeeResult)
      requires Valid()
      modifies this`K_len, K
      ensures Valid() && Moving() == old(Moving())
      ensures result == if wellTyped && |key| <= MAX_KEY_SIZE then Success else BadParameters
      ensures Key() == if result == Success then key else old(Key())
    {
      if !wellTyped || |key| > MAX_KEY_SIZE {
        return BadParameters;
      }
      forall i | 0 <= i < MAX_KEY_SIZE {
        K[i] := 0;
      }
      forall i | 0 <= i < |key| {
        K[i] := key[i];
      }
      K_len := |key|;
      assert counter[..] == old(counter[..]) && K[..|key|] == key;
      return Success;
    }

    /** The MAC wrapper: the key-length check comes first, and any failure leaves the
        output buffer as it was. */
    method HmacSha1(crypto: Crypto) returns (result: TeeResult, mac: Digest)
      requires Valid()
      ensures result == if MIN_KEY_SIZE <= K_len then crypto.result else BadParameters
      ensures mac == if result == Success then hmac(Key(), counter[..]) else crypto.garbage
    {
      if K_len < MIN_KEY_SIZE || K_len > MAX_KEY_SIZE {
        return BadParameters, crypto.garbage;
      }
      if crypto.result != Success {
        return crypto.result, crypto.garbage;
      }
      return Success, hmac(K[..K_len], counter[..]);
    }

    /** The carry loop: big-endian increment modulo 2^64. */
    method IncrementCounter()
      requires Valid()
      modifies counter
      ensures Valid() && Key() == old(Key())
      ensures Moving() == (old(Moving()) + 1) % COUNTER_PERIOD
    {
      ghost var before := counter[..];
      var i := COUNTER_SIZE - 1;
      while i >= 0
        invariant -1 <= i < COUNTER_SIZE
        invariant forall k :: 0 <= k <= i ==> counter[k] == before[k]
        invariant forall k :: i < k < COUNTER_SIZE ==> before[k] == 255 && counter[k] == 0
      {
        var b: int := counter[i];
        counter[i] := (b + 1) % 256;
        if counter[i] != 0 {
          Carried(before, counter[..], i);
          return;
        }
        i := i - 1;
      }
      Carried(before, counter[..], -1);
    }

    /** The counter moves on every well-typed request, even when the MAC fails, and the
        code of a successful one is computed from the counter before the move. */
    method GetCode(wellTyped: bool, crypto: Crypto) returns (reply: Reply)
      requires Valid()
      modifies counter
      ensures Valid() && Key() == old(Key())
      ensures !wellTyped ==> reply.result == BadParameters && counter[..] == old(counter[..])
      ensures wellTyped ==> Moving() == (old(Moving()) + 1) % COUNTER_PERIOD
      ensures wellTyped ==> reply.result == if MIN_KEY_SIZE <= K_len then crypto.result else BadParameters
      ensures reply.result == Success ==> reply.code == RfcCode(hmac(Key(), old(counter[..])))
      ensures reply.code < DBC2_MODULO
    {
      if !wellTyped {
        return Reply(BadParameters, 0);
      }
      var result, mac := HmacSha1(crypto);
      IncrementCounter();
      var code := Truncate(mac);
      return Reply(result, code);
    }

    /** The command dispatcher. */
    method InvokeCommand(c: Command) returns (reply: Reply)
      requires Valid()
      modifies this`K_len, K, counter
      ensures Valid()
      ensures Moving() == if Moves(c) then (old(Moving()) + 1) % COUNTER_PERIOD else old(Moving())
      ensures Key() == if Installs(c) then c.key else old(Key())
      ensures c.GetHotp? && reply.result == Success ==>
                reply.code == CodeAt(hmac, old(Key()), old(Moving()))
      ensures c.Unknown? ==> reply.result == BadParameters
    {
      match c
      case RegisterSharedKey(wellTyped, key) =>
        var result := RegisterKey(wellTyped, key);
        reply := Reply(result, 0);
      case GetHotp(wellTyped, crypto) =>
        EncodingIsUnique(counter[..]);
        reply := GetCode(wellTyped, crypto);
      case Unknown =>
        reply := Reply(BadParameters, 0);
    }

    /** Any run of commands, key re-registration included, on a fresh session: the counter
        is the number of well-typed requests modulo 2^64, and every successful reply is
        the RFC code of the key then installed at the counter then reached. */
    method Run(run: seq<Command>) returns (replies: seq<Reply>)
      requires Valid() && Key() == [] && Moving() == 0
      modifies this`K_len, K, counter
      ensures Valid() && |replies| == |run|
      ensures Moving() == WellTypedGets(run) % COUNTER_PERIOD
      ensures Key() == InstalledKey(run)
      ensures RepliesCorrect(hmac, run, replies)
    {
      replies := [];
      for n := 0 to |run|
        invariant Valid() && |replies| == n
        invariant Moving() == WellTypedGets(run[..n]) % COUNTER_PERIOD
        invariant Key() == InstalledKey(run[..n])
        invariant RepliesCorrect(hmac, run[..n], replies)
      {
        NextCommand(run, n);
        var reply := InvokeCommand(run[n]);
        OneMoreReply(hmac, run[..n], replies, run[n], reply);
        assert run[..n + 1] == run[..n] + [run[n]];
        replies := replies + [reply];
      }
      assert run[..|run|] == run;
    }
  }

  lemma NextCommand(run: seq<Command>, n: nat)
    requires n < |run|
    ensures InstalledKey(run[..n + 1]) == if Installs(run[n]) then run[n].key else InstalledKey(run[..n])
    ensures WellTypedGets(run[..n + 1]) % COUNTER_PERIOD
            == (WellTypedGets(run[..n]) % COUNTER_PERIOD + if Moves(run[n]) then 1 else 0) % COUNTER_PERIOD
  {
    assert run[..n + 1][..n] == run[..n];
  }

  /** The eight-byte big-endian encoding of a counter value. */
  ghost function Encode(n: nat, width: nat): (s: seq<byte>)
    ensures |s| == width
  {
    if width == 0 then [] else Encode(n / 256, width - 1) + [n % 256]
  }

  ghost function CodeAt(hmac: (seq<byte>, seq<byte>) -> Digest, key: seq<byte>, count: nat): nat {
    RfcCode(hmac(key, Encode(count, COUNTER_SIZE)))
  }

  /** The code due after a run on a fresh session. */
  ghost function CodeAfter(hmac: (seq<byte>, seq<byte>) -> Digest, run: seq<Command>): nat {
    CodeAt(hmac, InstalledKey(run), WellTypedGets(run) % COUNTER_PERIOD)
  }

  /** Every successful code request in a run was answered with the code due at that point. */
  ghost predicate RepliesCorrect(hmac: (seq<byte>, seq<byte>) -> Digest, run: seq<Command>, replies: seq<Reply>) {
    && |replies| == |run|
    && forall k :: 0 <= k < |run| && run[k].GetHotp? && replies[k].result == Success ==>
         replies[k].code == CodeAfter(hmac, run[..k])
  }

  lemma {:induction false} OneMoreReply(hmac: (seq<byte>, seq<byte>) -> Digest, run: seq<Command>, replies: seq<Reply>,
                     c: Command, reply: Reply)
    requires RepliesCorrect(hmac, run, replies)
    requires c.GetHotp? && reply.result == Success ==> reply.code == CodeAfter(hmac, run)
    ensures RepliesCorrect(hmac, run + [c], replies + [reply])
    ensures WellTypedGets(run + [c]) == WellTypedGets(run) + (if Moves(c) then 1 else 0)
    ensures InstalledKey(run + [c]) == if Installs(c) then c.key else InstalledKey(run)
  {
    var longer := run + [c];
    assert longer[..|longer| - 1] == run;
    assert forall k :: 0 <= k <= |run| ==> longer[..k] == run[..k];
    assert run[..|run|] == run;
  }

  lemma {:induction false} EncodingIsUnique(s: seq<byte>)
    ensures Encode(BigEndian(s), |s|) == s
  {
    if s != [] {
      EncodingIsUnique(s[..|s| - 1]);
      assert BigEndian(s) / 256 == BigEndian(s[..|s| - 1]);
      assert s == s[..|s| - 1] + [s[|s| - 1]];
    }
  }

  lemma {:induction false} ZeroCounter(s: seq<byte>)
    requires forall k :: 0 <= k < |s| ==> s[k] == 0
    ensures BigEndian(s) == 0
  {
    if s != [] {
      ZeroCounter(s[..|s| - 1]);
    }
  }
}
