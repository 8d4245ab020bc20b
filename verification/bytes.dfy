/** Framing primitives of the canonical stream and the readers that undo them: big-endian integers, UTF-8 text (section 3 of
    RFC 3629), length prefixes and counted lists. Every reader takes what it needs from the left and hands back the rest. */
module Bytes {
  import opened Wrappers

  type Byte = x: int | 0 <= x < 256
  type bytes = seq<Byte>

  // ---- big-endian integers -------------------------------------------------------------------------------------

  function Pow256(k: nat): nat {
    if k == 0 then 1 else 256 * Pow256(k - 1)
  }

  /** k bytes, most significant first; higher digits of n are dropped. */
  function BigEndian(k: nat, n: nat): (b: bytes)
    ensures |b| == k
  {
    if k == 0 then [] else BigEndian(k - 1, n / 256) + [n % 256]
  }

  function Unsigned(b: bytes): nat {
    if |b| == 0 then 0 else 256 * Unsigned(b[..|b| - 1]) + b[|b| - 1]
  }

  lemma {:induction false} UnsignedReads(k: nat, n: nat)
    requires n < Pow256(k)
    ensures Unsigned(BigEndian(k, n)) == n
  {
    if k > 0 {
      UnsignedReads(k - 1, n / 256);
      assert BigEndian(k, n)[..k - 1] == BigEndian(k - 1, n / 256);
    }
  }

  /** The value of digits whose first is the most significant. */
  function Positional(b: bytes): nat {
    if |b| == 0 then 0 else b[0] * Pow256(|b| - 1) + Positional(b[1..])
  }

  /** The number is the sum of its bytes, the first of k weighing 256 to the k - 1: the most significant comes first. */
  lemma BigEndianMeans(k: nat, n: nat)
    requires n < Pow256(k)
    ensures Positional(BigEndian(k, n)) == n
  {
    UnsignedReads(k, n);
    PositionalIsUnsigned(BigEndian(k, n));
  }

  lemma {:induction false} PositionalIsUnsigned(b: bytes)
    ensures Positional(b) == Unsigned(b)
  {
    if |b| > 0 {
      PositionalSnoc(b[..|b| - 1], b[|b| - 1]);
      PositionalIsUnsigned(b[..|b| - 1]);
      assert b == b[..|b| - 1] + [b[|b| - 1]];
    }
  }

  lemma {:induction false} PositionalSnoc(b: bytes, last: Byte)
    ensures Positional(b + [last]) == 256 * Positional(b) + last
  {
    if |b| == 0 {
      assert Pow256(0) == 1 && (b + [last])[1..] == [];
    } else {
      PositionalSnoc(b[1..], last);
      assert (b + [last])[1..] == b[1..] + [last];
      assert b[0] * (256 * Pow256(|b| - 1)) == 256 * (b[0] * Pow256(|b| - 1));
    }
  }

  /** Two's complement in k bytes. */
  function Signed(k: nat, v: int): bytes {
    BigEndian(k, if v < 0 && v + Pow256(k) >= 0 then v + Pow256(k) else if v < 0 then 0 else v)
  }

  function SignedOf(b: bytes): int {
    var u := Unsigned(b);
    if 2 * u >= Pow256(|b|) then u - Pow256(|b|) else u
  }

  lemma SignedReads(k: nat, v: int)
    requires k > 0 && -(Pow256(k) as int) <= 2 * v < Pow256(k)
    ensures SignedOf(Signed(k, v)) == v
  {
    UnsignedReads(k, if v < 0 then v + Pow256(k) else v);
  }

  const MAX_LENGTH: nat := 0xFFFF_FFFF

  function U16(n: nat): bytes {
    BigEndian(2, n)
  }

  function U32(n: nat): bytes {
    BigEndian(4, n)
  }

  function U64(n: nat): bytes {
    BigEndian(8, n)
  }

  function Flag(b: bool): bytes {
    [if b then 1 else 0]
  }

  function Take(k: nat, b: bytes): (r: Option<(bytes, bytes)>)
    ensures r.Some? ==> |r.value.0| == k && r.value.0 + r.value.1 == b
  {
    if |b| < k then None else Some((b[..k], b[k..]))
  }

  lemma TakeReads(a: bytes, rest: bytes)
    ensures Take(|a|, a + rest) == Some((a, rest))
  {
  }

  function GetUnsigned(k: nat, b: bytes): Option<(nat, bytes)> {
    var (digits, rest) :- Take(k, b);
    Some((Unsigned(digits), rest))
  }

  function GetFlag(b: bytes): Option<(bool, bytes)> {
    if |b| == 0 || b[0] > 1 then None else Some((b[0] == 1, b[1..]))
  }

  function GetByte(b: bytes): Option<(Byte, bytes)> {
    if |b| == 0 then None else Some((b[0], b[1..]))
  }

  lemma UnsignedFits(k: nat, n: nat, rest: bytes)
    requires n < Pow256(k)
    ensures GetUnsigned(k, BigEndian(k, n) + rest) == Some((n, rest))
  {
    UnsignedReads(k, n);
    TakeReads(BigEndian(k, n), rest);
  }

  lemma Powers()
    ensures Pow256(2) == 0x1_0000 && Pow256(4) == 0x1_0000_0000 && Pow256(8) == 0x1_0000_0000_0000_0000
  {
    assert Pow256(1) == 256;
    assert Pow256(3) == 256 * Pow256(2);
    assert Pow256(5) == 256 * Pow256(4);
    assert Pow256(6) == 256 * Pow256(5);
    assert Pow256(7) == 256 * Pow256(6);
  }

  // ---- UTF-8 ---------------------------------------------------------------------------------------------------

  /** A JavaScript string: well-formed text, or one with a lone surrogate, which has no UTF-8 form. */
  datatype Text = Scalars(s: string) | LoneSurrogate

  function Utf8Char(c: char): (b: bytes)
    ensures 1 <= |b| <= 4
  {
    var n := c as int;
    if n < 0x80 then [n]
    else if n < 0x800 then [0xC0 + n / 64, 0x80 + n % 64]
    else if n < 0x1_0000 then [0xE0 + n / 4096, 0x80 + n / 64 % 64, 0x80 + n % 64]
    else [0xF0 + n / 262144, 0x80 + n / 4096 % 64, 0x80 + n / 64 % 64, 0x80 + n % 64]
  }

  /** The payload of a byte after the first. */
  function Tail(b: Byte): int {
    b as int - 0x80
  }

  /** The forms of section 3 of RFC 3629: the lead byte tells the length, the rest carry six bits each, and the payloads make up the number. */
  lemma Utf8CharMeans(c: char)
    ensures var n, b := c as int, Utf8Char(c);
            && (n < 0x80 ==> b == [n])
            && (0x80 <= n < 0x800 ==> |b| == 2 && 0xC2 <= b[0] <= 0xDF && n == (b[0] as int - 0xC0) * 0x40 + Tail(b[1]))
            && (0x800 <= n < 0x1_0000 ==>
                  |b| == 3 && 0xE0 <= b[0] <= 0xEF && n == (b[0] as int - 0xE0) * 0x1000 + Tail(b[1]) * 0x40 + Tail(b[2]))
            && (n >= 0x1_0000 ==>
                  |b| == 4 && 0xF0 <= b[0] <= 0xF4
                  && n == (b[0] as int - 0xF0) * 0x4_0000 + Tail(b[1]) * 0x1000 + Tail(b[2]) * 0x40 + Tail(b[3]))
            && forall i :: 0 < i < |b| ==> 0x80 <= b[i] < 0xC0
  {
    var n := c as int;
    assert n == n / 64 * 64 + n % 64;
    assert n / 64 == n / 4096 * 64 + n / 64 % 64;
    assert n / 4096 == n / 262144 * 64 + n / 4096 % 64;
  }

  function Utf8(s: string): bytes {
    if |s| == 0 then [] else Utf8Char(s[0]) + Utf8(s[1..])
  }

  predicate IsScalar(n: int) {
    0 <= n < 0xD800 || 0xE000 <= n < 0x11_0000
  }

  function CharOf(n: int, rest: bytes): Option<(char, bytes)> {
    if IsScalar(n) then Some((n as char, rest)) else None
  }

  function GetChar(b: bytes): (r: Option<(char, bytes)>)
    ensures r.Some? ==> |r.value.1| < |b|
  {
    if |b| == 0 then None
    else if b[0] < 0x80 then CharOf(b[0], b[1..])
    else if 0xC0 <= b[0] < 0xE0 && |b| >= 2 then CharOf((b[0] as int - 0xC0) * 64 + (b[1] as int - 0x80), b[2..])
    else if 0xE0 <= b[0] < 0xF0 && |b| >= 3 then CharOf((b[0] as int - 0xE0) * 4096 + (b[1] as int - 0x80) * 64 + (b[2] as int - 0x80), b[3..])
    else if 0xF0 <= b[0] && |b| >= 4 then CharOf((b[0] as int - 0xF0) * 262144 + (b[1] as int - 0x80) * 4096 + (b[2] as int - 0x80) * 64 + (b[3] as int - 0x80), b[4..])
    else None
  }

  function FromUtf8(b: bytes): Option<string>
    decreases |b|
  {
    if |b| == 0 then Some("")
    else
      var (c, rest) :- GetChar(b);
      var s :- FromUtf8(rest);
      Some([c] + s)
  }

  lemma CharReads(c: char, rest: bytes)
    ensures GetChar(Utf8Char(c) + rest) == Some((c, rest))
  {
    var n := c as int;
    var x := Utf8Char(c);
    var b := x + rest;
    assert b[|x|..] == rest;
    assert forall i :: 0 <= i < |x| ==> b[i] == x[i];
    assert n == n / 64 * 64 + n % 64;
    assert n / 64 == n / 4096 * 64 + n / 64 % 64;
    assert n / 4096 == n / 262144 * 64 + n / 4096 % 64;
  }

  lemma {:induction false} Utf8Reads(s: string)
    ensures FromUtf8(Utf8(s)) == Some(s)
  {
    if |s| > 0 {
      CharReads(s[0], Utf8(s[1..]));
      Utf8Reads(s[1..]);
      assert s == [s[0]] + s[1..];
    }
  }

  // ---- length-prefixed texts -----------------------------------------------------------------------------------

  function Prefixed(b: bytes): bytes {
    U32(|b|) + b
  }

  predicate TextOk(t: Text) {
    t.Scalars? && |Utf8(t.s)| <= MAX_LENGTH
  }

  function Str(t: Text): bytes {
    if t.Scalars? then Prefixed(Utf8(t.s)) else []
  }

  function GetPrefixed(b: bytes): Option<(bytes, bytes)> {
    var (n, rest) :- GetUnsigned(4, b);
    Take(n, rest)
  }

  function GetStr(b: bytes): Option<(Text, bytes)> {
    var (body, rest) :- GetPrefixed(b);
    var s :- FromUtf8(body);
    Some((Scalars(s), rest))
  }

  lemma PrefixedReads(b: bytes, rest: bytes)
    requires |b| <= MAX_LENGTH
    ensures GetPrefixed(Prefixed(b) + rest) == Some((b, rest))
  {
    Powers();
    UnsignedFits(4, |b|, b + rest);
    assert Prefixed(b) + rest == U32(|b|) + (b + rest);
    TakeReads(b, rest);
  }

  lemma StrReads(t: Text, rest: bytes)
    requires TextOk(t)
    ensures GetStr(Str(t) + rest) == Some((t, rest))
  {
    PrefixedReads(Utf8(t.s), rest);
    Utf8Reads(t.s);
  }

  // ---- concatenation and lists ---------------------------------------------------------------------------------

  /** The elements one after another. */
  function All<T>(put: T -> bytes, xs: seq<T>): bytes {
    if |xs| == 0 then [] else put(xs[0]) + All(put, xs[1..])
  }

  function GetMany<T>(get: bytes -> Option<(T, bytes)>, n: nat, b: bytes): Option<(seq<T>, bytes)> {
    if n == 0 then Some(([], b))
    else
      var (x, rest) :- get(b);
      var (xs, last) :- GetMany(get, n - 1, rest);
      Some(([x] + xs, last))
  }

  ghost predicate Reads<T(!new)>(put: T -> bytes, get: bytes -> Option<(T, bytes)>, ok: T -> bool) {
    forall x: T, rest: bytes {:trigger put(x) + rest} :: ok(x) ==> get(put(x) + rest) == Some((x, rest))
  }

  lemma {:induction false} ManyReads<T(!new)>(put: T -> bytes, get: bytes -> Option<(T, bytes)>, ok: T -> bool, xs: seq<T>, rest: bytes)
    requires Reads(put, get, ok) && forall i :: 0 <= i < |xs| ==> ok(xs[i])
    ensures GetMany(get, |xs|, All(put, xs) + rest) == Some((xs, rest))
  {
    if |xs| > 0 {
      var tail := All(put, xs[1..]);
      ManyReads(put, get, ok, xs[1..], rest);
      assert All(put, xs) + rest == put(xs[0]) + (tail + rest);
      assert xs == [xs[0]] + xs[1..];
    } else {
      assert All(put, xs) + rest == rest;
    }
  }

  lemma {:induction false} AllSnoc<T>(put: T -> bytes, xs: seq<T>, x: T)
    ensures All(put, xs + [x]) == All(put, xs) + put(x)
  {
    if |xs| > 0 {
      AllSnoc(put, xs[1..], x);
      assert (xs + [x])[1..] == xs[1..] + [x];
    } else {
      assert (xs + [x])[1..] == [];
    }
  }

  /** A list behind its length. */
  function Counted<T>(put: T -> bytes, xs: seq<T>): bytes {
    U32(|xs|) + All(put, xs)
  }

  function GetCounted<T>(get: bytes -> Option<(T, bytes)>, b: bytes): Option<(seq<T>, bytes)> {
    var (n, rest) :- GetUnsigned(4, b);
    GetMany(get, n, rest)
  }

  predicate ListOk<T>(ok: T -> bool, xs: seq<T>) {
    |xs| <= MAX_LENGTH && forall i :: 0 <= i < |xs| ==> ok(xs[i])
  }

  lemma CountedReads<T(!new)>(put: T -> bytes, get: bytes -> Option<(T, bytes)>, ok: T -> bool, xs: seq<T>, rest: bytes)
    requires Reads(put, get, ok) && ListOk(ok, xs)
    ensures GetCounted(get, Counted(put, xs) + rest) == Some((xs, rest))
  {
    Powers();
    UnsignedFits(4, |xs|, All(put, xs) + rest);
    assert Counted(put, xs) + rest == U32(|xs|) + (All(put, xs) + rest);
    ManyReads(put, get, ok, xs, rest);
  }

  // ---- records -------------------------------------------------------------------------------------------------

  /** The three kinds of scalar a metadata record is made of. */
  datatype Token = TextToken(text: Text) | FlagToken(flag: bool) | ShortToken(short: nat)
  datatype Kind = TextKind | FlagKind | ShortKind

  function KindOf(t: Token): Kind {
    match t
    case TextToken(_) => TextKind
    case FlagToken(_) => FlagKind
    case ShortToken(_) => ShortKind
  }

  function PutToken(t: Token): bytes {
    match t
    case TextToken(text) => Str(text)
    case FlagToken(flag) => Flag(flag)
    case ShortToken(short) => U16(short)
  }

  predicate TokenOk(t: Token) {
    match t
    case TextToken(text) => TextOk(text)
    case FlagToken(_) => true
    case ShortToken(short) => short < 0x1_0000
  }

  function GetToken(k: Kind, b: bytes): (r: Option<(Token, bytes)>)
    ensures r.Some? ==> KindOf(r.value.0) == k
  {
    match k
    case TextKind => var (text, rest) :- GetStr(b); Some((TextToken(text), rest))
    case FlagKind => var (flag, rest) :- GetFlag(b); Some((FlagToken(flag), rest))
    case ShortKind => var (short, rest) :- GetUnsigned(2, b); Some((ShortToken(short), rest))
  }

  /** Reads a record of the given shape. */
  function GetTokens(shape: seq<Kind>, b: bytes): (r: Option<(seq<Token>, bytes)>)
    ensures r.Some? ==> |r.value.0| == |shape| && forall i :: 0 <= i < |shape| ==> KindOf(r.value.0[i]) == shape[i]
  {
    if |shape| == 0 then Some(([], b))
    else
      var (t, rest) :- GetToken(shape[0], b);
      var (ts, last) :- GetTokens(shape[1..], rest);
      Some(([t] + ts, last))
  }

  function Record(ts: seq<Token>): bytes {
    if |ts| == 0 then [] else PutToken(ts[0]) + Record(ts[1..])
  }

  lemma TokenReads(t: Token, rest: bytes)
    requires TokenOk(t)
    ensures GetToken(KindOf(t), PutToken(t) + rest) == Some((t, rest))
  {
    match t
    case TextToken(text) => StrReads(text, rest);
    case FlagToken(flag) => assert (Flag(flag) + rest)[1..] == rest;
    case ShortToken(short) => Powers(); UnsignedFits(2, short, rest);
  }

  /** A record is read back token by token, whatever follows it. */
  lemma {:induction false} RecordReads(shape: seq<Kind>, ts: seq<Token>, rest: bytes)
    requires |shape| == |ts| && forall i :: 0 <= i < |ts| ==> TokenOk(ts[i]) && shape[i] == KindOf(ts[i])
    ensures GetTokens(shape, Record(ts) + rest) == Some((ts, rest))
  {
    hide GetToken, PutToken, TokenOk;
    if |ts| > 0 {
      var tail := Record(ts[1..]) + rest;
      assert Record(ts) + rest == PutToken(ts[0]) + tail;
      TokenReads(ts[0], tail);
      RecordReads(shape[1..], ts[1..], rest);
      assert ts == [ts[0]] + ts[1..];
    } else {
      assert Record(ts) + rest == rest;
    }
  }
}
