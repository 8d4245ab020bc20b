/** The fingerprint of an attempt: the JSON text of its sale, payload and watermarks. Every writer takes the text that
    follows it, so a text is read off from the left. */
module Fingerprint {
  import opened ExchangeTypes
  import opened Texts
  import opened Decimal

  // ---- JSON string literals ------------------------------------------------------------------------------------

  function HexDigit(d: nat): char
    requires d < 16
  {
    "0123456789abcdef"[d]
  }

  function EscapeChar(c: char): (r: string)
    ensures |r| > 0 && r[0] != '"'
  {
    var n := c as int;
    if c == '"' then "\\\""
    else if c == '\\' then "\\\\"
    else if n == 8 then "\\b"
    else if n == 9 then "\\t"
    else if n == 10 then "\\n"
    else if n == 12 then "\\f"
    else if n == 13 then "\\r"
    else if n < 32 then "\\u00" + [HexDigit(n / 16), HexDigit(n % 16)]
    else [c]
  }

  function EscapeThen(s: string, rest: string): string {
    if |s| == 0 then rest else EscapeChar(s[0]) + EscapeThen(s[1..], rest)
  }

  function QuoteThen(s: string, rest: string): string {
    "\"" + EscapeThen(s, "\"" + rest)
  }

  lemma Cancel(p: string, a: string, b: string)
    requires p + a == p + b
    ensures a == b
  {
    assert (p + a)[|p|..] == a && (p + b)[|p|..] == b;
  }

  lemma EscapeCharReads(a: char, b: char, r: string, s: string)
    requires EscapeChar(a) + r == EscapeChar(b) + s
    ensures a == b && r == s
  {
    var x, y := EscapeChar(a), EscapeChar(b);
    assert (x + r)[0] == x[0] && (y + s)[0] == y[0];
    if |x| >= 2 && |y| >= 2 {
      assert (x + r)[1] == x[1] && (y + s)[1] == y[1];
      if |x| == 6 && |y| == 6 {
        assert (x + r)[4] == x[4] && (y + s)[4] == y[4];
        assert (x + r)[5] == x[5] && (y + s)[5] == y[5];
        HexDigitReads(a as int / 16, b as int / 16);
        HexDigitReads(a as int % 16, b as int % 16);
      }
    }
    assert a == b;
    Cancel(x, r, s);
  }

  lemma HexDigitReads(d: nat, e: nat)
    requires d < 16 && e < 16
    ensures HexDigit(d) == HexDigit(e) ==> d == e
  {
  }

  lemma {:induction false} EscapeReads(a: string, b: string, r: string, s: string)
    requires EscapeThen(a, "\"" + r) == EscapeThen(b, "\"" + s)
    ensures a == b && r == s
  {
    var x, y := EscapeThen(a, "\"" + r), EscapeThen(b, "\"" + s);
    if |a| == 0 || |b| == 0 {
      assert |a| == 0 ==> x[0] == '"';
      assert |b| == 0 ==> y[0] == '"';
      Cancel("\"", r, s);
    } else {
      EscapeCharReads(a[0], b[0], EscapeThen(a[1..], "\"" + r), EscapeThen(b[1..], "\"" + s));
      EscapeReads(a[1..], b[1..], r, s);
      assert a == [a[0]] + a[1..] && b == [b[0]] + b[1..];
    }
  }

  lemma QuoteReads(a: string, b: string, r: string, s: string)
    requires QuoteThen(a, r) == QuoteThen(b, s)
    ensures a == b && r == s
  {
    Cancel("\"", EscapeThen(a, "\"" + r), EscapeThen(b, "\"" + s));
    EscapeReads(a, b, r, s);
  }

  function QuantityThen(n: nat, rest: string): string {
    QuoteThen(Show(n), rest)
  }

  lemma QuantityReads(a: nat, b: nat, r: string, s: string)
    requires QuantityThen(a, r) == QuantityThen(b, s)
    ensures a == b && r == s
  {
    QuoteReads(Show(a), Show(b), r, s);
    ShowReads(a);
    ShowReads(b);
  }

  // ---- one line, one watermark ---------------------------------------------------------------------------------

  function LineThen(l: CanonicalLine, rest: string): string {
    "{\"saleItemId\":" + QuoteThen(l.saleItemId,
    ",\"replacementVariantId\":" + QuoteThen(l.replacementVariantId,
    ",\"returnQuantity\":" + QuantityThen(l.returnQuantity, "}" + rest)))
  }

  lemma LineReads(a: CanonicalLine, b: CanonicalLine, r: string, s: string)
    requires LineThen(a, r) == LineThen(b, s)
    ensures a == b && r == s
  {
    var ra, rb := QuantityThen(a.returnQuantity, "}" + r), QuantityThen(b.returnQuantity, "}" + s);
    var va, vb := QuoteThen(a.replacementVariantId, ",\"returnQuantity\":" + ra), QuoteThen(b.replacementVariantId, ",\"returnQuantity\":" + rb);
    Cancel("{\"saleItemId\":", QuoteThen(a.saleItemId, ",\"replacementVariantId\":" + va), QuoteThen(b.saleItemId, ",\"replacementVariantId\":" + vb));
    QuoteReads(a.saleItemId, b.saleItemId, ",\"replacementVariantId\":" + va, ",\"replacementVariantId\":" + vb);
    Cancel(",\"replacementVariantId\":", va, vb);
    QuoteReads(a.replacementVariantId, b.replacementVariantId, ",\"returnQuantity\":" + ra, ",\"returnQuantity\":" + rb);
    Cancel(",\"returnQuantity\":", ra, rb);
    QuantityReads(a.returnQuantity, b.returnQuantity, "}" + r, "}" + s);
    Cancel("}", r, s);
  }

  function MarkThen(m: Watermark, rest: string): string {
    "{\"saleItemId\":" + QuoteThen(m.saleItemId,
    ",\"exchangedQuantityBefore\":" + QuantityThen(m.before,
    ",\"expectedExchangedQuantityAfter\":" + QuantityThen(m.after, "}" + rest)))
  }

  lemma MarkReads(a: Watermark, b: Watermark, r: string, s: string)
    requires MarkThen(a, r) == MarkThen(b, s)
    ensures a == b && r == s
  {
    var ra, rb := QuantityThen(a.after, "}" + r), QuantityThen(b.after, "}" + s);
    var va, vb := QuantityThen(a.before, ",\"expectedExchangedQuantityAfter\":" + ra), QuantityThen(b.before, ",\"expectedExchangedQuantityAfter\":" + rb);
    Cancel("{\"saleItemId\":", QuoteThen(a.saleItemId, ",\"exchangedQuantityBefore\":" + va), QuoteThen(b.saleItemId, ",\"exchangedQuantityBefore\":" + vb));
    QuoteReads(a.saleItemId, b.saleItemId, ",\"exchangedQuantityBefore\":" + va, ",\"exchangedQuantityBefore\":" + vb);
    Cancel(",\"exchangedQuantityBefore\":", va, vb);
    QuantityReads(a.before, b.before, ",\"expectedExchangedQuantityAfter\":" + ra, ",\"expectedExchangedQuantityAfter\":" + rb);
    Cancel(",\"expectedExchangedQuantityAfter\":", ra, rb);
    QuantityReads(a.after, b.after, "}" + r, "}" + s);
    Cancel("}", r, s);
  }

  // ---- lists: elements separated by commas, closed by a bracket ------------------------------------------------

  function ListThen<T>(put: (T, string) -> string, xs: seq<T>, rest: string): string {
    if |xs| == 0 then "]" + rest
    else put(xs[0], if |xs| == 1 then "]" + rest else "," + ListThen(put, xs[1..], rest))
  }

  ghost predicate Readable<T(!new)>(put: (T, string) -> string) {
    && (forall a, b, r, s :: put(a, r) == put(b, s) ==> a == b && r == s)
    && (forall a, r :: |put(a, r)| > 0 && put(a, r)[0] == '{')
  }

  lemma {:induction false} ListReads<T(!new)>(put: (T, string) -> string, xs: seq<T>, ys: seq<T>, r: string, s: string)
    requires Readable(put)
    requires ListThen(put, xs, r) == ListThen(put, ys, s)
    ensures xs == ys && r == s
  {
    if |xs| == 0 || |ys| == 0 {
      assert |xs| == 0 ==> ListThen(put, xs, r)[0] == ']';
      assert |ys| == 0 ==> ListThen(put, ys, s)[0] == ']';
      Cancel("]", r, s);
    } else {
      var x := if |xs| == 1 then "]" + r else "," + ListThen(put, xs[1..], r);
      var y := if |ys| == 1 then "]" + s else "," + ListThen(put, ys[1..], s);
      assert put(xs[0], x) == put(ys[0], y);
      assert x == y && x[0] == y[0];
      if |xs| == 1 {
        Cancel("]", r, s);
      } else {
        Cancel(",", ListThen(put, xs[1..], r), ListThen(put, ys[1..], s));
        ListReads(put, xs[1..], ys[1..], r, s);
      }
      assert xs == [xs[0]] + xs[1..] && ys == [ys[0]] + ys[1..];
    }
  }

  // ---- the fingerprint -----------------------------------------------------------------------------------------

  function FingerprintOf(saleId: string, payload: Payload, watermarks: seq<Watermark>): string {
    "{\"v\":2,\"saleId\":" + QuoteThen(saleId,
    ",\"reason\":" + QuoteThen(payload.reason,
    ",\"lines\":[" + ListThen(LineThen, payload.lines,
    ",\"watermarks\":[" + ListThen(MarkThen, watermarks, "}"))))
  }

  /** Equal fingerprints come from the same sale, the same payload and the same per-line baselines. */
  lemma FingerprintIsInjective(saleA: string, a: Payload, wa: seq<Watermark>, saleB: string, b: Payload, wb: seq<Watermark>)
    ensures FingerprintOf(saleA, a, wa) == FingerprintOf(saleB, b, wb) <==> saleA == saleB && a == b && wa == wb
  {
    if FingerprintOf(saleA, a, wa) == FingerprintOf(saleB, b, wb) {
      forall x: CanonicalLine, y: CanonicalLine, r, s | LineThen(x, r) == LineThen(y, s) ensures x == y && r == s {
        LineReads(x, y, r, s);
      }
      forall x: Watermark, y: Watermark, r, s | MarkThen(x, r) == MarkThen(y, s) ensures x == y && r == s {
        MarkReads(x, y, r, s);
      }
      var ma, mb := ListThen(MarkThen, wa, "}"), ListThen(MarkThen, wb, "}");
      var la, lb := ListThen(LineThen, a.lines, ",\"watermarks\":[" + ma), ListThen(LineThen, b.lines, ",\"watermarks\":[" + mb);
      var ra, rb := QuoteThen(a.reason, ",\"lines\":[" + la), QuoteThen(b.reason, ",\"lines\":[" + lb);
      Cancel("{\"v\":2,\"saleId\":", QuoteThen(saleA, ",\"reason\":" + ra), QuoteThen(saleB, ",\"reason\":" + rb));
      QuoteReads(saleA, saleB, ",\"reason\":" + ra, ",\"reason\":" + rb);
      Cancel(",\"reason\":", ra, rb);
      QuoteReads(a.reason, b.reason, ",\"lines\":[" + la, ",\"lines\":[" + lb);
      Cancel(",\"lines\":[", la, lb);
      ListReads(LineThen, a.lines, b.lines, ",\"watermarks\":[" + ma, ",\"watermarks\":[" + mb);
      Cancel(",\"watermarks\":[", ma, mb);
      ListReads(MarkThen, wa, wb, "}", "}");
    }
  }
}
