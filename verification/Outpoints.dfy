/**
 Bitcoin outpoints and the printed form under which the recovery journal files
 owner tokens (`txid:vout`). Recovery reads that form back by splitting at the
 last colon, so releasing the right coin rests on the two being inverse.
 */
module Outpoints {
  import opened Prelude

  datatype OutpointFields = Outpoint(txid: string, vout: nat)

  /** The dataclass rejects an empty transaction id and a negative index. */
  type Outpoint = o: OutpointFields | o.txid != "" witness Outpoint("0", 0)

  function MakeOutpoint(txid: string, vout: int): (r: Option<Outpoint>)
    ensures r.Some? <==> txid != "" && vout >= 0
    ensures r.Some? ==> r.value.txid == txid && r.value.vout == vout
  {
    if txid == "" || vout < 0 then None else Some(Outpoint(txid, vout))
  }

  // ---- decimal text of the output index ----

  function DigitChar(d: nat): char
    requires d < 10
  {
    "0123456789"[d]
  }

  function DigitValue(c: char): Option<nat> {
    if '0' <= c <= '9' then Some(c as int - '0' as int) else None
  }

  function Decimal(n: nat): string {
    if n < 10 then [DigitChar(n)] else Decimal(n / 10) + [DigitChar(n % 10)]
  }

  /** `int(text)` on a text of decimal digits; anything else is refused. */
  function ParseDecimal(s: string): Option<nat> {
    if s == "" then None
    else
      var last := DigitValue(s[|s| - 1]);
      if last.None? then None
      else if |s| == 1 then last
      else match ParseDecimal(s[..|s| - 1])
           case None => None
           case Some(high) => Some(10 * high + last.value)
  }

  /** `text.rsplit(":", 1)`: the parts before and after the last colon. */
  function SplitLastColon(s: string): Option<(string, string)> {
    if s == "" then None
    else if s[|s| - 1] == ':' then Some((s[..|s| - 1], ""))
    else match SplitLastColon(s[..|s| - 1])
         case None => None
         case Some(parts) => Some((parts.0, parts.1 + [s[|s| - 1]]))
  }

  function Print(o: Outpoint): string {
    o.txid + ":" + Decimal(o.vout)
  }

  function Parse(s: string): Option<Outpoint> {
    match SplitLastColon(s)
    case None => None
    case Some(parts) =>
      match ParseDecimal(parts.1)
      case None => None
      case Some(vout) => MakeOutpoint(parts.0, vout)
  }

  // ---- the round trip ----

  lemma DigitRoundTrip(d: nat)
    requires d < 10
    ensures DigitValue(DigitChar(d)) == Some(d)
    ensures DigitChar(d) != ':'
  {
    assert d == 0 || d == 1 || d == 2 || d == 3 || d == 4
        || d == 5 || d == 6 || d == 7 || d == 8 || d == 9;
  }

  lemma {:induction false} DecimalRoundTrip(n: nat)
    ensures ParseDecimal(Decimal(n)) == Some(n)
    ensures ':' !in Decimal(n)
  {
    DigitRoundTrip(n % 10);
    if n >= 10 {
      DecimalRoundTrip(n / 10);
      OneMoreDigit(Decimal(n / 10), n / 10, n % 10);
    }
  }

  lemma OneMoreDigit(high: string, n: nat, d: nat)
    requires d < 10 && high != "" && ParseDecimal(high) == Some(n)
    requires DigitValue(DigitChar(d)) == Some(d)
    ensures ParseDecimal(high + [DigitChar(d)]) == Some(10 * n + d)
  {
    var s := high + [DigitChar(d)];
    assert s[..|s| - 1] == high;
  }

  lemma {:induction false} SplitAfterColonFree(prefix: string, tail: string)
    requires ':' !in tail
    ensures SplitLastColon(prefix + ":" + tail) == Some((prefix, tail))
  {
    var s := prefix + ":" + tail;
    if tail == "" {
      assert s[..|s| - 1] == prefix;
    } else {
      var shorter := tail[..|tail| - 1];
      assert s[..|s| - 1] == prefix + ":" + shorter;
      SplitAfterColonFree(prefix, shorter);
      assert shorter + [tail[|tail| - 1]] == tail;
    }
  }

  /** Reading a printed outpoint gives it back, also when the id contains colons. */
  lemma ParseInvertsPrint(o: Outpoint)
    ensures Parse(Print(o)) == Some(o)
  {
    DecimalRoundTrip(o.vout);
    SplitAfterColonFree(o.txid, Decimal(o.vout));
  }

  /** No two outpoints share a journal key. */
  lemma PrintIsInjective()
    ensures forall a: Outpoint, b: Outpoint {:trigger Print(a), Print(b)} :: Print(a) == Print(b) ==> a == b
  {
    forall a: Outpoint, b: Outpoint | Print(a) == Print(b)
      ensures a == b
    {
      ParseInvertsPrint(a);
      ParseInvertsPrint(b);
    }
  }
}
