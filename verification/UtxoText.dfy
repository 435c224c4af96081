/** The text form of an unspent output: value@height>offset>txid:vout%index,
    and the parser that reads it back. */
module UtxoText {
  import opened WalletTypes

  /** A printable form of an address, with the parser of the address library. */
  type AddressParser = string -> Option<Address>

  // ----- decimal numbers -----

  function Digit(d: nat): char
    requires d < 10
  {
    '0' + d as char
  }

  function Decimal(n: nat): string {
    if n < 10 then [Digit(n)] else Decimal(n / 10) + [Digit(n % 10)]
  }

  /** Reads ASCII digits, failing once the number reaches the limit of its type. */
  function ParseDigits(s: string, limit: nat): Option<nat> {
    if s == "" then Some(0) else
      var c := s[|s| - 1];
      match ParseDigits(s[..|s| - 1], limit)
      case None => None
      case Some(v) =>
        if '0' <= c <= '9' && 10 * v + (c - '0') as nat < limit
        then Some(10 * v + (c - '0') as nat)
        else None
  }

  /** The integer parser of the standard library: one leading plus is allowed,
      an empty number is not. */
  function ParseUint(s: string, limit: nat): (r: Option<nat>)
    requires limit > 0
    ensures r.Some? ==> r.value < limit
  {
    var digits := if s != "" && s[0] == '+' then s[1..] else s;
    ParseBelow(digits, limit);
    if digits == "" then None else ParseDigits(digits, limit)
  }

  lemma ParseBelow(s: string, limit: nat)
    requires limit > 0
    ensures ParseDigits(s, limit).Some? ==> ParseDigits(s, limit).value < limit
  {
  }

  lemma DigitIsPlain(d: nat)
    requires d < 10
    ensures !Separator(Digit(d)) && Digit(d) != '+'
  {
  }

  predicate Unbroken(s: string) {
    forall c | c in s :: !Separator(c)
  }

  predicate Plain(s: string) {
    Unbroken(s) && forall c | c in s :: c != '+'
  }

  lemma {:induction false} DecimalIsPlain(n: nat)
    ensures Plain(Decimal(n)) && Decimal(n) != ""
  {
    if n < 10 {
      DigitIsPlain(n);
    } else {
      DecimalIsPlain(n / 10);
      DigitIsPlain(n % 10);
    }
  }

  lemma {:induction false} DigitsRoundTrip(n: nat, limit: nat)
    requires n < limit
    ensures ParseDigits(Decimal(n), limit) == Some(n)
  {
    if n < 10 {
      assert [Digit(n)][..0] == "";
    } else {
      DigitsRoundTrip(n / 10, limit);
      assert Decimal(n)[..|Decimal(n)| - 1] == Decimal(n / 10);
    }
  }

  /** Every number of the type reads back, and no number beyond it is accepted. */
  lemma DecimalRoundTrip(n: nat, limit: nat)
    requires limit > 0
    ensures ParseUint(Decimal(n), limit) == if n < limit then Some(n) else None
  {
    DecimalIsPlain(n);
    assert Decimal(n)[0] in Decimal(n);
    if n < limit {
      DigitsRoundTrip(n, limit);
    } else {
      TooLarge(n, limit);
    }
  }

  lemma {:induction false} TooLarge(n: nat, limit: nat)
    requires limit <= n
    ensures ParseDigits(Decimal(n), limit) == None
  {
    if n < 10 {
      assert ParseDigits([Digit(n)][..0], limit) == Some(0);
    } else {
      assert Decimal(n)[..|Decimal(n)| - 1] == Decimal(n / 10);
      if limit <= n / 10 {
        TooLarge(n / 10, limit);
      } else {
        DigitsRoundTrip(n / 10, limit);
      }
    }
  }

  // ----- which texts are numbers -----

  predicate AllDigits(s: string) {
    forall i | 0 <= i < |s| :: '0' <= s[i] <= '9'
  }

  /** The number a string of digits stands for. */
  function NumberOf(s: string): nat
    requires AllDigits(s)
  {
    if s == "" then 0 else 10 * NumberOf(s[..|s| - 1]) + (s[|s| - 1] - '0') as nat
  }

  lemma {:induction false} DigitsExactly(s: string, limit: nat)
    requires limit > 0
    ensures ParseDigits(s, limit) == if AllDigits(s) && NumberOf(s) < limit then Some(NumberOf(s)) else None
  {
    if s != "" {
      var init, c := s[..|s| - 1], s[|s| - 1];
      DigitsExactly(init, limit);
      assert s == init + [c];
      assert AllDigits(s) <==> AllDigits(init) && '0' <= c <= '9';
    }
  }

  /** A text is read as a number exactly when it consists of digits, after at most one plus
      sign, that stand for a number below the limit. */
  lemma ParseUintExactly(s: string, limit: nat)
    requires limit > 0
    ensures var digits := if s != "" && s[0] == '+' then s[1..] else s;
      ParseUint(s, limit) ==
      if digits != "" && AllDigits(digits) && NumberOf(digits) < limit then Some(NumberOf(digits)) else None
  {
    DigitsExactly(if s != "" && s[0] == '+' then s[1..] else s, limit);
  }

  /** A printed number is its digits, without leading zeros. */
  lemma {:induction false} DecimalIsShortest(n: nat)
    ensures Decimal(n) != "" && AllDigits(Decimal(n)) && NumberOf(Decimal(n)) == n
    ensures n > 0 ==> Decimal(n)[0] != '0'
    ensures n == 0 ==> Decimal(n) == "0"
  {
    if n < 10 {
      assert NumberOf([Digit(n)][..0]) == 0;
    } else {
      DecimalIsShortest(n / 10);
      assert Decimal(n)[..|Decimal(n)| - 1] == Decimal(n / 10);
    }
  }

  // ----- transaction ids -----

  function HexDigit(d: nat): char
    requires d < 16
  {
    if d < 10 then '0' + d as char else 'a' + (d - 10) as char
  }

  function HexValue(c: char): Option<nat> {
    if '0' <= c <= '9' then Some((c - '0') as nat)
    else if 'a' <= c <= 'f' then Some((c - 'a') as nat + 10)
    else if 'A' <= c <= 'F' then Some((c - 'A') as nat + 10)
    else None
  }

  /** Transaction ids are shown with their bytes reversed, so the least
      significant byte comes first. */
  function HexBytes(n: nat, bytes: nat): string {
    if bytes == 0 then "" else
      [HexDigit(n % 256 / 16), HexDigit(n % 16)] + HexBytes(n / 256, bytes - 1)
  }

  function ParseHexBytes(s: string): Option<nat> {
    if s == "" then Some(0)
    else if |s| == 1 then None
    else
      match (HexValue(s[0]), HexValue(s[1]), ParseHexBytes(s[2..]))
      case (Some(hi), Some(lo), Some(rest)) => Some(16 * hi + lo + 256 * rest)
      case _ => None
  }

  function BytesLimit(bytes: nat): nat {
    if bytes == 0 then 1 else 256 * BytesLimit(bytes - 1)
  }

  lemma {:induction false} BytesLimitSum(a: nat, b: nat)
    ensures BytesLimit(a + b) == BytesLimit(a) * BytesLimit(b)
  {
    if a > 0 {
      BytesLimitSum(a - 1, b);
      assert BytesLimit(a + b) == 256 * (BytesLimit(a - 1) * BytesLimit(b));
    }
  }

  lemma HashLimit()
    ensures BytesLimit(32) == HASH_LIMIT
  {
    assert BytesLimit(2) == 0x1_0000;
    BytesLimitSum(2, 2);
    BytesLimitSum(4, 4);
    BytesLimitSum(8, 8);
    BytesLimitSum(16, 16);
  }

  lemma {:induction false} HexBelow(s: string)
    ensures ParseHexBytes(s).Some? ==> ParseHexBytes(s).value < BytesLimit(|s| / 2)
  {
    if |s| > 1 {
      HexBelow(s[2..]);
      assert |s[2..]| / 2 == |s| / 2 - 1;
    }
  }

  function ParseTxid(s: string): Option<Txid> {
    HexBelow(s);
    HashLimit();
    if |s| != 64 then None else
      match ParseHexBytes(s)
      case None => None
      case Some(n) => Some(n)
  }

  lemma HexDigitRoundTrip(d: nat)
    requires d < 16
    ensures HexValue(HexDigit(d)) == Some(d)
    ensures !Separator(HexDigit(d)) && HexDigit(d) != '+'
  {
  }

  lemma ByteParts(n: nat)
    ensures 16 * (n % 256 / 16) + n % 16 + 256 * (n / 256) == n
  {
  }

  lemma ParsePair(hi: char, lo: char, rest: string)
    requires HexValue(hi).Some? && HexValue(lo).Some? && ParseHexBytes(rest).Some?
    ensures ParseHexBytes([hi, lo] + rest) ==
            Some(16 * HexValue(hi).value + HexValue(lo).value + 256 * ParseHexBytes(rest).value)
  {
    assert ([hi, lo] + rest)[2..] == rest;
  }

  lemma {:induction false} HexRoundTrip(n: nat, bytes: nat)
    requires n < BytesLimit(bytes)
    ensures ParseHexBytes(HexBytes(n, bytes)) == Some(n)
    ensures |HexBytes(n, bytes)| == 2 * bytes
  {
    if bytes > 0 {
      var hi, lo, rest := n % 256 / 16, n % 16, n / 256;
      HexRoundTrip(rest, bytes - 1);
      HexDigitRoundTrip(hi);
      HexDigitRoundTrip(lo);
      ByteParts(n);
      ParsePair(HexDigit(hi), HexDigit(lo), HexBytes(rest, bytes - 1));
    }
  }

  lemma {:induction false} HexIsPlain(n: nat, bytes: nat)
    ensures Plain(HexBytes(n, bytes))
  {
    if bytes > 0 {
      HexIsPlain(n / 256, bytes - 1);
      HexDigitRoundTrip(n % 256 / 16);
      HexDigitRoundTrip(n % 16);
    }
  }

  lemma TxidRoundTrip(txid: Txid)
    ensures ParseTxid(HexBytes(txid, 32)) == Some(txid)
    ensures Plain(HexBytes(txid, 32))
  {
    HashLimit();
    HexRoundTrip(txid, 32);
    HexIsPlain(txid, 32);
  }

  function Upper(c: char): char {
    if 'a' <= c <= 'f' then 'A' + (c - 'a') else c
  }

  function UpperCase(s: string): string {
    seq(|s|, i requires 0 <= i < |s| => Upper(s[i]))
  }

  /** Upper-case and lower-case digits are read alike. */
  lemma {:induction false} CaseDoesNotMatter(s: string)
    ensures ParseHexBytes(UpperCase(s)) == ParseHexBytes(s)
  {
    if |s| > 1 {
      CaseDoesNotMatter(s[2..]);
      assert UpperCase(s)[2..] == UpperCase(s[2..]);
      assert HexValue(Upper(s[0])) == HexValue(s[0]) && HexValue(Upper(s[1])) == HexValue(s[1]);
    }
  }

  function Zeros(n: nat): string {
    if n == 0 then "" else "00" + Zeros(n - 1)
  }

  lemma {:induction false} HexOfZero(bytes: nat)
    ensures HexBytes(0, bytes) == Zeros(bytes)
  {
    if bytes > 0 {
      HexOfZero(bytes - 1);
    }
  }

  /** Digits are in lower case. */
  lemma HexDigitsInOrder(d: nat)
    requires d < 16
    ensures HexDigit(d) == "0123456789abcdef"[d]
  {
  }

  /** The last stored byte comes first, and its upper half before the lower. */
  lemma LowByteFirst(n: nat)
    requires n < 256
    ensures HexBytes(n, 32) == [HexDigit(n / 16), HexDigit(n % 16)] + Zeros(31)
  {
    HexOfZero(31);
    assert n / 256 == 0 && n % 256 == n;
  }

  // ----- fields -----

  predicate Separator(c: char) {
    c in "@>%=:"
  }

  function Split(s: string): (r: seq<string>)
    ensures |r| > 0
  {
    if s == "" then [""]
    else if Separator(s[0]) then [""] + Split(s[1..])
    else
      var rest := Split(s[1..]);
      [[s[0]] + rest[0]] + rest[1..]
  }

  lemma {:induction false} SplitField(field: string, sep: char, rest: string)
    requires Unbroken(field) && Separator(sep)
    ensures Split(field + [sep] + rest) == [field] + Split(rest)
  {
    var s := field + [sep] + rest;
    if field == "" {
      assert s[1..] == rest;
    } else {
      assert forall c | c in field[1..] :: c in field;
      SplitField(field[1..], sep, rest);
      assert field[0] in field;
      assert s[1..] == field[1..] + [sep] + rest;
      var tail := Split(s[1..]);
      assert tail[0] == field[1..] && tail[1..] == Split(rest);
      assert [s[0]] + tail[0] == field;
    }
  }

  lemma {:induction false} SplitLast(field: string)
    requires Unbroken(field)
    ensures Split(field) == [field]
  {
    if field != "" {
      assert forall c | c in field[1..] :: c in field;
      SplitLast(field[1..]);
      assert field[0] in field;
      assert [field[0]] + field[1..] == field;
    }
  }

  /** Text with a separator in it gives more than one field. */
  lemma {:induction false} SplitBroken(s: string)
    ensures Unbroken(s) <==> |Split(s)| == 1
  {
    if s != "" {
      SplitBroken(s[1..]);
      assert s == [s[0]] + s[1..];
    }
  }

  // ----- whole outputs -----

  function Display(u: Utxo): string {
    Decimal(u.value) + "@" + (Decimal(u.height) + ">" + (Decimal(u.offset) + ">" +
    (HexBytes(u.txid, 32) + ":" + (Decimal(u.vout) + "%" + Decimal(u.index)))))
  }

  function Parse(s: string, parseAddress: AddressParser): Option<Utxo> {
    var f := Split(s);
    if |f| < 6 || 7 < |f| then None else
      match (ParseUint(f[0], U64_LIMIT), ParseUint(f[1], U32_LIMIT), ParseUint(f[2], U16_LIMIT),
             ParseTxid(f[3]), ParseUint(f[4], U16_LIMIT), ParseUint(f[5], LARGEST_INDEX + 1))
      case (Some(value), Some(height), Some(offset), Some(txid), Some(vout), Some(index)) =>
        // an address that does not parse is dropped without an error
        var address := if |f| == 7 then parseAddress(f[6]) else None;
        Some(Utxo(value, height, offset, txid, vout, index, None, address))
      case _ => None
  }

  lemma DisplayFields(u: Utxo)
    ensures Split(Display(u)) ==
      [Decimal(u.value), Decimal(u.height), Decimal(u.offset),
       HexBytes(u.txid, 32), Decimal(u.vout), Decimal(u.index)]
  {
    var value, height, offset := Decimal(u.value), Decimal(u.height), Decimal(u.offset);
    var txid, vout, index := HexBytes(u.txid, 32), Decimal(u.vout), Decimal(u.index);
    DecimalIsPlain(u.value);
    DecimalIsPlain(u.height);
    DecimalIsPlain(u.offset);
    DecimalIsPlain(u.vout);
    DecimalIsPlain(u.index);
    HexIsPlain(u.txid, 32);
    SixFields(value, height, offset, txid, vout, index);
  }

  lemma SixFields(a: string, b: string, c: string, d: string, e: string, f: string)
    requires Plain(a) && Plain(b) && Plain(c) && Plain(d) && Plain(e) && Plain(f)
    ensures Split(a + "@" + (b + ">" + (c + ">" + (d + ":" + (e + "%" + f))))) ==
            [a, b, c, d, e, f]
  {
    SplitLast(f);
    SplitField(e, '%', f);
    SplitField(d, ':', e + "%" + f);
    SplitField(c, '>', d + ":" + (e + "%" + f));
    SplitField(b, '>', c + ">" + (d + ":" + (e + "%" + f)));
    SplitField(a, '@', b + ">" + (c + ">" + (d + ":" + (e + "%" + f))));
  }

  /** The separators of a text, in order. */
  function SeparatorsOf(s: string): string {
    if s == "" then "" else (if Separator(s[0]) then [s[0]] else "") + SeparatorsOf(s[1..])
  }

  lemma SeparatorsCons(c: char, s: string)
    ensures SeparatorsOf([c] + s) == (if Separator(c) then [c] else "") + SeparatorsOf(s)
  {
    assert ([c] + s)[1..] == s;
  }

  lemma {:induction false} SeparatorsJoin(a: string, b: string)
    ensures SeparatorsOf(a + b) == SeparatorsOf(a) + SeparatorsOf(b)
  {
    if a == "" {
      assert a + b == b;
    } else {
      SeparatorsJoin(a[1..], b);
      SeparatorsCons(a[0], a[1..] + b);
      SeparatorsCons(a[0], a[1..]);
      assert a == [a[0]] + a[1..] && a + b == [a[0]] + (a[1..] + b);
      JoinThree(if Separator(a[0]) then [a[0]] else "", SeparatorsOf(a[1..]), SeparatorsOf(b));
    }
  }

  lemma JoinThree(a: string, b: string, c: string)
    ensures a + (b + c) == a + b + c
  {
  }

  lemma {:induction false} UnbrokenHasNone(s: string)
    requires Unbroken(s)
    ensures SeparatorsOf(s) == ""
  {
    if s != "" {
      assert s[0] in s && forall c | c in s[1..] :: c in s;
      UnbrokenHasNone(s[1..]);
    }
  }

  lemma OneSeparator(field: string, sep: char, rest: string)
    requires Unbroken(field) && Separator(sep)
    ensures SeparatorsOf(field + [sep] + rest) == [sep] + SeparatorsOf(rest)
  {
    assert field + [sep] + rest == field + ([sep] + rest);
    SeparatorsJoin(field, [sep] + rest);
    SeparatorsCons(sep, rest);
    UnbrokenHasNone(field);
  }

  lemma FiveSeparators(a: string, b: string, c: string, d: string, e: string, f: string)
    requires Unbroken(a) && Unbroken(b) && Unbroken(c) && Unbroken(d) && Unbroken(e) && Unbroken(f)
    ensures SeparatorsOf(a + "@" + (b + ">" + (c + ">" + (d + ":" + (e + "%" + f))))) == "@>>:%"
  {
    UnbrokenHasNone(f);
    OneSeparator(e, '%', f);
    OneSeparator(d, ':', e + "%" + f);
    OneSeparator(c, '>', d + ":" + (e + "%" + f));
    OneSeparator(b, '>', c + ">" + (d + ":" + (e + "%" + f)));
    OneSeparator(a, '@', b + ">" + (c + ">" + (d + ":" + (e + "%" + f))));
  }

  /** The printed form puts an at sign behind the value, angle brackets behind height and
      offset, a colon behind the transaction id and a percent sign before the index. */
  lemma DisplaySeparators(u: Utxo)
    ensures SeparatorsOf(Display(u)) == "@>>:%"
  {
    DecimalIsPlain(u.value);
    DecimalIsPlain(u.height);
    DecimalIsPlain(u.offset);
    DecimalIsPlain(u.vout);
    DecimalIsPlain(u.index);
    HexIsPlain(u.txid, 32);
    FiveSeparators(Decimal(u.value), Decimal(u.height), Decimal(u.offset), HexBytes(u.txid, 32),
                   Decimal(u.vout), Decimal(u.index));
  }

  /** Reading the printed form returns the output with its tweak and address cleared. */
  lemma RoundTrip(u: Utxo, parseAddress: AddressParser)
    ensures Parse(Display(u), parseAddress) == Some(u.(tweak := None, address := None))
  {
    DisplayFields(u);
    DecimalRoundTrip(u.value, U64_LIMIT);
    DecimalRoundTrip(u.height, U32_LIMIT);
    DecimalRoundTrip(u.offset, U16_LIMIT);
    DecimalRoundTrip(u.vout, U16_LIMIT);
    DecimalRoundTrip(u.index, LARGEST_INDEX + 1);
    TxidRoundTrip(u.txid);
  }

  /** The fields after one more character in front. */
  function Grow(c: char, fields: seq<string>): seq<string>
    requires fields != []
  {
    if Separator(c) then [""] + fields else [[c] + fields[0]] + fields[1..]
  }

  lemma SplitCons(c: char, s: string)
    ensures Split([c] + s) == Grow(c, Split(s))
  {
    assert ([c] + s)[1..] == s;
  }

  lemma GrowFront(c: char, front: seq<string>, back: seq<string>)
    requires front != []
    ensures Grow(c, front + back) == Grow(c, front) + back
  {
  }

  lemma {:induction false} SplitAppend(a: string, sep: char, b: string)
    requires Separator(sep)
    ensures Split(a + [sep] + b) == Split(a) + Split(b)
  {
    if a == "" {
      assert a + [sep] + b == [sep] + b;
      SplitCons(sep, b);
    } else {
      var c, rest := a[0], a[1..];
      SplitAppend(rest, sep, b);
      assert a == [c] + rest;
      assert a + [sep] + b == [c] + (rest + [sep] + b);
      SplitMore(c, rest, rest + [sep] + b, Split(b));
    }
  }

  lemma SplitMore(c: char, short: string, long: string, back: seq<string>)
    requires Split(long) == Split(short) + back
    ensures Split([c] + long) == Split([c] + short) + back
  {
    SplitCons(c, short);
    SplitCons(c, long);
    GrowFront(c, Split(short), back);
  }

  /** An address may follow as a seventh field; one that does not parse is dropped. A
      separator inside it makes an eighth field, and the whole text is refused. */
  lemma AddressFollows(u: Utxo, text: string, parseAddress: AddressParser)
    ensures Parse(Display(u) + "=" + text, parseAddress) ==
            if Unbroken(text) then Some(u.(tweak := None, address := parseAddress(text))) else None
  {
    RoundTrip(u, parseAddress);
    DisplayFields(u);
    SplitAppend(Display(u), '=', text);
    SplitBroken(text);
    if Unbroken(text) {
      SplitLast(text);
    }
  }

  /** The printed form names an output uniquely up to its tweak and address, and
      forgets exactly those two. */
  lemma DisplayIsInjective(u: Utxo, v: Utxo)
    ensures Display(u) == Display(v) <==>
            u.(tweak := None, address := None) == v.(tweak := None, address := None)
  {
    RoundTrip(u, text => None);
    RoundTrip(v, text => None);
  }
}
