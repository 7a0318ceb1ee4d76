/** PrefixedFixedLengthKeyValueMessage: the printer, the parser, and how they fit together. */
module KeyValueMessage {
  import opened Optional
  import opened Text

  // ---------------------------------------------------------------- the dictionary

  /** A dictionary under OrdinalIgnoreCase, in insertion order: a repeated key keeps its first spelling and place. */
  type Values = seq<(string, string)>

  ghost predicate HasKey(m: Values, key: string) {
    exists i | 0 <= i < |m| :: Fold(m[i].0) == Fold(key)
  }

  ghost predicate DistinctKeys(m: Values) {
    forall i, j | 0 <= i < j < |m| :: Fold(m[i].0) != Fold(m[j].0)
  }

  function Put(m: Values, key: string, value: string): (r: Values)
    ensures |r| >= 1
    ensures !HasKey(m, key) ==> r == m + [(key, value)]
  {
    if m == [] then [(key, value)]
    else if Fold(m[0].0) == Fold(key) then [(m[0].0, value)] + m[1..]
    else
      assert !HasKey(m, key) ==> !HasKey(m[1..], key) by {
        if i :| 0 <= i < |m[1..]| && Fold(m[1..][i].0) == Fold(key) { assert m[i + 1] == m[1..][i]; }
      }
      [m[0]] + Put(m[1..], key, value)
  }

  /** Put changes at most one place: the keys stay distinct and every pair is an old key or the new one. */
  lemma {:induction false} PutKeys(m: Values, key: string, value: string)
    ensures forall i | 0 <= i < |Put(m, key, value)| ::
      Put(m, key, value)[i] in m || (Put(m, key, value)[i].1 == value && (Put(m, key, value)[i].0 == key || (i < |m| && Put(m, key, value)[i].0 == m[i].0)))
    ensures DistinctKeys(m) ==> DistinctKeys(Put(m, key, value))
    decreases |m|
  {
    var r := Put(m, key, value);
    if m != [] && Fold(m[0].0) != Fold(key) {
      var rest := Put(m[1..], key, value);
      PutKeys(m[1..], key, value);
      assert forall i | 0 <= i < |rest| :: r[i + 1] == rest[i];
      forall i | 0 < i < |r|
        ensures r[i] in m || (r[i].1 == value && (r[i].0 == key || (i < |m| && r[i].0 == m[i].0)))
        ensures DistinctKeys(m) ==> Fold(r[0].0) != Fold(r[i].0)
      {
        assert r[i] == rest[i - 1];
      }
      if DistinctKeys(m) {
        assert DistinctKeys(m[1..]);
        forall i, j | 0 <= i < j < |r| ensures Fold(r[i].0) != Fold(r[j].0) {
          if i > 0 { assert r[i] == rest[i - 1] && r[j] == rest[j - 1]; }
        }
      }
    }
  }

  /** Assigning a key changes the value of that key alone; a new key goes to the end, an old one keeps its spelling. */
  lemma {:induction false} PutStores(m: Values, key: string, value: string)
    requires DistinctKeys(m)
    ensures var r := Put(m, key, value);
      && (forall i | 0 <= i < |m| :: i < |r| && r[i] == if Fold(m[i].0) == Fold(key) then (m[i].0, value) else m[i])
      && (if exists i | 0 <= i < |m| :: Fold(m[i].0) == Fold(key) then |r| == |m| else |r| == |m| + 1 && r[|m|] == (key, value))
    decreases |m|
  {
    hide Fold;
    if m != [] {
      if Fold(m[0].0) != Fold(key) {
        assert DistinctKeys(m[1..]);
        PutStores(m[1..], key, value);
        var rest, r := Put(m[1..], key, value), Put(m, key, value);
        assert r == [m[0]] + rest;
        forall i | 0 <= i < |m| ensures i < |r| && r[i] == if Fold(m[i].0) == Fold(key) then (m[i].0, value) else m[i] {
          if i > 0 { assert m[i] == m[1..][i - 1]; }
        }
        if i :| 0 <= i < |m| && Fold(m[i].0) == Fold(key) { assert m[1..][i - 1] == m[i]; }
      } else {
        assert forall i | 1 <= i < |m| :: Fold(m[i].0) != Fold(key);
      }
    }
  }

  // ---------------------------------------------------------------- numbers

  predicate IsDigit(c: char) { '0' <= c <= '9' }

  predicate AllDigits(s: string) { forall i | 0 <= i < |s| :: IsDigit(s[i]) }

  predicate IsWhite(c: char) { c == ' ' || '\t' <= c <= '\r' }

  function Decimal(n: nat): (s: string)
    ensures |s| >= 1 && forall i | 0 <= i < |s| :: IsDigit(s[i])
  {
    (if n < 10 then [] else Decimal(n / 10)) + [(n % 10) as char + '0']
  }

  function DigitsValue(s: string): nat
    requires forall i | 0 <= i < |s| :: IsDigit(s[i])
  {
    if s == [] then 0 else
      assert IsDigit(s[|s| - 1]);
      DigitsValue(s[..|s| - 1]) * 10 + (s[|s| - 1] - '0') as nat
  }

  function TrimStart(s: string): string {
    if s != [] && IsWhite(s[0]) then TrimStart(s[1..]) else s
  }

  function TrimEnd(s: string, white: bool): string {
    if s != [] && (if white then IsWhite(s[|s| - 1]) else s[|s| - 1] == '\0') then TrimEnd(s[..|s| - 1], white) else s
  }

  /** int.TryParse: white space around, one sign, digits, trailing nulls, and the 32-bit range. */
  function ParseInt(s: string): Option<int> {
    var t := TrimEnd(TrimEnd(TrimStart(s), false), true);
    var negative := t != [] && t[0] == '-';
    var digits := if t != [] && (t[0] == '-' || t[0] == '+') then t[1..] else t;
    if digits == [] || !AllDigits(digits) then None
    else
      var n: int := DigitsValue(digits);
      var signed := if negative then -n else n;
      if -0x8000_0000 <= signed <= INT_MAX then Some(signed) else None
  }

  const INT_MAX := 0x7FFF_FFFF

  lemma {:induction false} DecimalValue(n: nat)
    ensures DigitsValue(Decimal(n)) == n
    decreases n
  {
    DigitChar(n % 10);
    if n < 10 {
      assert Decimal(n) == [] + [n as char + '0'];
      DigitsAppend([], n as char + '0');
    } else {
      DecimalValue(n / 10);
      assert Decimal(n) == Decimal(n / 10) + [(n % 10) as char + '0'];
      DigitsAppend(Decimal(n / 10), (n % 10) as char + '0');
    }
  }

  lemma {:induction false} DigitChar(d: nat)
    requires d < 10
    ensures IsDigit(d as char + '0') && (d as char + '0' - '0') as nat == d
  {
  }

  lemma {:induction false} DigitsAppend(s: string, c: char)
    requires IsDigit(c) && forall i | 0 <= i < |s| :: IsDigit(s[i])
    ensures (forall i | 0 <= i < |s + [c]| :: IsDigit((s + [c])[i])) && DigitsValue(s + [c]) == DigitsValue(s) * 10 + (c - '0') as nat
  {
    assert (s + [c])[..|s + [c]| - 1] == s;
  }

  lemma {:induction false} ParseDecimal(n: nat)
    requires n <= INT_MAX
    ensures ParseInt(Decimal(n)) == Some(n)
  {
    DecimalValue(n);
    DigitsParse(Decimal(n));
  }

  lemma {:induction false} DigitsParse(s: string)
    requires s != "" && (forall i | 0 <= i < |s| :: IsDigit(s[i])) && DigitsValue(s) <= INT_MAX
    ensures ParseInt(s) == Some(DigitsValue(s))
  {
    hide DigitsValue;
    assert IsDigit(s[0]) && IsDigit(s[|s| - 1]);
    assert TrimStart(s) == s && TrimEnd(s, false) == s && TrimEnd(s, true) == s;
  }

  // ---------------------------------------------------------------- printing and parsing

  /** EncodeKeyValue */
  function Encode(pair: (string, string)): string {
    "[" + pair.0 + "=" + Decimal(|pair.1|) + ":" + pair.1 + "]"
  }

  function EncodeAll(m: Values): string {
    if m == [] then "" else EncodeAll(m[..|m| - 1]) + Encode(m[|m| - 1])
  }

  function Print(prefix: string, m: Values): string {
    prefix + EncodeAll(m)
  }

  /** string.IndexOf(c, from): the first place at or after from, or -1. */
  function IndexOf(s: string, c: char, from: nat): (r: int)
    requires from <= |s|
    ensures r == -1 || from <= r < |s|
    ensures r == -1 ==> forall i | from <= i < |s| :: s[i] != c
    ensures r != -1 ==> s[r] == c && forall i | from <= i < r :: s[i] != c
    decreases |s| - from
  {
    if from == |s| then -1 else if s[from] == c then from else IndexOf(s, c, from + 1)
  }

  /** One block between '[' and ']': its key and value, or a refusal. */
  function ParseBlock(block: string): Option<(string, string)> {
    var eq, colon := IndexOf(block, '=', 0), IndexOf(block, ':', 0);
    if eq <= 0 || colon <= eq then None
    else
      var length := ParseInt(block[eq + 1..colon]);
      if length == None || |block[colon + 1..]| != length.value then None
      else Some((block[..eq], block[colon + 1..]))
  }

  function ParseFrom(input: string, index: nat, m: Values): Option<Values>
    requires index <= |input|
    decreases |input| - index
  {
    if index == |input| then Some(m)
    else if input[index] != '[' then None
    else
      var close := IndexOf(input, ']', index);
      if close == -1 then None
      else
        var pair := ParseBlock(input[index + 1..close]);
        if pair == None then None else ParseFrom(input, close + 1, Put(m, pair.value.0, pair.value.1))
  }

  /** What TryParse returns; None is false. */
  function Parse(input: string, prefix: string): Option<Values> {
    if input == "" || !(prefix <= input) then None else ParseFrom(input, |prefix|, [])
  }

  // ---------------------------------------------------------------- the class

  class Message {
    const prefix: string
    var values: Values

    /** A dictionary holds no key twice, whatever its case. */
    ghost predicate Valid()
      reads this
    {
      DistinctKeys(values)
    }

    constructor (prefix: string)
      ensures Valid() && this.prefix == prefix && values == []
    {
      this.prefix := prefix;
      values := [];
    }

    method Add(key: string, value: Option<string>)
      requires Valid()
      modifies this
      ensures Valid() && values == Put(old(values), key, if value.Some? then value.value else "")
    {
      PutKeys(values, key, if value.Some? then value.value else "");
      values := Put(values, key, if value.Some? then value.value else "");
    }

    method ToString() returns (s: string)
      requires Valid()
      ensures s == Print(prefix, values)
      ensures Parse(s, prefix) == Some(values) <==> AllPrintable(values) && (prefix != "" || values != [])
    {
      hide Parse, Encode, AllPrintable, DistinctKeys;
      s := prefix;
      var i := 0;
      while i < |values|
        invariant i <= |values| && s == prefix + EncodeAll(values[..i])
      {
        assert values[..i + 1][..i] == values[..i];
        s := s + Encode(values[i]);
        i := i + 1;
      }
      assert values[..i] == values;
      hide EncodeAll;
      RoundTripIsExact(prefix, values);
    }

    static method TryParse(input: string, expectedPrefix: string) returns (ok: bool, message: Message?)
      ensures ok <==> Parse(input, expectedPrefix).Some?
      ensures ok <==> message != null
      ensures ok ==> fresh(message) && message.Valid() && AllPrintable(message.values)
      ensures ok ==> message.prefix == expectedPrefix && message.values == Parse(input, expectedPrefix).value
    {
      hide ParseInt, Put, IndexOf, ParseFrom, ParseBlock, DistinctKeys, AllPrintable;
      EmptyCases(input, []);
      ok, message := false, null;
      if input == "" || !(expectedPrefix <= input) { return; }
      var result := new Message(expectedPrefix);
      var index := |expectedPrefix|;
      while index < |input|
        invariant index <= |input| && fresh(result) && result.Valid() && result.prefix == expectedPrefix
        invariant ParseFrom(input, index, result.values) == Parse(input, expectedPrefix)
        decreases |input| - index
      {
        ParseStep(input, index, result.values);
        if input[index] != '[' { return; }
        var close := IndexOf(input, ']', index);
        if close == -1 { return; }
        var block := input[index + 1..close];
        var eq, colon := IndexOf(block, '=', 0), IndexOf(block, ':', 0);
        if eq <= 0 || colon <= eq { return; }
        var length := ParseInt(block[eq + 1..colon]);
        if length == None { return; }
        var value := block[colon + 1..];
        if |value| != length.value { return; }
        result.Add(block[..eq], Some(value));
        index := close + 1;
      }
      ParseEnd(input, result.values);
      AcceptedFromStart(input, expectedPrefix);
      ok, message := true, result;
    }
  }

  /** One turn of the parsing loop. */
  lemma {:induction false} ParseStep(input: string, index: nat, m: Values)
    requires index < |input|
    ensures ParseFrom(input, index, m) ==
      if input[index] != '[' then None
      else
        var close := IndexOf(input, ']', index);
        if close == -1 then None
        else
          var block := input[index + 1..close];
          var eq, colon := IndexOf(block, '=', 0), IndexOf(block, ':', 0);
          if eq <= 0 || colon <= eq then None
          else
            var length := ParseInt(block[eq + 1..colon]);
            if length == None || |block[colon + 1..]| != length.value then None
            else ParseFrom(input, close + 1, Put(m, block[..eq], block[colon + 1..]))
  {
    hide ParseInt, Put, IndexOf, Decimal, DigitsValue, TrimStart, TrimEnd;
  }

  lemma {:induction false} ParseEnd(input: string, m: Values)
    ensures ParseFrom(input, |input|, m) == Some(m)
  {
  }

  // ---------------------------------------------------------------- round trips

  predicate Without(s: string, c: char) { c !in s }

  /** What a key and a value must satisfy to survive printing and parsing (a .NET string is never longer than INT_MAX). */
  predicate Printable(pair: (string, string)) {
    && pair.0 != "" && Without(pair.0, '=') && Without(pair.0, ':') && Without(pair.0, ']')
    && Without(pair.1, ']') && |pair.1| <= INT_MAX
  }

  ghost predicate AllPrintable(m: Values) {
    forall i | 0 <= i < |m| :: Printable(m[i])
  }

  lemma {:induction false} FirstIndex(s: string, c: char, from: nat, at: nat)
    requires from <= at < |s| && s[at] == c && forall i | from <= i < at :: s[i] != c
    ensures IndexOf(s, c, from) == at
  {
  }

  lemma {:induction false} BlockRoundTrip(pair: (string, string))
    requires Printable(pair)
    ensures ParseBlock(pair.0 + "=" + Decimal(|pair.1|) + ":" + pair.1) == Some(pair)
  {
    var (key, value) := pair;
    var n := Decimal(|value|);
    ParseDecimal(|value|);
    BlockSlices(key, n, value);
    Separators(key, n, value);
    hide ParseInt, Decimal, IndexOf, ParseBlock;
    var block := key + "=" + n + ":" + value;
    assert |block| == |key| + 2 + |n| + |value|;
    BlockParses(block, key, n, value);
  }

  lemma {:induction false} BlockParses(block: string, key: string, n: string, value: string)
    requires key != "" && ParseInt(n) == Some(|value|) && |block| == |key| + 2 + |n| + |value|
    requires IndexOf(block, '=', 0) == |key| && IndexOf(block, ':', 0) == |key| + 1 + |n|
    requires block[..|key|] == key && block[|key| + 1..|key| + 1 + |n|] == n && block[|key| + 2 + |n|..] == value
    ensures ParseBlock(block) == Some((key, value))
  {
  }

  lemma {:induction false} Separators(key: string, n: string, value: string)
    requires '=' !in key && ':' !in key && forall i | 0 <= i < |n| :: IsDigit(n[i])
    ensures IndexOf(key + "=" + n + ":" + value, '=', 0) == |key|
    ensures IndexOf(key + "=" + n + ":" + value, ':', 0) == |key| + 1 + |n|
  {
    hide IndexOf;
    var block, eq, colon := key + "=" + n + ":" + value, |key|, |key| + 1 + |n|;
    forall i | 0 <= i < eq ensures block[i] != '=' && block[i] != ':' { assert block[i] == key[i]; }
    forall i | eq < i < colon ensures block[i] != ':' { assert block[i] == n[i - eq - 1]; }
    FirstIndex(block, '=', 0, eq);
    FirstIndex(block, ':', 0, colon);
  }

  lemma {:induction false} BlockSlices(key: string, n: string, value: string)
    ensures var block, eq, colon := key + "=" + n + ":" + value, |key|, |key| + 1 + |n|;
      && block[..eq] == key && block[eq] == '=' && block[eq + 1..colon] == n && block[colon] == ':' && block[colon + 1..] == value
      && "[" + block + "]" == "[" + key + "=" + n + ":" + value + "]"
  {
  }

  lemma {:induction false} BodyHasNoClose(pair: (string, string))
    requires Printable(pair)
    ensures ']' !in pair.0 + "=" + Decimal(|pair.1|) + ":" + pair.1
  {
    var n := Decimal(|pair.1|);
    forall i | 0 <= i < |n| ensures n[i] != ']' { assert IsDigit(n[i]); }
  }

  /** Parsing the printed form of one more pair. */
  lemma {:induction false} ParseOne(before: string, pair: (string, string), after: string, m: Values)
    requires Printable(pair)
    ensures ParseFrom(before + Encode(pair) + after, |before|, m)
         == ParseFrom(before + Encode(pair) + after, |before| + |Encode(pair)|, Put(m, pair.0, pair.1))
  {
    hide ParseBlock, Put, Printable, ParseFrom, Encode;
    var body := EncodeBody(pair);
    ParseBracketed(before, body, after, m);
  }

  lemma {:induction false} EncodeBody(pair: (string, string)) returns (body: string)
    requires Printable(pair)
    ensures Encode(pair) == "[" + body + "]" && ']' !in body && ParseBlock(body) == Some(pair)
  {
    body := pair.0 + "=" + Decimal(|pair.1|) + ":" + pair.1;
    BodyHasNoClose(pair);
    BlockRoundTrip(pair);
    hide ParseBlock, Decimal;
    BlockSlices(pair.0, Decimal(|pair.1|), pair.1);
  }

  lemma {:induction false} ParseBracketed(before: string, body: string, after: string, m: Values)
    requires ']' !in body && ParseBlock(body).Some?
    ensures var input, pair := before + ("[" + body + "]") + after, ParseBlock(body).value;
      ParseFrom(input, |before|, m) == ParseFrom(input, |before| + |body| + 2, Put(m, pair.0, pair.1))
  {
    hide ParseBlock, Put;
    var input := before + ("[" + body + "]") + after;
    var close := |before| + 1 + |body|;
    assert input[|before|] == '[' && input[close] == ']' && input[|before| + 1..close] == body;
    forall i | |before| <= i < close ensures input[i] != ']' {
      if i > |before| { assert input[i] == body[i - |before| - 1]; }
    }
    FirstIndex(input, ']', |before|, close);
  }

  lemma {:induction false} EncodeNonEmpty(pair: (string, string))
    ensures Encode(pair) != ""
  {
  }

  lemma {:induction false} EncodeAllFrom(m: Values, i: nat)
    requires i < |m|
    ensures EncodeAll(m[..i + 1]) == EncodeAll(m[..i]) + Encode(m[i])
  {
    assert m[..i + 1][..i] == m[..i];
  }

  /** The printed form of the pairs from the front. */
  function EncodeTail(m: Values): string {
    if m == [] then "" else Encode(m[0]) + EncodeTail(m[1..])
  }

  lemma {:induction false} EncodeSplits(m: Values, i: nat)
    requires i <= |m|
    ensures EncodeAll(m) == EncodeAll(m[..i]) + EncodeTail(m[i..])
    decreases |m| - i
  {
    hide Encode;
    if i == |m| {
      assert m[..i] == m;
    } else {
      EncodeSplits(m, i + 1);
      EncodeAllFrom(m, i);
      assert m[i..][1..] == m[i + 1..];
      assert EncodeAll(m) == EncodeAll(m[..i]) + (Encode(m[i]) + EncodeTail(m[i + 1..]));
    }
  }

  /** One pair of the printed message is read. */
  lemma {:induction false} ParseNext(prefix: string, m: Values, i: nat)
    requires i < |m| && AllPrintable(m) && DistinctKeys(m)
    ensures |prefix| + |EncodeAll(m[..i])| <= |Print(prefix, m)| && |prefix| + |EncodeAll(m[..i + 1])| <= |Print(prefix, m)|
    ensures ParseFrom(Print(prefix, m), |prefix| + |EncodeAll(m[..i])|, m[..i])
         == ParseFrom(Print(prefix, m), |prefix| + |EncodeAll(m[..i + 1])|, m[..i + 1])
  {
    hide ParseFrom, Encode, Printable, Put;
    EncodeSplits(m, i + 1);
    EncodeAllFrom(m, i);
    var before, after := prefix + EncodeAll(m[..i]), EncodeTail(m[i + 1..]);
    assert Print(prefix, m) == before + Encode(m[i]) + after;
    ParseOne(before, m[i], after, m[..i]);
    PutNext(m, i);
    hide Print, EncodeAll, EncodeTail, DistinctKeys;
  }

  lemma {:induction false} ParsePrinted(prefix: string, m: Values, i: nat)
    requires i <= |m| && AllPrintable(m) && DistinctKeys(m)
    ensures |prefix| + |EncodeAll(m[..i])| <= |Print(prefix, m)|
    ensures ParseFrom(Print(prefix, m), |prefix|, []) == ParseFrom(Print(prefix, m), |prefix| + |EncodeAll(m[..i])|, m[..i])
  {
    if i > 0 {
      hide ParseFrom, EncodeAll, Print, AllPrintable, DistinctKeys;
      ParsePrinted(prefix, m, i - 1);
      ParseNext(prefix, m, i - 1);
    } else {
      hide ParseFrom;
    }
  }

  lemma {:induction false} PutNext(m: Values, i: nat)
    requires i < |m| && DistinctKeys(m)
    ensures Put(m[..i], m[i].0, m[i].1) == m[..i + 1]
  {
    hide Put;
    assert !HasKey(m[..i], m[i].0);
    assert m[..i] + [(m[i].0, m[i].1)] == m[..i + 1];
  }

  lemma {:induction false} AcceptedBlock(block: string)
    requires ']' !in block && ParseBlock(block).Some?
    ensures Printable(ParseBlock(block).value)
  {
    var eq, colon := IndexOf(block, '=', 0), IndexOf(block, ':', 0);
    var (key, value) := ParseBlock(block).value;
    IntRange(block[eq + 1..colon]);
    hide ParseInt;
    assert key == block[..eq] && value == block[colon + 1..];
    assert forall c | c in key :: c in block;
    assert forall c | c in value :: c in block;
  }

  lemma {:induction false} IntRange(s: string)
    ensures ParseInt(s).Some? ==> ParseInt(s).value <= INT_MAX
  {
  }

  /** Everything the parser accepts is printable, with distinct keys, and is not empty once a block was read. */
  lemma {:induction false} AcceptedIsPrintable(input: string, index: nat, m: Values)
    requires index <= |input| && AllPrintable(m) && DistinctKeys(m)
    requires ParseFrom(input, index, m).Some?
    ensures AllPrintable(ParseFrom(input, index, m).value) && DistinctKeys(ParseFrom(input, index, m).value)
    ensures index < |input| || m != [] ==> ParseFrom(input, index, m).value != []
    decreases |input| - index
  {
    hide ParseBlock, Printable, Put, DistinctKeys;
    if index < |input| {
      var close := IndexOf(input, ']', index);
      var block := input[index + 1..close];
      AcceptedBlock(block);
      var (key, value) := ParseBlock(block).value;
      PutKeys(m, key, value);
      PutPrintable(m, key, value);
      AcceptedIsPrintable(input, close + 1, Put(m, key, value));
    }
  }

  lemma {:induction false} PutPrintable(m: Values, key: string, value: string)
    requires AllPrintable(m) && Printable((key, value))
    ensures AllPrintable(Put(m, key, value))
  {
    hide Put;
    PutKeys(m, key, value);
    var r := Put(m, key, value);
    forall i | 0 <= i < |r| ensures Printable(r[i]) {
      if r[i] in m { var j :| 0 <= j < |m| && m[j] == r[i]; }
      else { assert i < |m| ==> Printable(m[i]); }
    }
  }

  /**
   * Print then parse: a message comes back, in order and in its own spelling, exactly when its keys and
   * values are printable and something was printed at all.
   */
  lemma {:induction false} RoundTripIsExact(prefix: string, m: Values)
    requires DistinctKeys(m)
    ensures Parse(Print(prefix, m), prefix) == Some(m) <==> AllPrintable(m) && (prefix != "" || m != [])
  {
    hide ParseFrom, Encode, Printable, Put, AllPrintable, DistinctKeys;
    var input := Print(prefix, m);
    assert prefix <= input;
    assert AllPrintable([]) && DistinctKeys([]) && ParseFrom(input, |input|, m) == Some(m) by { EmptyCases(input, m); }
    if AllPrintable(m) && (prefix != "" || m != []) {
      ParsePrinted(prefix, m, |m|);
      assert m[..|m|] == m;
      if m != [] { EncodeAllFrom(m, |m| - 1); assert Encode(m[|m| - 1]) != "" by { EncodeNonEmpty(m[|m| - 1]); } }
    }
    if prefix == "" && m == [] { assert input == ""; }
    if Parse(input, prefix) == Some(m) {
      AcceptedIsPrintable(input, |prefix|, []);
    }
  }

  lemma {:induction false} EmptyCases(input: string, m: Values)
    ensures AllPrintable([]) && DistinctKeys([]) && ParseFrom(input, |input|, m) == Some(m)
  {
  }

  /** What TryParse accepts is printable and has distinct keys, and with an empty prefix it is not empty. */
  lemma {:induction false} AcceptedFromStart(input: string, prefix: string)
    requires Parse(input, prefix).Some?
    ensures AllPrintable(Parse(input, prefix).value) && DistinctKeys(Parse(input, prefix).value)
    ensures prefix != "" || Parse(input, prefix).value != []
  {
    hide ParseFrom, AllPrintable, DistinctKeys;
    EmptyCases(input, []);
    AcceptedIsPrintable(input, |prefix|, []);
  }

  /** Normal form: whatever was accepted, however it spelled its lengths, prints to something that parses to the same message. */
  lemma {:induction false} AcceptedNormalizes(input: string, prefix: string)
    requires Parse(input, prefix).Some?
    ensures var m := Parse(input, prefix).value; Parse(Print(prefix, m), prefix) == Some(m)
  {
    hide ParseFrom, Encode, Printable, Put, AllPrintable, DistinctKeys;
    AcceptedFromStart(input, prefix);
    RoundTripIsExact(prefix, Parse(input, prefix).value);
  }

  // ---------------------------------------------------------------- the grammar

  /** A block as written: the key, the spelling of the length, and the value. */
  datatype Block = Block(key: string, length: string, value: string)

  /** The written block can be read back: its separators are unambiguous and its length is right. */
  predicate Readable(b: Block) {
    && b.key != "" && Without(b.key, '=') && Without(b.key, ':') && Without(b.key, ']')
    && Without(b.length, ':') && Without(b.length, ']') && ParseInt(b.length) == Some(|b.value|)
    && Without(b.value, ']')
  }

  function WrittenBlock(b: Block): string {
    "[" + (b.key + "=" + b.length + ":" + b.value) + "]"
  }

  function Written(blocks: seq<Block>): string {
    if blocks == [] then "" else WrittenBlock(blocks[0]) + Written(blocks[1..])
  }

  /** The blocks' values assigned in order. */
  function Assigned(m: Values, blocks: seq<Block>): Values
    decreases |blocks|
  {
    if blocks == [] then m else Assigned(Put(m, blocks[0].key, blocks[0].value), blocks[1..])
  }

  ghost predicate AllReadable(blocks: seq<Block>) {
    forall i | 0 <= i < |blocks| :: Readable(blocks[i])
  }

  lemma {:induction false} ReadableParses(b: Block)
    requires Readable(b)
    ensures ParseBlock(b.key + "=" + b.length + ":" + b.value) == Some((b.key, b.value))
    ensures ']' !in b.key + "=" + b.length + ":" + b.value
  {
    var block := b.key + "=" + b.length + ":" + b.value;
    BlockSlices(b.key, b.length, b.value);
    var eq, colon := |b.key|, |b.key| + 1 + |b.length|;
    forall i | 0 <= i < colon ensures i < eq ==> block[i] != '=' && block[i] != ':'
      ensures i > eq ==> block[i] != ':'
    {
      if i < eq { assert block[i] == b.key[i]; } else if i > eq { assert block[i] == b.length[i - eq - 1]; }
    }
    FirstIndex(block, '=', 0, eq);
    FirstIndex(block, ':', 0, colon);
    hide ParseInt, IndexOf, ParseBlock;
    BlockParses(block, b.key, b.length, b.value);
  }

  /** Text written in the grammar is accepted, and yields its assignments. */
  lemma {:induction false} WrittenIsAccepted(before: string, blocks: seq<Block>, m: Values)
    requires AllReadable(blocks)
    ensures ParseFrom(before + Written(blocks), |before|, m) == Some(Assigned(m, blocks))
    decreases |blocks|
  {
    hide ParseFrom, ParseBlock, Put, Readable;
    if blocks == [] {
      assert before + Written(blocks) == before;
      ParseEnd(before, m);
    } else {
      var b, rest := blocks[0], blocks[1..];
      var body := b.key + "=" + b.length + ":" + b.value;
      ReadableParses(b);
      ParseBracketed(before, body, Written(rest), m);
      var next := before + ("[" + body + "]");
      assert blocks == [b] + rest;
      WrittenFirst(b, rest, m);
      hide Written, Assigned;
      assert before + Written(blocks) == next + Written(rest);
      WrittenIsAccepted(next, rest, Put(m, b.key, b.value));
    }
  }

  /** An accepted block was readable. */
  lemma {:induction false} AcceptedBlockIsReadable(block: string) returns (b: Block)
    requires ']' !in block && ParseBlock(block).Some?
    ensures Readable(b) && block == b.key + "=" + b.length + ":" + b.value && ParseBlock(block) == Some((b.key, b.value))
  {
    AcceptedBlock(block);
    var eq, colon := IndexOf(block, '=', 0), IndexOf(block, ':', 0);
    b := Block(block[..eq], block[eq + 1..colon], block[colon + 1..]);
    assert forall i | 0 <= i < |b.length| :: b.length[i] == block[eq + 1 + i];
    hide ParseInt, IndexOf, ParseBlock;
    Rejoined(block, eq, colon);
  }

  lemma {:induction false} Rejoined(block: string, eq: nat, colon: nat)
    requires eq < colon < |block| && block[eq] == '=' && block[colon] == ':'
    ensures block == block[..eq] + "=" + block[eq + 1..colon] + ":" + block[colon + 1..]
    ensures forall c | c in block[eq + 1..colon] :: c in block
  {
  }

  /** Accepted text is written in the grammar. */
  lemma {:induction false} AcceptedIsWritten(input: string, index: nat, m: Values) returns (blocks: seq<Block>)
    requires index <= |input| && ParseFrom(input, index, m).Some?
    ensures AllReadable(blocks) && input[index..] == Written(blocks) && ParseFrom(input, index, m) == Some(Assigned(m, blocks))
    decreases |input| - index
  {
    blocks := [];
    if index < |input| {
      var next, b := AcceptedTurn(input, index, m);
      hide ParseFrom, Put, Readable, WrittenBlock;
      var rest := AcceptedIsWritten(input, next, Put(m, b.key, b.value));
      blocks := [b] + rest;
      WrittenFirst(b, rest, m);
      hide Written, Assigned, AllReadable;
    } else {
      hide Readable;
    }
  }

  /** One accepted block, and where the next begins. */
  lemma {:induction false} AcceptedTurn(input: string, index: nat, m: Values) returns (next: nat, b: Block)
    requires index < |input| && ParseFrom(input, index, m).Some?
    ensures index < next <= |input| && Readable(b) && input[index..] == WrittenBlock(b) + input[next..]
    ensures ParseFrom(input, index, m) == ParseFrom(input, next, Put(m, b.key, b.value))
  {
    hide ParseBlock, Put, Readable;
    var close := IndexOf(input, ']', index);
    var block := input[index + 1..close];
    b := AcceptedBlockIsReadable(block);
    next := close + 1;
    hide IndexOf;
    assert input[index..] == "[" + block + "]" + input[close + 1..];
  }

  lemma {:induction false} WrittenFirst(b: Block, rest: seq<Block>, m: Values)
    ensures Written([b] + rest) == WrittenBlock(b) + Written(rest)
    ensures Assigned(m, [b] + rest) == Assigned(Put(m, b.key, b.value), rest)
    ensures AllReadable([b] + rest) <==> Readable(b) && AllReadable(rest)
  {
    hide Put, Readable;
    var blocks := [b] + rest;
    assert blocks[0] == b && blocks[1..] == rest;
    if Readable(b) && AllReadable(rest) {
      forall i | 0 <= i < |blocks| ensures Readable(blocks[i]) { if i > 0 { assert blocks[i] == rest[i - 1]; } }
    }
    if AllReadable(blocks) {
      forall i | 0 <= i < |rest| ensures Readable(rest[i]) { assert blocks[i + 1] == rest[i]; }
    }
  }

  /** A text is accepted exactly when it is the prefix followed by readable blocks, and not empty; it yields their assignments. */
  lemma {:induction false} ParseIsGrammar(input: string, prefix: string, m: Values)
    ensures Parse(input, prefix) == Some(m) <==>
      input != "" && exists blocks :: AllReadable(blocks) && input == prefix + Written(blocks) && m == Assigned([], blocks)
  {
    hide ParseFrom, AllReadable, Written, Assigned;
    if Parse(input, prefix) == Some(m) {
      var blocks := AcceptedIsWritten(input, |prefix|, []);
      assert input == prefix + input[|prefix|..];
    }
    if blocks :| AllReadable(blocks) && input == prefix + Written(blocks) && m == Assigned([], blocks) {
      WrittenIsAccepted(prefix, blocks, []);
      assert prefix <= input;
    }
  }

  /** The blocks a message is printed as: each length in plain decimal. */
  function Blocks(m: Values): seq<Block> {
    if m == [] then [] else [Block(m[0].0, Decimal(|m[0].1|), m[0].1)] + Blocks(m[1..])
  }

  /** A message prints to its prefix and its pairs' blocks, in order. */
  lemma {:induction false} PrintIsWritten(prefix: string, m: Values)
    ensures Print(prefix, m) == prefix + Written(Blocks(m))
  {
    TailIsWritten(m);
    EncodeSplits(m, 0);
    assert m[..0] == [] && m[0..] == m;
  }

  lemma {:induction false} TailIsWritten(m: Values)
    ensures EncodeTail(m) == Written(Blocks(m))
    decreases |m|
  {
    if m != [] {
      TailIsWritten(m[1..]);
      assert Blocks(m)[1..] == Blocks(m[1..]);
    }
  }

  // ---------------------------------------------------------------- spellings of a length

  predicate AllWhite(s: string) { forall i | 0 <= i < |s| :: IsWhite(s[i]) }

  predicate AllNull(s: string) { forall i | 0 <= i < |s| :: s[i] == '\0' }

  function Signed(negative: bool, n: int): int { if negative then -n else n }

  /** s spells n: white space, perhaps a sign, digits, white space, trailing nulls. */
  predicate Spells(s: string, before: string, sign: string, digits: string, after: string, nulls: string, n: int) {
    && s == before + sign + digits + after + nulls
    && AllWhite(before) && AllWhite(after) && AllNull(nulls) && (sign == "" || sign == "+" || sign == "-")
    && digits != "" && AllDigits(digits) && n == Signed(sign == "-", DigitsValue(digits))
  }

  lemma {:induction false} TrimStartSplits(s: string) returns (before: string)
    ensures AllWhite(before) && s == before + TrimStart(s) && (TrimStart(s) != "" ==> !IsWhite(TrimStart(s)[0]))
    decreases |s|
  {
    before := "";
    if s != [] && IsWhite(s[0]) {
      before := TrimStartSplits(s[1..]);
      before := [s[0]] + before;
    }
  }

  lemma {:induction false} TrimEndSplits(s: string, white: bool) returns (tail: string)
    ensures (if white then AllWhite(tail) else AllNull(tail)) && s == TrimEnd(s, white) + tail
    ensures var t := TrimEnd(s, white); t != "" ==> !(if white then IsWhite(t[|t| - 1]) else t[|t| - 1] == '\0')
    decreases |s|
  {
    tail := "";
    if s != [] && (if white then IsWhite(s[|s| - 1]) else s[|s| - 1] == '\0') {
      tail := TrimEndSplits(s[..|s| - 1], white);
      tail := tail + [s[|s| - 1]];
    }
  }

  lemma {:induction false} TrimStartOf(before: string, rest: string)
    requires AllWhite(before) && rest != "" && !IsWhite(rest[0])
    ensures TrimStart(before + rest) == rest
    decreases |before|
  {
    if before == "" { assert before + rest == rest; }
    else {
      assert (before + rest)[1..] == before[1..] + rest;
      TrimStartOf(before[1..], rest);
    }
  }

  lemma {:induction false} TrimEndOf(rest: string, tail: string, white: bool)
    requires if white then AllWhite(tail) else AllNull(tail)
    requires rest != "" && !(if white then IsWhite(rest[|rest| - 1]) else rest[|rest| - 1] == '\0')
    ensures TrimEnd(rest + tail, white) == rest
    decreases |tail|
  {
    if tail == "" { assert rest + tail == rest; }
    else {
      assert (rest + tail)[..|rest + tail| - 1] == rest + tail[..|tail| - 1];
      TrimEndOf(rest, tail[..|tail| - 1], white);
    }
  }

  /** A number is read exactly from its spellings, within the 32-bit range. */
  lemma {:induction false} ParseIntIsSpelling(s: string, n: int)
    ensures ParseInt(s) == Some(n) <==>
      -0x8000_0000 <= n <= 0x7FFF_FFFF && exists before, sign, digits, after, nulls :: Spells(s, before, sign, digits, after, nulls, n)
  {
    hide DigitsValue, TrimStart, TrimEnd;
    if ParseInt(s) == Some(n) {
      var before, nulls, after, sign, digits := ParsedSpells(s, n);
      assert Spells(s, before, sign, digits, after, nulls, n);
    }
    if before, sign, digits, after, nulls :| Spells(s, before, sign, digits, after, nulls, n) {
      if -0x8000_0000 <= n <= 0x7FFF_FFFF { SpellingParses(s, before, sign, digits, after, nulls, n); }
    }
  }

  lemma {:induction false} ParsedSpells(s: string, n: int) returns (before: string, nulls: string, after: string, sign: string, digits: string)
    requires ParseInt(s) == Some(n)
    ensures Spells(s, before, sign, digits, after, nulls, n) && -0x8000_0000 <= n <= 0x7FFF_FFFF
  {
    before := TrimStartSplits(s);
    nulls := TrimEndSplits(TrimStart(s), false);
    after := TrimEndSplits(TrimEnd(TrimStart(s), false), true);
    var t := TrimEnd(TrimEnd(TrimStart(s), false), true);
    sign, digits := ParsedDigits(s, t, n);
    hide ParseInt, TrimStart, TrimEnd, DigitsValue, AllDigits, AllWhite, AllNull, IsWhite;
    Regroup(before, sign, digits, after, nulls);
  }

  lemma {:induction false} Regroup(a: string, b: string, c: string, d: string, e: string)
    ensures a + (((b + c) + d) + e) == a + b + c + d + e
  {
  }

  lemma {:induction false} ParsedDigits(s: string, t: string, n: int) returns (sign: string, digits: string)
    requires ParseInt(s) == Some(n) && t == TrimEnd(TrimEnd(TrimStart(s), false), true)
    ensures t == sign + digits && digits != "" && AllDigits(digits) && (sign == "" || sign == "+" || sign == "-")
    ensures n == Signed(sign == "-", DigitsValue(digits)) && -0x8000_0000 <= n <= 0x7FFF_FFFF
  {
    hide TrimStart, TrimEnd, DigitsValue;
    sign := if t[0] == '-' then "-" else if t[0] == '+' then "+" else "";
    digits := if t[0] == '-' || t[0] == '+' then t[1..] else t;
    assert t == [t[0]] + t[1..];
  }

  lemma {:induction false} SpellingParses(s: string, before: string, sign: string, digits: string, after: string, nulls: string, n: int)
    requires Spells(s, before, sign, digits, after, nulls, n) && -0x8000_0000 <= n <= 0x7FFF_FFFF
    ensures ParseInt(s) == Some(n)
  {
    var t := sign + digits;
    assert IsDigit(digits[0]) && IsDigit(digits[|digits| - 1]);
    assert t[|t| - 1] == digits[|digits| - 1] && (t[0] == digits[0] || t[0] == '+' || t[0] == '-');
    assert s == before + ((t + after) + nulls);
    assert ((t + after) + nulls)[0] == t[0];
    TrimStartOf(before, (t + after) + nulls);
    assert (t + after)[|t + after| - 1] == if after == "" then t[|t| - 1] else after[|after| - 1];
    TrimEndOf(t + after, nulls, false);
    TrimEndOf(t, after, true);
    hide TrimStart, TrimEnd, DigitsValue, IsDigit, IsWhite;
    assert TrimEnd(TrimEnd(TrimStart(s), false), true) == t;
    if sign == "" { assert t == digits; } else { assert t[0] == sign[0] && t[1..] == digits; }
    SignedDigits(s, t, sign, digits, n);
  }

  /** What is left after trimming, read as a sign and digits. */
  lemma {:induction false} SignedDigits(s: string, t: string, sign: string, digits: string, n: int)
    requires t == TrimEnd(TrimEnd(TrimStart(s), false), true) && digits != "" && AllDigits(digits)
    requires n == Signed(sign == "-", DigitsValue(digits)) && -0x8000_0000 <= n <= 0x7FFF_FFFF
    requires if sign == "" then t == digits else (sign == "+" || sign == "-") && t != "" && t[0] == sign[0] && t[1..] == digits
    ensures ParseInt(s) == Some(n)
  {
    assert IsDigit(digits[0]);
    hide TrimStart, TrimEnd, DigitsValue;
  }
}
