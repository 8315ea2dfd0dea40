/** Streaming the reply out of a JSON answer (_JsonReplyStreamer in app/hiagent.py): after
    every chunk the reply's decoded prefix is computed from all text so far, and what is
    new is passed on.

    A text is a sequence of code points, as chr can also produce surrogates.  What
    Python's int(digits, 16) makes of four characters is a parameter, `parse`. */
module ReplyStreamer {
  import opened Wrappers
  import opened PythonText

  type Point = n: int | 0 <= n < 0x110000 witness 0
  type Text = seq<Point>
  type Parser = Text -> Option<Point>

  const QUOTE: Point := 0x22
  const BACKSLASH: Point := 0x5c
  const COLON: Point := 0x3a
  const LETTER_U: Point := 0x75

  /** "reply" with its quotes. */
  const KEY: Text := [0x22, 0x72, 0x65, 0x70, 0x6c, 0x79, 0x22]

  /** The eight short escapes of section 7 of RFC 8259. */
  function ShortEscape(marker: Point): Option<Point> {
    if marker == QUOTE || marker == BACKSLASH || marker == 0x2f then Some(marker)
    else if marker == 0x62 then Some(0x08)
    else if marker == 0x66 then Some(0x0c)
    else if marker == 0x6e then Some(0x0a)
    else if marker == 0x72 then Some(0x0d)
    else if marker == 0x74 then Some(0x09)
    else None
  }

  // ----- Finding the key -----

  function SkipSpaces(t: Text, i: nat): (j: nat)
    ensures i <= |t| ==> i <= j <= |t|
    decreases |t| - i
  {
    if i < |t| && IsSpaceCode(t[i]) then SkipSpaces(t, i + 1) else i
  }

  /** Where the pattern "reply"\s*:\s*" ends if it matches at `p`. */
  function MatchEnd(t: Text, p: nat): (e: Option<nat>)
    ensures e.Some? ==> p + 9 <= e.value <= |t|
  {
    if p + 7 > |t| || t[p..p + 7] != KEY then None
    else
      var q := SkipSpaces(t, p + 7);
      if q >= |t| || t[q] != COLON then None
      else
        var r := SkipSpaces(t, q + 1);
        if r >= |t| || t[r] != QUOTE then None else Some(r + 1)
  }

  /** The end of the first match from `p` on. */
  function SearchFrom(t: Text, p: nat): (e: Option<nat>)
    ensures e.Some? ==> e.value <= |t|
    decreases |t| - p
  {
    if p >= |t| then None
    else if MatchEnd(t, p).Some? then MatchEnd(t, p)
    else SearchFrom(t, p + 1)
  }

  // ----- Decoding -----

  /** One step at `i`: the point decoded there and how far it reaches, or None to stop. */
  function DecodeAt(t: Text, i: nat, parse: Parser): (s: Option<(Point, nat)>)
    requires i < |t|
    ensures s.Some? ==> i < s.value.1 <= |t|
  {
    if t[i] == QUOTE then None
    else if t[i] != BACKSLASH then Some((t[i], i + 1))
    else if i + 1 >= |t| then None
    else if ShortEscape(t[i + 1]).Some? then Some((ShortEscape(t[i + 1]).value, i + 2))
    else if t[i + 1] == LETTER_U && i + 6 <= |t| && parse(t[i + 2..i + 6]).Some? then
      Some((parse(t[i + 2..i + 6]).value, i + 6))
    else None
  }

  /** What the string that starts at `i` decodes to, as far as it goes. */
  function Decoded(t: Text, i: nat, parse: Parser): Text
    decreases |t| - i
  {
    if i >= |t| then []
    else
      var s := DecodeAt(t, i, parse);
      if s.None? then [] else [s.value.0] + Decoded(t, s.value.1, parse)
  }

  /** _decoded_reply_prefix. */
  function ReplyPrefix(raw: Text, parse: Parser): Text {
    var e := SearchFrom(raw, 0);
    if e.None? then [] else Decoded(raw, e.value, parse)
  }

  // ----- The code -----

  class JsonReplyStreamer {
    const parse: Parser
    var raw: Text
    var sent: nat
    ghost var emitted: Text

    ghost predicate Valid() reads this {
      sent == |emitted| && emitted == ReplyPrefix(raw, parse)
    }

    constructor (parse: Parser)
      ensures Valid() && this.parse == parse && raw == [] && emitted == []
    {
      this.parse := parse;
      raw, sent, emitted := [], 0, [];
    }

    /** re.search for the key. */
    method FindKey() returns (e: Option<nat>)
      ensures e == SearchFrom(raw, 0)
    {
      var p := 0;
      while p < |raw|
        invariant p <= |raw| && SearchFrom(raw, p) == SearchFrom(raw, 0)
      {
        e := MatchEnd(raw, p);
        if e.Some? {
          return;
        }
        p := p + 1;
      }
      e := None;
    }

    /** The body of the decoding loop. */
    method DecodeOne(i: nat) returns (s: Option<(Point, nat)>)
      requires i < |raw|
      ensures s == DecodeAt(raw, i, parse)
    {
      if raw[i] == QUOTE {
        return None;
      }
      if raw[i] != BACKSLASH {
        return Some((raw[i], i + 1));
      }
      if i + 1 >= |raw| {
        return None;
      }
      var marker := raw[i + 1];
      if ShortEscape(marker).Some? {
        return Some((ShortEscape(marker).value, i + 2));
      }
      if marker == LETTER_U {
        if i + 6 > |raw| {
          return None;
        }
        var point := parse(raw[i + 2..i + 6]);
        if point.None? {
          return None;
        }
        return Some((point.value, i + 6));
      }
      return None;
    }

    /** The decoding loop. */
    method DecodePrefix() returns (out: Text)
      ensures out == ReplyPrefix(raw, parse)
    {
      var start := FindKey();
      if start.None? {
        return [];
      }
      var i := start.value;
      out := [];
      while i < |raw|
        invariant start.value <= i <= |raw|
        invariant Decoded(raw, start.value, parse) == out + Decoded(raw, i, parse)
      {
        var s := DecodeOne(i);
        if s.None? {
          return;
        }
        Reassociate(out, [s.value.0], Decoded(raw, s.value.1, parse));
        out := out + [s.value.0];
        i := s.value.1;
      }
    }

    /** Returns what is passed on to the caller, if anything is. */
    method Feed(content: bool, text: Text) returns (delta: Text)
      requires Valid()
      modifies this
      ensures Valid()
      ensures raw == if content then old(raw) + text else old(raw)
      ensures emitted == old(emitted) + delta
    {
      if !content {
        return [];
      }
      PrefixGrows(raw, text, parse);
      raw := raw + text;
      var decoded := DecodePrefix();
      if |decoded| <= sent {
        return [];
      }
      delta := decoded[sent..];
      assert decoded == emitted + delta;
      sent := |decoded|;
      emitted := emitted + delta;
    }

    /** A whole stream of content chunks. */
    method FeedAll(chunks: seq<Text>) returns (out: Text)
      requires Valid() && raw == []
      modifies this
      ensures Valid() && raw == Joined(chunks, |chunks|) && out == ReplyPrefix(Joined(chunks, |chunks|), parse)
    {
      out := [];
      assert ReplyPrefix([], parse) == [];
      for k := 0 to |chunks|
        invariant Valid() && raw == Joined(chunks, k) && out == emitted
      {
        var delta := Feed(true, chunks[k]);
        out := out + delta;
      }
    }
  }

  lemma Reassociate(a: Text, b: Text, c: Text)
    ensures (a + b) + c == a + (b + c)
  {
  }

  function Joined(chunks: seq<Text>, k: nat): Text
    requires k <= |chunks|
  {
    if k == 0 then [] else Joined(chunks, k - 1) + chunks[k - 1]
  }

  // ----- Prefixes only grow -----

  lemma {:induction false} SkipFurther(t: Text, more: Text, i: nat)
    requires i <= |t|
    ensures SkipSpaces(t, i) < |t| ==> SkipSpaces(t + more, i) == SkipSpaces(t, i)
    decreases |t| - i
  {
    if i < |t| {
      assert (t + more)[i] == t[i];
      if IsSpaceCode(t[i]) {
        SkipFurther(t, more, i + 1);
      }
    }
  }

  lemma {:induction false} SkipsOnlySpaces(t: Text, i: nat, k: nat)
    requires i <= k < SkipSpaces(t, i) && i <= |t|
    ensures k < |t| && IsSpaceCode(t[k])
    decreases |t| - i
  {
    if i < k {
      SkipsOnlySpaces(t, i + 1, k);
    }
  }

  lemma MatchStays(t: Text, more: Text, p: nat)
    requires MatchEnd(t, p).Some?
    ensures MatchEnd(t + more, p) == MatchEnd(t, p)
  {
    var u := t + more;
    assert u[p..p + 7] == t[p..p + 7];
    var q := SkipSpaces(t, p + 7);
    SkipFurther(t, more, p + 7);
    SkipFurther(t, more, q + 1);
  }

  lemma QuoteInKey(u: Text, p: nat, later: nat)
    requires p + 7 <= |u| && u[p..p + 7] == KEY && p < later <= p + 6 && u[later] == QUOTE
    ensures later == p + 6
  {
    assert u[p..p + 7][later - p] == KEY[later - p];
  }

  lemma LetterAfterKey(u: Text, p: nat)
    requires p + 7 < |u| && u[p + 7] == 0x72
    ensures MatchEnd(u, p).None?
  {
  }

  /** A match that was cut off cannot be completed over a later match: between the two lies
      a quote, which ends it. */
  lemma NoEarlierMatch(t: Text, more: Text, p: nat, later: nat)
    requires p < later && MatchEnd(t, later).Some? && MatchEnd(t, p).None?
    ensures MatchEnd(t + more, p).None?
  {
    var u := t + more;
    assert t[later] == t[later..later + 7][0] == QUOTE && u[later] == t[later];
    assert t[later + 1] == t[later..later + 7][1] == 0x72 && u[later + 1] == t[later + 1];
    if later <= p + 6 {
      if p + 7 <= |u| && u[p..p + 7] == KEY {
        QuoteInKey(u, p, later);
        LetterAfterKey(u, p);
      }
    } else if MatchEnd(u, p).Some? {
      var q := SkipSpaces(u, p + 7);
      var r := SkipSpaces(u, q + 1);
      if later < q {
        SkipsOnlySpaces(u, p + 7, later);
      } else if q < later < r {
        SkipsOnlySpaces(u, q + 1, later);
      } else {
        MatchWithin(t, more, p);
      }
    }
  }

  /** A match that ends within the text so far was there already. */
  lemma MatchWithin(t: Text, more: Text, p: nat)
    requires MatchEnd(t + more, p).Some? && MatchEnd(t + more, p).value <= |t|
    ensures MatchEnd(t, p) == MatchEnd(t + more, p)
  {
    var u := t + more;
    assert u[p..p + 7] == t[p..p + 7];
    SkipWithin(t, more, p + 7);
    SkipWithin(t, more, SkipSpaces(u, p + 7) + 1);
  }

  lemma {:induction false} SkipWithin(t: Text, more: Text, i: nat)
    requires SkipSpaces(t + more, i) < |t| && i <= |t|
    ensures SkipSpaces(t, i) == SkipSpaces(t + more, i)
    decreases |t| - i
  {
    if i < |t| {
      assert (t + more)[i] == t[i];
      if IsSpaceCode(t[i]) {
        SkipWithin(t, more, i + 1);
      }
    }
  }

  lemma {:induction false} SearchStays(t: Text, more: Text, p: nat)
    requires SearchFrom(t, p).Some?
    ensures SearchFrom(t + more, p) == SearchFrom(t, p)
    decreases |t| - p
  {
    if MatchEnd(t, p).Some? {
      MatchStays(t, more, p);
    } else {
      var later := SearchHit(t, p + 1);
      NoEarlierMatch(t, more, p, later);
      SearchStays(t, more, p + 1);
    }
  }

  lemma {:induction false} SearchHit(t: Text, p: nat) returns (h: nat)
    requires SearchFrom(t, p).Some?
    ensures h >= p && MatchEnd(t, h).Some?
    decreases |t| - p
  {
    if MatchEnd(t, p).Some? {
      h := p;
    } else {
      h := SearchHit(t, p + 1);
    }
  }

  lemma {:induction false} DecodedGrows(t: Text, more: Text, i: nat, parse: Parser)
    ensures Decoded(t, i, parse) <= Decoded(t + more, i, parse)
    decreases |t| - i
  {
    if i < |t| {
      var u := t + more;
      var s := DecodeAt(t, i, parse);
      if s.Some? {
        assert u[i] == t[i] && (i + 1 < |t| ==> u[i + 1] == t[i + 1]);
        assert i + 6 <= |t| ==> u[i + 2..i + 6] == t[i + 2..i + 6];
        assert DecodeAt(u, i, parse) == s;
        DecodedGrows(t, more, s.value.1, parse);
      }
    }
  }

  /** More text only ever extends the decoded reply. */
  lemma PrefixGrows(raw: Text, more: Text, parse: Parser)
    ensures ReplyPrefix(raw, parse) <= ReplyPrefix(raw + more, parse)
  {
    if SearchFrom(raw, 0).Some? {
      SearchStays(raw, more, 0);
      DecodedGrows(raw, more, SearchFrom(raw, 0).value, parse);
    }
  }

  // ----- Escaping and streaming back -----

  function HexValue(d: Point): Option<nat> {
    if 0x30 <= d <= 0x39 then Some(d - 0x30)
    else if 0x61 <= d <= 0x66 then Some(d - 0x61 + 10)
    else if 0x41 <= d <= 0x46 then Some(d - 0x41 + 10)
    else None
  }

  predicate FourHexDigits(t: Text) {
    |t| == 4 && forall i :: 0 <= i < 4 ==> HexValue(t[i]).Some?
  }

  function HexNumber(t: Text): Point
    requires FourHexDigits(t)
  {
    ((HexValue(t[0]).value * 16 + HexValue(t[1]).value) * 16 + HexValue(t[2]).value) * 16 + HexValue(t[3]).value
  }

  /** A hexadecimal digit, in small or capital letters. */
  function HexDigit(v: nat, capital: bool): (d: Point)
    requires v < 16
    ensures HexValue(d) == Some(v)
  {
    var digits: Text := [0x30, 0x31, 0x32, 0x33, 0x34, 0x35, 0x36, 0x37, 0x38, 0x39];
    var letters: Text := if capital then [0x41, 0x42, 0x43, 0x44, 0x45, 0x46]
                         else [0x61, 0x62, 0x63, 0x64, 0x65, 0x66];
    if v < 10 then digits[v] else letters[v - 10]
  }

  /** A code unit in four hexadecimal digits, the most significant first. */
  function HexOf(u: Point, capital: bool): (t: Text)
    requires u < 65536
    ensures FourHexDigits(t) && HexNumber(t) == u
  {
    var upper := u / 16;
    var top := upper / 16;
    assert u == upper * 16 + u % 16 && upper == top * 16 + upper % 16 && top == top / 16 * 16 + top % 16;
    var t := [HexDigit(top / 16, capital), HexDigit(top % 16, capital),
              HexDigit(upper % 16, capital), HexDigit(u % 16, capital)];
    assert forall i :: 0 <= i < 4 ==> HexValue(t[i]).Some?;
    t
  }

  /** The one thing assumed of the parser. */
  ghost predicate ParsesHex(parse: Parser) {
    forall t :: FourHexDigits(t) ==> parse(t) == Some(HexNumber(t))
  }

  /** The ways section 7 of RFC 8259 gives for writing a code unit. */
  datatype Form = Plain | Short(marker: Point) | Hex(digits: Text)

  predicate Writes(f: Form, u: Point) {
    match f
    case Plain => u >= 0x20 && u != QUOTE && u != BACKSLASH
    case Short(marker) => ShortEscape(marker) == Some(u)
    case Hex(digits) => FourHexDigits(digits) && HexNumber(digits) == u
  }

  function Written(f: Form, u: Point): Text {
    match f
    case Plain => [u]
    case Short(marker) => [BACKSLASH, marker]
    case Hex(digits) => [BACKSLASH, LETTER_U] + digits
  }

  predicate WritesAll(forms: seq<Form>, units: Text) {
    |forms| == |units| && forall i :: 0 <= i < |units| ==> Writes(forms[i], units[i])
  }

  function Escaped(forms: seq<Form>, units: Text): Text
    requires |forms| == |units|
  {
    if units == [] then [] else Written(forms[0], units[0]) + Escaped(forms[1..], units[1..])
  }

  lemma DropMore(t: Text, i: nat, a: Text, b: Text)
    requires i <= |t| && t[i..] == a + b
    ensures i + |a| <= |t| && t[i..i + |a|] == a && t[i + |a|..] == b
    ensures forall k :: 0 <= k < |a| ==> t[i + k] == a[k]
  {
    assert t[i..][|a|..] == t[i + |a|..];
    assert t[i..][..|a|] == t[i..i + |a|];
    forall k | 0 <= k < |a| ensures t[i + k] == a[k] {
      assert t[i..][k] == t[i + k];
    }
  }

  lemma OneUnit(t: Text, i: nat, f: Form, u: Point, after: Text, parse: Parser)
    requires Writes(f, u) && ParsesHex(parse) && i <= |t| && t[i..] == Written(f, u) + after
    ensures i < |t| && DecodeAt(t, i, parse) == Some((u, i + |Written(f, u)|))
    ensures i + |Written(f, u)| <= |t| && t[i + |Written(f, u)|..] == after
  {
    var w := Written(f, u);
    DropMore(t, i, w, after);
    assert t[i + 0] == w[0];
    if !f.Plain? {
      assert t[i + 1] == w[1];
    }
    if f.Hex? {
      assert t[i + 2..i + 6] == t[i..i + |w|][2..6] == f.digits;
    }
  }

  lemma FirstUnit(t: Text, i: nat, forms: seq<Form>, units: Text, rest: Text, parse: Parser) returns (after: Text)
    requires WritesAll(forms, units) && ParsesHex(parse) && units != []
    requires i <= |t| && t[i..] == Escaped(forms, units) + ([QUOTE] + rest)
    ensures var w := Written(forms[0], units[0]);
            && i < |t| && DecodeAt(t, i, parse) == Some((units[0], i + |w|)) && t[i..] == w + after
            && i + |w| <= |t| && t[i + |w|..] == Escaped(forms[1..], units[1..]) + ([QUOTE] + rest)
            && WritesAll(forms[1..], units[1..])
  {
    var w, more := Written(forms[0], units[0]), Escaped(forms[1..], units[1..]);
    after := more + ([QUOTE] + rest);
    Reassociate(w, more, [QUOTE] + rest);
    OneUnit(t, i, forms[0], units[0], after, parse);
  }

  lemma {:induction false} EscapedDecodes(t: Text, i: nat, forms: seq<Form>, units: Text, rest: Text, parse: Parser)
    requires WritesAll(forms, units) && ParsesHex(parse)
    requires i <= |t| && t[i..] == Escaped(forms, units) + ([QUOTE] + rest)
    ensures Decoded(t, i, parse) == units
    decreases |units|
  {
    if units == [] {
      assert t[i] == t[i..][0] == QUOTE;
    } else {
      var after := FirstUnit(t, i, forms, units, rest, parse);
      EscapedDecodes(t, i + |Written(forms[0], units[0])|, forms[1..], units[1..], rest, parse);
    }
  }

  predicate AllSpaces(t: Text) {
    forall i :: 0 <= i < |t| ==> IsSpaceCode(t[i])
  }

  lemma {:induction false} SkipsAll(t: Text, i: nat, spaces: Text, after: Text)
    requires AllSpaces(spaces) && after != [] && !IsSpaceCode(after[0])
    requires i <= |t| && t[i..] == spaces + after
    ensures SkipSpaces(t, i) == i + |spaces| < |t| && t[i + |spaces|..] == after && t[i + |spaces|] == after[0]
    decreases |spaces|
  {
    if spaces == [] {
      assert t[i] == t[i..][0];
    } else {
      assert t[i] == t[i..][0] == spaces[0];
      assert t[i + 1..] == t[i..][1..] == spaces[1..] + after;
      SkipsAll(t, i + 1, spaces[1..], after);
    }
  }

  /** An object whose first key is the reply. */
  function Answer(a: Text, b: Text, c: Text, escaped: Text, rest: Text): Text {
    [0x7b] + a + (KEY + (b + ([COLON] + (c + ([QUOTE] + (escaped + ([QUOTE] + rest)))))))
  }

  lemma MatchFromParts(t: Text, p: nat, q: nat, r: nat)
    requires p + 7 <= |t| && t[p..p + 7] == KEY
    requires q == SkipSpaces(t, p + 7) < |t| && t[q] == COLON
    requires r == SkipSpaces(t, q + 1) < |t| && t[r] == QUOTE
    ensures MatchEnd(t, p) == Some(r + 1)
  {
  }

  lemma AfterColon(t: Text, q: nat, c: Text, value: Text, after: Text)
    requires AllSpaces(c) && value == [QUOTE] + after && q <= |t| && t[q..] == [COLON] + (c + value)
    ensures var r := q + 1 + |c|;
            q < r < |t| && t[q] == COLON && SkipSpaces(t, q + 1) == r && t[r] == QUOTE && t[r + 1..] == after
  {
    DropMore(t, q, [COLON], c + value);
    assert t[q] == t[q..][0] && value[0] == QUOTE;
    SkipsAll(t, q + 1, c, value);
    DropMore(t, q + 1 + |c|, [QUOTE], after);
  }

  lemma KeyMatches(t: Text, p: nat, b: Text, colon: Text, c: Text, value: Text, after: Text)
    requires AllSpaces(b) && AllSpaces(c) && p <= |t| && t[p..] == KEY + (b + colon)
    requires colon == [COLON] + (c + value) && value == [QUOTE] + after
    ensures MatchEnd(t, p).Some? && MatchEnd(t, p).value <= |t| && t[MatchEnd(t, p).value..] == after
  {
    DropMore(t, p, KEY, b + colon);
    assert colon[0] == COLON;
    SkipsAll(t, p + 7, b, colon);
    AfterColon(t, p + 7 + |b|, c, value, after);
    MatchFromParts(t, p, p + 7 + |b|, p + 7 + |b| + 1 + |c|);
  }

  lemma {:induction false} NothingBefore(t: Text, p: nat, first: nat)
    requires p <= first < |t| && MatchEnd(t, first).Some?
    requires forall k :: p <= k < first ==> t[k] != QUOTE
    ensures SearchFrom(t, p) == MatchEnd(t, first)
    decreases first - p
  {
    if p < first {
      NoQuoteNoMatch(t, p);
      NothingBefore(t, p + 1, first);
    }
  }

  lemma NoQuoteNoMatch(t: Text, p: nat)
    requires p < |t| && t[p] != QUOTE
    ensures MatchEnd(t, p).None?
  {
    if p + 7 <= |t| {
      assert t[p..p + 7][0] != KEY[0];
    }
  }

  /** A reply of code units, escaped in any way section 7 of RFC 8259 allows, is given back
      exactly. */
  lemma EscapedReplyComesBack(a: Text, b: Text, c: Text, forms: seq<Form>, units: Text, rest: Text, parse: Parser)
    requires AllSpaces(a) && AllSpaces(b) && AllSpaces(c) && WritesAll(forms, units) && ParsesHex(parse)
    ensures ReplyPrefix(Answer(a, b, c, Escaped(forms, units), rest), parse) == units
  {
    EscapedStringComesBack(a, b, c, Escaped(forms, units), forms, units, rest, parse);
  }

  function AllHex(units: Text, capital: bool): (forms: seq<Form>)
    requires forall i :: 0 <= i < |units| ==> units[i] < 65536
    ensures |forms| == |units| && forall i :: 0 <= i < |units| ==> forms[i] == Hex(HexOf(units[i], capital))
  {
    seq(|units|, i requires 0 <= i < |units| => Hex(HexOf(units[i], capital)))
  }

  /** In particular any code units at all, each written as four hexadecimal digits, in small or
      capital letters. */
  lemma HexedReplyComesBack(units: Text, capital: bool, rest: Text, parse: Parser)
    requires ParsesHex(parse) && forall i :: 0 <= i < |units| ==> units[i] < 65536
    ensures ReplyPrefix(Answer([], [], [], Escaped(AllHex(units, capital), units), rest), parse) == units
  {
    EscapedReplyComesBack([], [], [], AllHex(units, capital), units, rest, parse);
  }

  lemma EscapedStringComesBack(a: Text, b: Text, c: Text, esc: Text, forms: seq<Form>, units: Text, rest: Text,
                               parse: Parser)
    requires AllSpaces(a) && AllSpaces(b) && AllSpaces(c) && ParsesHex(parse)
    requires WritesAll(forms, units) && esc == Escaped(forms, units)
    ensures ReplyPrefix(Answer(a, b, c, esc, rest), parse) == units
  {
    var e := ReplyBegins(a, b, c, esc, rest);
    EscapedDecodes(Answer(a, b, c, esc, rest), e, forms, units, rest, parse);
  }

  lemma ReplyBegins(a: Text, b: Text, c: Text, esc: Text, rest: Text) returns (e: nat)
    requires AllSpaces(a) && AllSpaces(b) && AllSpaces(c)
    ensures var t := Answer(a, b, c, esc, rest);
            SearchFrom(t, 0) == Some(e) && e <= |t| && t[e..] == esc + ([QUOTE] + rest)
  {
    var t, first := Answer(a, b, c, esc, rest), 1 + |a|;
    AnswerStarts(a, b, c, esc, rest);
    var value := [QUOTE] + (esc + ([QUOTE] + rest));
    KeyMatches(t, first, b, [COLON] + (c + value), c, value, esc + ([QUOTE] + rest));
    NothingBefore(t, 0, first);
    e := MatchEnd(t, first).value;
  }

  lemma AnswerStarts(a: Text, b: Text, c: Text, esc: Text, rest: Text)
    requires AllSpaces(a)
    ensures var t, first := Answer(a, b, c, esc, rest), 1 + |a|;
            && first < |t| && t[first..] == KEY + (b + ([COLON] + (c + ([QUOTE] + (esc + ([QUOTE] + rest))))))
            && forall k :: 0 <= k < first ==> t[k] != QUOTE
  {
    var t, first := Answer(a, b, c, esc, rest), 1 + |a|;
    forall k | 0 <= k < first ensures t[k] != QUOTE {
      assert t[k] == ([0x7b] + a)[k];
    }
  }

  /** However the answer is cut into chunks, the deltas add up to the reply. */
  method StreamAnswer(s: JsonReplyStreamer, chunks: seq<Text>, a: Text, b: Text, c: Text,
                      ghost forms: seq<Form>, ghost units: Text, ghost rest: Text)
    returns (out: Text)
    requires s.Valid() && s.raw == [] && ParsesHex(s.parse)
    requires AllSpaces(a) && AllSpaces(b) && AllSpaces(c) && WritesAll(forms, units)
    requires Joined(chunks, |chunks|) == Answer(a, b, c, Escaped(forms, units), rest)
    modifies s
    ensures out == units
  {
    EscapedReplyComesBack(a, b, c, forms, units, rest, s.parse);
    out := s.FeedAll(chunks);
  }

  lemma TwoWritten(f: Form, u: Point, g: Form, v: Point)
    requires Writes(f, u) && Writes(g, v)
    ensures WritesAll([f, g], [u, v]) && Escaped([f, g], [u, v]) == Written(f, u) + (Written(g, v) + [])
  {
    assert [f, g][1..] == [g] && [u, v][1..] == [v];
    assert [g][1..] == [] && [v][1..] == [];
    assert Escaped([g], [v]) == Written(g, v) + Escaped([g][1..], [v][1..]);
    assert Escaped([f, g], [u, v]) == Written(f, u) + Escaped([f, g][1..], [u, v][1..]);
  }

  /** Beyond the basic plane the streamed reply differs from a JSON parser's: an escaped
      surrogate pair stays two code points. */
  lemma SurrogatePairStaysApart(high: Text, low: Text, rest: Text, parse: Parser)
    requires ParsesHex(parse) && FourHexDigits(high) && FourHexDigits(low)
    requires 0xd800 <= HexNumber(high) < 0xdc00 <= HexNumber(low) < 0xe000
    ensures var escaped := Written(Hex(high), HexNumber(high)) + (Written(Hex(low), HexNumber(low)) + []);
            ReplyPrefix(Answer([], [], [], escaped, rest), parse) == [HexNumber(high), HexNumber(low)]
  {
    TwoWritten(Hex(high), HexNumber(high), Hex(low), HexNumber(low));
    EscapedReplyComesBack([], [], [], [Hex(high), Hex(low)], [HexNumber(high), HexNumber(low)], rest, parse);
  }

  // ----- Against a JSON decoder that joins surrogate pairs -----

  predicate HighAndLow(u: Point, v: Point) {
    0xd800 <= u < 0xdc00 <= v < 0xe000
  }

  function Joint(u: Point, v: Point): Point
    requires HighAndLow(u, v)
  {
    0x10000 + (u - 0xd800) * 0x400 + (v - 0xdc00)
  }

  predicate HexAt(t: Text, i: nat, parse: Parser) {
    i + 1 < |t| && t[i] == BACKSLASH && t[i + 1] == LETTER_U && DecodeAt(t, i, parse).Some?
  }

  /** At `i` an escaped high surrogate stands directly before an escaped low one. */
  predicate PairAt(t: Text, i: nat, parse: Parser) {
    HexAt(t, i, parse) &&
    var (u, j) := DecodeAt(t, i, parse).value;
    HexAt(t, j, parse) && HighAndLow(u, DecodeAt(t, j, parse).value.0)
  }

  /** What json.loads makes of the string that starts at `i`: the same steps, but such a pair
      is one code point. */
  function JsonDecoded(t: Text, i: nat, parse: Parser): Text
    decreases |t| - i
  {
    if i >= |t| || DecodeAt(t, i, parse).None? then []
    else
      var (u, j) := DecodeAt(t, i, parse).value;
      if PairAt(t, i, parse) then
        var (v, k) := DecodeAt(t, j, parse).value;
        [Joint(u, v)] + JsonDecoded(t, k, parse)
      else [u] + JsonDecoded(t, j, parse)
  }

  function JsonReply(raw: Text, parse: Parser): Text {
    var e := SearchFrom(raw, 0);
    if e.None? then [] else JsonDecoded(raw, e.value, parse)
  }

  /** No escaped high surrogate is directly followed by an escaped low one. */
  predicate PairFree(t: Text, i: nat, parse: Parser)
    decreases |t| - i
  {
    i >= |t| || DecodeAt(t, i, parse).None?
    || (!PairAt(t, i, parse) && PairFree(t, DecodeAt(t, i, parse).value.1, parse))
  }

  lemma {:induction false} JoiningShortens(t: Text, i: nat, parse: Parser)
    ensures |JsonDecoded(t, i, parse)| <= |Decoded(t, i, parse)|
    ensures JsonDecoded(t, i, parse) == Decoded(t, i, parse) <==> PairFree(t, i, parse)
    decreases |t| - i
  {
    if i < |t| && DecodeAt(t, i, parse).Some? {
      var (u, j) := DecodeAt(t, i, parse).value;
      if PairAt(t, i, parse) {
        var (v, k) := DecodeAt(t, j, parse).value;
        JoiningShortens(t, k, parse);
        assert Decoded(t, i, parse) == [u] + ([v] + Decoded(t, k, parse));
        assert |JsonDecoded(t, i, parse)| < |Decoded(t, i, parse)|;
      } else {
        JoiningShortens(t, j, parse);
        var a, b := JsonDecoded(t, j, parse), Decoded(t, j, parse);
        assert ([u] + a)[1..] == a && ([u] + b)[1..] == b;
      }
    }
  }

  /** Units `k` and `k + 1` are a surrogate pair, both escaped by their digits. */
  predicate EscapedPair(forms: seq<Form>, units: Text, k: nat)
    requires |forms| == |units|
  {
    k + 1 < |units| && forms[k].Hex? && forms[k + 1].Hex? && HighAndLow(units[k], units[k + 1])
  }

  predicate NoEscapedPair(forms: seq<Form>, units: Text)
    requires |forms| == |units|
  {
    forall k :: 0 <= k < |units| ==> !EscapedPair(forms, units, k)
  }

  lemma NoEscapedPairFront(forms: seq<Form>, units: Text)
    requires |forms| == |units| > 0
    ensures NoEscapedPair(forms, units) <==> !EscapedPair(forms, units, 0) && NoEscapedPair(forms[1..], units[1..])
  {
    forall k | 0 <= k < |units| - 1 ensures EscapedPair(forms[1..], units[1..], k) == EscapedPair(forms, units, k + 1) {
    }
    if NoEscapedPair(forms[1..], units[1..]) && !EscapedPair(forms, units, 0) {
      forall k | 0 <= k < |units| ensures !EscapedPair(forms, units, k) {
        assert k > 0 ==> EscapedPair(forms[1..], units[1..], k - 1) == EscapedPair(forms, units, k);
      }
    }
  }

  lemma HexHere(t: Text, i: nat, f: Form, u: Point, after: Text, parse: Parser)
    requires Writes(f, u) && ParsesHex(parse) && i <= |t| && t[i..] == Written(f, u) + after
    ensures HexAt(t, i, parse) <==> f.Hex?
  {
    OneUnit(t, i, f, u, after, parse);
    DropMore(t, i, Written(f, u), after);
    assert t[i + 0] == Written(f, u)[0];
    if !f.Plain? {
      assert t[i + 1] == Written(f, u)[1];
    }
  }

  lemma QuoteHere(t: Text, i: nat, rest: Text, parse: Parser)
    requires i <= |t| && t[i..] == [QUOTE] + rest
    ensures i < |t| && t[i] == QUOTE && !HexAt(t, i, parse) && DecodeAt(t, i, parse).None?
  {
    assert t[i] == t[i..][0];
  }

  lemma PairHere(t: Text, i: nat, forms: seq<Form>, units: Text, rest: Text, parse: Parser)
    requires WritesAll(forms, units) && ParsesHex(parse) && units != []
    requires i <= |t| && t[i..] == Escaped(forms, units) + ([QUOTE] + rest)
    ensures PairAt(t, i, parse) <==> EscapedPair(forms, units, 0)
  {
    var next := i + |Written(forms[0], units[0])|;
    var after := FirstUnit(t, i, forms, units, rest, parse);
    HexHere(t, i, forms[0], units[0], after, parse);
    if |units| > 1 {
      var later := FirstUnit(t, next, forms[1..], units[1..], rest, parse);
      HexHere(t, next, forms[1], units[1], later, parse);
    } else {
      assert [] + ([QUOTE] + rest) == [QUOTE] + rest;
      QuoteHere(t, next, rest, parse);
    }
  }

  lemma {:induction false} PairFreeExact(t: Text, i: nat, forms: seq<Form>, units: Text, rest: Text, parse: Parser)
    requires WritesAll(forms, units) && ParsesHex(parse)
    requires i <= |t| && t[i..] == Escaped(forms, units) + ([QUOTE] + rest)
    ensures PairFree(t, i, parse) <==> NoEscapedPair(forms, units)
    decreases |units|
  {
    if units == [] {
      assert t[i..] == [QUOTE] + rest;
      QuoteHere(t, i, rest, parse);
    } else {
      var after := FirstUnit(t, i, forms, units, rest, parse);
      PairHere(t, i, forms, units, rest, parse);
      PairFreeExact(t, i + |Written(forms[0], units[0])|, forms[1..], units[1..], rest, parse);
      NoEscapedPairFront(forms, units);
    }
  }

  /** What is streamed of an answer is what json.loads decodes from it, exactly when no escaped
      high surrogate is directly followed by an escaped low one. */
  lemma StreamedIsDecodedExact(a: Text, b: Text, c: Text, forms: seq<Form>, units: Text, rest: Text, parse: Parser)
    requires AllSpaces(a) && AllSpaces(b) && AllSpaces(c) && WritesAll(forms, units) && ParsesHex(parse)
    ensures var t := Answer(a, b, c, Escaped(forms, units), rest);
            ReplyPrefix(t, parse) == JsonReply(t, parse) <==> NoEscapedPair(forms, units)
  {
    var esc := Escaped(forms, units);
    var t := Answer(a, b, c, esc, rest);
    var e := ReplyBegins(a, b, c, esc, rest);
    JoiningShortens(t, e, parse);
    PairFreeExact(t, e, forms, units, rest, parse);
  }
}
